// Model of cpg_infra/abstraction/base.py: the permission enums, the
// component selection in `CloudInfraBase.__init__`, and the `DevInfra`
// double, whose methods print and return formatted handle strings.
module Base {
  import opened Wrappers
  import opened Strings
  import opened Config
  import ConfigParser

  /** Lifecycle periods in days (base.py:23-25). */
  const UndeletePeriodInDays: int := 30
  const TmpBucketPeriodInDays: int := 8
  const ArchivePeriodInDays: int := 30

  // ---------------------------------------------------------------------
  // Enums (base.py:28-37)

  datatype SecretMembership = Accessor | Admin

  function SecretMembershipValue(s: SecretMembership): string
  {
    match s
    case Accessor => "accessor"
    case Admin => "admin"
  }

  /** `SecretMembership(v)`: the member whose value is `v`, if any. */
  function SecretMembershipFromValue(v: string): (r: Option<SecretMembership>)
    ensures r.Some? ==> SecretMembershipValue(r.value) == v
    ensures r.None? ==> forall s: SecretMembership :: SecretMembershipValue(s) != v
  {
    if v == "accessor" then Some(Accessor)
    else if v == "admin" then Some(Admin)
    else None
  }

  datatype BucketPermission = List | Read | Append | Mutate

  function BucketPermissionValue(p: BucketPermission): string
  {
    match p
    case List => "list"
    case Read => "read"
    case Append => "append"
    case Mutate => "mutate"
  }

  /** `BucketPermission(v)`: the member whose value is `v`, if any. */
  function BucketPermissionFromValue(v: string): (r: Option<BucketPermission>)
    ensures r.Some? ==> BucketPermissionValue(r.value) == v
    ensures r.None? ==> forall p: BucketPermission :: BucketPermissionValue(p) != v
  {
    if v == "list" then Some(List)
    else if v == "read" then Some(Read)
    else if v == "append" then Some(Append)
    else if v == "mutate" then Some(Mutate)
    else None
  }

  /** The enum values round-trip, and there are exactly four bucket permissions and two secret memberships. */
  lemma EnumValuesRoundTrip(p: BucketPermission, s: SecretMembership)
    ensures BucketPermissionFromValue(BucketPermissionValue(p)) == Some(p)
    ensures SecretMembershipFromValue(SecretMembershipValue(s)) == Some(s)
    ensures p in {List, Read, Append, Mutate} && s in {Accessor, Admin}
  {
  }

  // ---------------------------------------------------------------------
  // CloudInfraBase.__init__ (base.py:41-47)

  datatype KeyError = KeyError(key: string)

  /**
   * `config.components.get(name, defaults[name])`. As written, Python
   * evaluates the default argument first, so a provider whose name has no
   * row in the defaults table raises KeyError even when the config lists
   * its components; the intended lookup consults the table only as a
   * fallback.
   */
  function InfraComponents(configured: map<string, seq<Component>>, name: string, m: ConfigParser.Mode): (r: Result<seq<Component>, KeyError>)
    ensures r.Ok? && name in configured ==> r.value == configured[name]
    ensures r.Ok? && name !in configured ==> name in DefaultComponentForInfrastructure() && r.value == DefaultComponentForInfrastructure()[name]
    ensures r.Err? ==> r.error == KeyError(name) && name !in DefaultComponentForInfrastructure()
  {
    var defaults := DefaultComponentForInfrastructure();
    if m == ConfigParser.AsWritten then
      if name !in defaults then Err(KeyError(name))
      else if name in configured then Ok(configured[name]) else Ok(defaults[name])
    else
      if name in configured then Ok(configured[name])
      else if name in defaults then Ok(defaults[name])
      else Err(KeyError(name))
  }

  /** The intended lookup: the configured list when there is one, else the defaults row, else KeyError. */
  lemma InfraComponentsIntended(configured: map<string, seq<Component>>, name: string)
    ensures var r := InfraComponents(configured, name, ConfigParser.Intended);
            (name in configured ==> r == Ok(configured[name])) &&
            (name !in configured && name in DefaultComponentForInfrastructure() ==> r == Ok(DefaultComponentForInfrastructure()[name])) &&
            (r.Err? <==> name !in configured && name !in DefaultComponentForInfrastructure())
  {
  }

  /** For a provider with a defaults row the two readings agree. */
  lemma InfraComponentsAgree(configured: map<string, seq<Component>>, name: string)
    requires name in DefaultComponentForInfrastructure()
    ensures InfraComponents(configured, name, ConfigParser.AsWritten) == InfraComponents(configured, name, ConfigParser.Intended)
  {
  }

  /** As written, the 'dev' provider cannot be set up even with its components configured. */
  lemma DevComponentsAsWritten()
    ensures InfraComponents(map["dev" := [Storage]], DevName(), ConfigParser.AsWritten) == Err(KeyError("dev"))
    ensures InfraComponents(map["dev" := [Storage]], DevName(), ConfigParser.Intended) == Ok([Storage])
  {
    assert "dev" !in DefaultComponentForInfrastructure();
  }

  // ---------------------------------------------------------------------
  // DevInfra (base.py:155-206)

  function DevName(): string { "dev" }

  function BucketRuleUndelete(days: int := UndeletePeriodInDays): string
  {
    "RULE:undelete=" + IntToString(days) + "d"
  }

  function BucketRuleTemporary(days: int := TmpBucketPeriodInDays): string
  {
    "RULE:tmp=" + IntToString(days) + "d"
  }

  /** The default rules (base.py:160-164). */
  lemma DefaultRules()
    ensures BucketRuleUndelete() == "RULE:undelete=30d"
    ensures BucketRuleTemporary() == "RULE:tmp=8d"
  {
    assert IntToString(30) == "30" by { assert NatToString(30) == NatToString(3) + [DigitChar(0)]; }
    assert IntToString(8) == "8";
  }

  function BucketHandle(name: string): string { "BUCKET://" + name }
  function MachineAccountHandle(name: string): string { name + "@generated.service-account" }
  function GroupHandle(name: string): string { name + "@populationgenomics.org.au" }
  function SecretHandle(name: string): string { "SECRET:" + name }

  /** `DevInfra.create_bucket`: the handle depends on the name only, whatever the rules and flags. */
  function DevCreateBucket(name: string, rules: seq<string>, unique: bool := false, requesterPays: bool := false, versioning: bool := true): (r: string)
    ensures r == BucketHandle(name)
  {
    BucketHandle(name)
  }

  /** Each handle format carries the name back out, so distinct names give distinct handles. */
  lemma HandlesCarryName(name: string)
    ensures StartsWith(BucketHandle(name), "BUCKET://") && BucketHandle(name)[|"BUCKET://"|..] == name
    ensures StartsWith(SecretHandle(name), "SECRET:") && SecretHandle(name)[|"SECRET:"|..] == name
    ensures EndsWith(GroupHandle(name), "@populationgenomics.org.au") && GroupHandle(name)[..|name|] == name
    ensures EndsWith(MachineAccountHandle(name), "@generated.service-account") && MachineAccountHandle(name)[..|name|] == name
  {
    assert BucketHandle(name)[..|"BUCKET://"|] == "BUCKET://";
    assert SecretHandle(name)[..|"SECRET:"|] == "SECRET:";
  }

  lemma HandlesInjective(a: string, b: string)
    requires a != b
    ensures BucketHandle(a) != BucketHandle(b) && SecretHandle(a) != SecretHandle(b)
    ensures GroupHandle(a) != GroupHandle(b) && MachineAccountHandle(a) != MachineAccountHandle(b)
  {
    HandlesCarryName(a);
    HandlesCarryName(b);
    assert |GroupHandle(a)| == |a| + 26 && |GroupHandle(b)| == |b| + 26;
    assert |MachineAccountHandle(a)| == |a| + 26 && |MachineAccountHandle(b)| == |b| + 26;
  }

  // ---------------------------------------------------------------------
  // Shared by the providers

  /**
   * A value passed where an enum member is expected: one of the enum's
   * members, or anything else (the providers' final `else: raise`).
   */
  datatype Arg<E> = Known(value: E) | Unknown(repr: string)

  /**
   * The resource name a provider gives a key: `get_pulumi_name(key)`, or the
   * key itself when the caller asks for a unique key. `get_pulumi_name` is
   * not part of this model, so the name stays symbolic.
   */
  datatype PulumiName = Prefixed(key: string) | Unique(key: string)

  /** `ContainerRegistryMembership`, which the providers import from base.py; this copy of base.py does not define it. */
  datatype RegistryMembership = RegistryReader | RegistryWriter
}
