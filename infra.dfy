// An abstract, call-recording cloud infrastructure, standing in for the
// `CloudInfraBase` providers that cpg_infra/driver.py drives. Each method
// appends the call it received to `resources` (creations) or `calls`
// (everything else); the create methods return the handle formats of
// `DevInfra` (cpg_infra/abstraction/base.py:155-206).
module Infra {
  import opened Wrappers
  import opened Strings
  import opened Base

  /** The three providers the driver distinguishes by `isinstance`/`name()`. */
  datatype InfraKind = Dev | Gcp | Azure

  function KindName(k: InfraKind): string
  {
    match k
    case Dev => "dev"
    case Gcp => "gcp"
    case Azure => "azure"
  }

  /** `infra_map[n]` in `deploy_all_from_config`: the provider registered under `n`. */
  function KindFromName(n: string): (r: Result<InfraKind, KeyError>)
    ensures r.Ok? ==> KindName(r.value) == n
    ensures r.Err? ==> r.error == KeyError(n) && forall k: InfraKind :: KindName(k) != n
  {
    if n == "dev" then Ok(Dev)
    else if n == "gcp" then Ok(Gcp)
    else if n == "azure" then Ok(Azure)
    else Err(KeyError(n))
  }

  lemma KindNameRoundTrip(k: InfraKind)
    ensures KindFromName(KindName(k)) == Ok(k)
  {
  }

  /** A bucket lifecycle rule, as `bucket_rule_undelete`, `bucket_rule_temporary` and `bucket_rule_archive` build it. */
  datatype Rule = UndeleteRule(days: int) | TemporaryRule(days: int) | ArchiveRule(days: int)

  /** A group to add a member to: one the infra made, or the group a dependency stack exports for an access level. */
  datatype GroupRef = GroupId(id: string) | StackOutput(stack: string, accessLevel: string)

  datatype Call =
    | NewGroup(name: string)
    | NewBucket(name: string, rules: seq<Rule>, unique: bool, requesterPays: bool, versioning: bool)
    | NewMachineAccount(name: string, project: Option<string>)
    | NewSecret(name: string, project: Option<string>)
    | GroupMember(key: string, group: GroupRef, member: string)
    | BucketMember(key: string, bucket: string, member: string, permission: BucketPermission)
    | MachineAccountUser(key: string, account: string, member: string)
    | SecretMember(key: string, secret: string, member: string, membership: SecretMembership, project: Option<string>)
    | RegistryMember(key: string, registry: string, registryProject: string, member: string, registryRole: RegistryMembership)
    | ProjectRole(key: string, member: string, role: string, project: Option<string>)
    | BucketLister(key: string, member: string)
    | CloudrunInvoker(key: string, service: string, serviceProject: string, member: string)
    | LifescienceRunner(key: string, account: string)
    | DataprocRole(key: string, account: string, role: string)
    | Credentials(key: string, account: string)
    | SecretVersion(key: string, secret: string, contents: string)
    | Export(name: string, value: string)

  /** The calls the driver's memoised accessors make: creating groups, buckets and machine accounts. */
  predicate IsCreation(c: Call)
  {
    c.NewGroup? || c.NewBucket? || c.NewMachineAccount?
  }

  /** `bucket_rule_undelete()`, `bucket_rule_temporary()`, `bucket_rule_archive()` with their default periods. */
  function RuleUndelete(days: int := UndeletePeriodInDays): Rule { UndeleteRule(days) }
  function RuleTemporary(days: int := TmpBucketPeriodInDays): Rule { TemporaryRule(days) }
  function RuleArchive(days: int := ArchivePeriodInDays): Rule { ArchiveRule(days) }

  /**
   * The text `DevInfra` prints for a rule. `DevInfra` has no archive rule,
   * so that format is this model's own.
   */
  function RuleText(r: Rule): (t: string)
    ensures StartsWith(t, "RULE:")
  {
    match r
    case UndeleteRule(d) => BucketRuleUndelete(d)
    case TemporaryRule(d) => BucketRuleTemporary(d)
    case ArchiveRule(d) => "RULE:archive=" + IntToString(d) + "d"
  }

  /** Different rules print differently, so the text identifies the rule. */
  lemma RuleTextInjective(a: Rule, b: Rule)
    requires RuleText(a) == RuleText(b)
    ensures a == b
  {
    var ta, tb := RuleText(a), RuleText(b);
    var da, db := a.days, b.days;
    var pa := match a case UndeleteRule(_) => "RULE:undelete=" case TemporaryRule(_) => "RULE:tmp=" case ArchiveRule(_) => "RULE:archive=";
    var pb := match b case UndeleteRule(_) => "RULE:undelete=" case TemporaryRule(_) => "RULE:tmp=" case ArchiveRule(_) => "RULE:archive=";
    assert ta == pa + IntToString(da) + "d" && tb == pb + IntToString(db) + "d";
    // the prefixes differ at their sixth character
    assert ta[5] == pa[5] && tb[5] == pb[5];
    assert a.UndeleteRule? <==> b.UndeleteRule?;
    assert a.TemporaryRule? <==> b.TemporaryRule?;
    assert |pa| == |pb|;
    assert IntToString(da) == ta[|pa|..|ta| - 1] == tb[|pb|..|tb| - 1] == IntToString(db);
    ParseIntOfIntToString(da);
    ParseIntOfIntToString(db);
  }

  /** Appending one call at a time builds the same log as appending the list. */
  lemma AppendAssoc(a: seq<Call>, b: seq<Call>, c: seq<Call>)
    ensures a + b + c == a + (b + c)
  {
  }

  function CredentialsHandle(key: string): string { "CREDENTIALS:" + key }

  /**
   * The recorder files the resources it creates (groups, buckets, machine
   * accounts) and every other call in two lists, each in the order received.
   */
  class RecordingInfra {
    const kind: InfraKind
    var resources: seq<Call>
    var calls: seq<Call>

    constructor (kind: InfraKind)
      ensures this.kind == kind && resources == [] && calls == []
    {
      this.kind := kind;
      resources := [];
      calls := [];
    }

    function Name(): string
    {
      KindName(kind)
    }

    method CreateGroup(name: string) returns (h: string)
      modifies this
      ensures resources == old(resources) + [NewGroup(name)] && calls == old(calls)
      ensures h == GroupHandle(name)
    {
      resources := resources + [NewGroup(name)];
      h := GroupHandle(name);
    }

    /** As `DevInfra.create_bucket`, the handle depends on the name only. */
    method CreateBucket(name: string, rules: seq<Rule>, unique: bool := false, requesterPays: bool := false, versioning: bool := true) returns (h: string)
      modifies this
      ensures resources == old(resources) + [NewBucket(name, rules, unique, requesterPays, versioning)] && calls == old(calls)
      ensures h == BucketHandle(name)
    {
      resources := resources + [NewBucket(name, rules, unique, requesterPays, versioning)];
      h := BucketHandle(name);
    }

    method CreateMachineAccount(name: string, project: Option<string> := None) returns (h: string)
      modifies this
      ensures resources == old(resources) + [NewMachineAccount(name, project)] && calls == old(calls)
      ensures h == MachineAccountHandle(name)
    {
      resources := resources + [NewMachineAccount(name, project)];
      h := MachineAccountHandle(name);
    }

    method CreateSecret(name: string, project: Option<string> := None) returns (h: string)
      modifies this
      ensures calls == old(calls) + [NewSecret(name, project)] && resources == old(resources)
      ensures h == SecretHandle(name)
    {
      calls := calls + [NewSecret(name, project)];
      h := SecretHandle(name);
    }

    method GetCredentialsForMachineAccount(key: string, account: string) returns (h: string)
      modifies this
      ensures calls == old(calls) + [Credentials(key, account)] && resources == old(resources)
      ensures h == CredentialsHandle(key)
    {
      calls := calls + [Credentials(key, account)];
      h := CredentialsHandle(key);
    }

    /** Any call that creates nothing the driver memoises and returns nothing it uses. */
    method Record(c: Call)
      requires !IsCreation(c) && !c.NewSecret? && !c.Credentials?
      modifies this
      ensures calls == old(calls) + [c] && resources == old(resources)
    {
      calls := calls + [c];
    }
  }
}
