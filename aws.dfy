// Model of the AWS provider, cpg_infra/abstraction/aws.py. `AWSInfra`
// records group memberships and bucket memberships in nested dictionaries
// as the driver calls it, and turns them into IAM resources and policy
// statements in `finalise`. Python's insertion-ordered dictionaries are
// modelled by `ODict`: the keys in insertion order plus a map.
module Aws {
  import opened Wrappers
  import opened Base

  datatype AwsError = ValueError | AttributeError | NotImplementedError

  // ---------------------------------------------------------------------
  // Insertion-ordered dictionaries

  datatype ODict<K(==,!new), V> = ODict(keys: seq<K>, values: map<K, V>)

  /** Every key is listed once, and the listed keys are the map's. */
  predicate WellFormed<K(==,!new), V>(d: ODict<K, V>)
  {
    (forall i, j :: 0 <= i < j < |d.keys| ==> d.keys[i] != d.keys[j]) &&
    (forall k :: k in d.values ==> k in d.keys) &&
    (forall i :: 0 <= i < |d.keys| ==> d.keys[i] in d.values)
  }

  function EmptyDict<K(==,!new), V>(): (r: ODict<K, V>)
    ensures WellFormed(r) && r.keys == []
  {
    ODict([], map[])
  }

  /** `d.get(k, default)`, and also `defaultdict`'s lookup before the entry is made. */
  function GetOr<K(==,!new), V>(d: ODict<K, V>, k: K, default: V): V
  {
    if k in d.values then d.values[k] else default
  }

  /**
   * `d[k] = v`: an existing key keeps its place and takes the new value; a
   * new key goes last.
   */
  function Put<K(==,!new), V>(d: ODict<K, V>, k: K, v: V): (r: ODict<K, V>)
    requires WellFormed(d)
    ensures WellFormed(r)
    ensures r.values == d.values[k := v]
    ensures k in d.values ==> r.keys == d.keys
    ensures k !in d.values ==> r.keys == d.keys + [k]
  {
    if k in d.values then ODict(d.keys, d.values[k := v]) else ODict(d.keys + [k], d.values[k := v])
  }

  /** A second write under the same key replaces the first, leaving the order as the first write made it. */
  lemma PutOverwrites<K(!new), V>(d: ODict<K, V>, k: K, v1: V, v2: V)
    requires WellFormed(d)
    ensures Put(Put(d, k, v1), k, v2) == Put(d, k, v2)
  {
    assert d.values[k := v1][k := v2] == d.values[k := v2];
  }

  // ---------------------------------------------------------------------
  // The objects the provider is handed and creates

  datatype AwsObject =
    | IamGroup(name: string)                  // aws.iam.Group
    | IamUser(id: string, name: string)       // aws.iam.User
    | S3Bucket(bucket: string)                // aws.s3.Bucket
    | OutputValue(value: string)              // a pulumi.Output
    | Text(s: string)
    | Unrecognised(repr: string)

  /** `get_identifier` (aws.py:51-62). */
  function GetIdentifier(o: AwsObject): (r: Result<string, AwsError>)
    ensures r.Err? <==> o.S3Bucket? || o.Unrecognised?
    ensures o.IamGroup? ==> r == Ok(o.name)
    ensures o.IamUser? ==> r == Ok(o.id)
  {
    match o
    case Text(s) => Ok(s)
    case OutputValue(v) => Ok(v)
    case IamGroup(n) => Ok(n)
    case IamUser(id, _) => Ok(id)
    case _ => Err(ValueError)
  }

  /** The `.name` attribute `finalise_group_memberships` reads: only IAM groups and users have one. */
  function NameAttr(o: AwsObject): (r: Result<string, AwsError>)
    ensures r.Ok? <==> Named(o)
    ensures r.Ok? ==> r.value == o.name
  {
    if Named(o) then Ok(o.name) else Err(AttributeError)
  }

  /** The objects with a `name` attribute: IAM groups and users. */
  predicate Named(o: AwsObject)
  {
    o.IamGroup? || o.IamUser?
  }

  // ---------------------------------------------------------------------
  // Bucket permissions as S3 actions

  /** `bucket_membership_to_s3_policy` (aws.py:83-108). */
  function S3Policy(m: Arg<BucketPermission>): (r: Result<seq<string>, AwsError>)
    ensures r.Err? <==> m.Unknown?
    ensures r.Err? ==> r.error == NotImplementedError
    ensures r.Ok? ==> |r.value| > 0 && r.value[0] == "s3:ListBucket"
  {
    match m
    case Known(List) => Ok(["s3:ListBucket"])
    case Known(Read) => Ok(["s3:ListBucket", "s3:GetObject"])
    case Known(Append) => Ok(["s3:ListBucket", "s3:GetObject", "s3:GetObjectVersion", "s3:AbortMultipartUpload", "s3:PutObject"])
    case Known(Mutate) => Ok(["s3:ListBucket", "s3:GetObject", "s3:DeleteObject", "s3:DeleteObjectVersion",
                              "s3:AbortMultipartUpload", "s3:PutObject", "s3:RestoreObject"])
    case Unknown(_) => Err(NotImplementedError)
  }

  function Actions(p: BucketPermission): set<string>
  {
    set a | a in S3Policy(Known(p)).value
  }

  /**
   * The action sets nest: LIST within READ within APPEND, and READ within
   * MUTATE. APPEND is not within MUTATE: only APPEND lists
   * s3:GetObjectVersion, and only MUTATE deletes.
   */
  lemma S3PoliciesNest()
    ensures Actions(List) < Actions(Read) < Actions(Append)
    ensures Actions(Read) < Actions(Mutate)
    ensures "s3:GetObjectVersion" in Actions(Append) - Actions(Mutate)
    ensures "s3:DeleteObject" in Actions(Mutate) - Actions(Append)
  {
    SmallPoliciesNest();
    VersionOnlyAppend();
    DeleteOnlyMutate();
  }

  lemma SmallPoliciesNest()
    ensures Actions(List) < Actions(Read) < Actions(Append)
    ensures Actions(Read) < Actions(Mutate)
  {
    assert "s3:GetObject" in Actions(Read) && "s3:GetObject" != "s3:ListBucket";
    var a := S3Policy(Known(Append)).value;
    assert a[2] == "s3:GetObjectVersion" && "s3:GetObjectVersion" in Actions(Append);
    assert "s3:DeleteObject" in Actions(Mutate);
    assert a[2][3] == 'G' && "s3:GetObject"[3] == 'G' && |a[2]| != |"s3:GetObject"|;
    assert "s3:DeleteObject"[3] == 'D';
  }

  /** No action of MUTATE is 's3:GetObjectVersion'. */
  lemma VersionOnlyAppend()
    ensures "s3:GetObjectVersion" in Actions(Append) - Actions(Mutate)
  {
    var a, m := S3Policy(Known(Append)).value, S3Policy(Known(Mutate)).value;
    assert a[2] == "s3:GetObjectVersion";
    assert m[0][3] == 'L' && m[1][6] == 'O' && m[2][3] == 'D' && m[3][3] == 'D' && m[4][3] == 'A' && m[5][3] == 'P' && m[6][3] == 'R';
    assert |m[1]| == 12;
  }

  /** No action of APPEND is 's3:DeleteObject'. */
  lemma DeleteOnlyMutate()
    ensures "s3:DeleteObject" in Actions(Mutate) - Actions(Append)
  {
    var a, m := S3Policy(Known(Append)).value, S3Policy(Known(Mutate)).value;
    assert m[2] == "s3:DeleteObject";
    assert a[0][3] == 'L' && a[1][3] == 'G' && a[2][3] == 'G' && a[3][3] == 'A' && a[4][3] == 'P';
  }

  /** The actions a list of memberships grants: the union of their policies, or the error of the first unknown one. */
  function UnionActions(ms: seq<Arg<BucketPermission>>): (r: Result<set<string>, AwsError>)
    ensures r.Err? <==> exists k :: 0 <= k < |ms| && ms[k].Unknown?
  {
    if |ms| == 0 then Ok({})
    else
      var last := ms[|ms| - 1];
      assert forall k :: 0 <= k < |ms| - 1 ==> ms[..|ms| - 1][k] == ms[k];
      match (UnionActions(ms[..|ms| - 1]), S3Policy(last))
      case (Err(e), _) => Err(e)
      case (_, Err(e)) => Err(e)
      case (Ok(prior), Ok(p)) => Ok(prior + set a | a in p)
  }

  /** An action is granted exactly when one of the recorded memberships' policies lists it. */
  lemma {:induction false} UnionActionsMembers(ms: seq<Arg<BucketPermission>>)
    requires UnionActions(ms).Ok?
    ensures forall a :: a in UnionActions(ms).value <==> exists k :: 0 <= k < |ms| && ms[k].Known? && a in Actions(ms[k].value)
  {
    if |ms| > 0 {
      var n := |ms| - 1;
      var init := ms[..n];
      assert forall k :: 0 <= k < n ==> init[k] == ms[k];
      assert UnionActions(init).Ok?;
      UnionActionsMembers(init);
      assert ms[n].Known?;
      assert UnionActions(ms).value == UnionActions(init).value + Actions(ms[n].value);
    }
  }

  /** Recording one more known membership adds its actions. */
  lemma UnionActionsSnoc(ms: seq<Arg<BucketPermission>>, m: Arg<BucketPermission>)
    requires UnionActions(ms).Ok? && m.Known?
    ensures UnionActions(ms + [m]) == Ok(UnionActions(ms).value + Actions(m.value))
  {
    assert (ms + [m])[..|ms|] == ms;
    assert (ms + [m])[|ms|] == m;
  }

  lemma UnionActionsAbsorbs(ms: seq<Arg<BucketPermission>>, m: Arg<BucketPermission>, k: nat)
    requires UnionActions(ms).Ok? && m.Known?
    requires k < |ms| && ms[k].Known? && Actions(m.value) <= Actions(ms[k].value)
    ensures UnionActions(ms + [m]) == UnionActions(ms)
  {
    UnionActionsSnoc(ms, m);
    UnionActionsMembers(ms);
    var u := UnionActions(ms).value;
    assert Actions(ms[k].value) <= u;
    assert u + Actions(m.value) == u;
  }

  // ---------------------------------------------------------------------
  // Lifecycle rules and buckets

  datatype AwsRule = NoncurrentVersionExpiration(days: int) | Expiration(days: int, id: string)

  /** `bucket_rule_undelete` (aws.py:209-215). */
  function BucketRuleUndelete(days: int := UndeletePeriodInDays): (r: Option<AwsRule>)
    ensures r == Some(NoncurrentVersionExpiration(days))
  {
    Some(NoncurrentVersionExpiration(days))
  }

  /** `bucket_rule_temporary` as written (aws.py:217-225): the expiry is always the default period, whatever `days` says. */
  function BucketRuleTemporaryAsWritten(days: int := TmpBucketPeriodInDays): (r: Option<AwsRule>)
  {
    Some(Expiration(TmpBucketPeriodInDays, "tmp"))
  }

  /** The `days` argument is ignored: asking for a one-day rule still gives eight days. */
  lemma BucketRuleTemporaryIgnoresDays()
    ensures BucketRuleTemporaryAsWritten(1) != Some(Expiration(1, "tmp"))
    ensures forall d :: BucketRuleTemporaryAsWritten(d) == BucketRuleTemporaryAsWritten()
  {
  }

  /** `bucket_rule_temporary` as evidently intended: the expiry is the period asked for. */
  function BucketRuleTemporary(days: int := TmpBucketPeriodInDays): (r: Option<AwsRule>)
    ensures r == Some(Expiration(days, "tmp"))
  {
    Some(Expiration(days, "tmp"))
  }

  /** With the default period, which is what every caller in the driver uses, both agree. */
  lemma BucketRuleTemporaryAgreesOnDefault()
    ensures BucketRuleTemporary() == BucketRuleTemporaryAsWritten()
    ensures forall d :: BucketRuleTemporary(d) == BucketRuleTemporaryAsWritten(d) <==> d == TmpBucketPeriodInDays
  {
  }

  /** `bucket_rule_archive` (aws.py:227-228) returns `None`, so `create_bucket` drops it. */
  function BucketRuleArchive(days: int := ArchivePeriodInDays): (r: Option<AwsRule>)
    ensures r.None?
  {
    None
  }

  /** `[l for l in lifecycle_rules if l]`. */
  function TruthyRules(rules: seq<Option<AwsRule>>): (r: seq<AwsRule>)
    ensures |r| <= |rules|
    ensures forall x :: x in r <==> Some(x) in rules
  {
    if |rules| == 0 then []
    else (if rules[0].Some? then [rules[0].value] else []) + TruthyRules(rules[1..])
  }

  /** `'{prefix}{dataset}-{name}'` unless the name is already unique (aws.py:239-243). */
  function BucketName(prefix: string, dataset: string, name: string, unique: bool): (r: string)
    ensures unique ==> r == name
    ensures !unique ==> |r| == |prefix| + |dataset| + 1 + |name|
    ensures !unique ==> r[..|prefix| + |dataset|] == prefix + dataset && r[|prefix| + |dataset|..] == "-" + name
  {
    if unique then name else prefix + dataset + "-" + name
  }

  /** Different names of non-unique buckets give different bucket names. */
  lemma BucketNameInjective(prefix: string, dataset: string, a: string, b: string)
    requires a != b
    ensures BucketName(prefix, dataset, a, false) != BucketName(prefix, dataset, b, false)
  {
    var n := |prefix| + |dataset|;
    assert BucketName(prefix, dataset, a, false)[n..] == "-" + a;
    assert BucketName(prefix, dataset, b, false)[n..] == "-" + b;
    assert ("-" + a)[1..] == a && ("-" + b)[1..] == b;
  }

  /** `request_payer='Requester' if requester_pays else 'BucketOwner'`. */
  function RequestPayer(requesterPays: bool): (r: string)
    ensures r == "Requester" <==> requesterPays
  {
    if requesterPays then "Requester" else "BucketOwner"
  }

  /** `get_tags` (aws.py:145-146): the project if it is truthy, else the dataset. */
  function Tags(project: Option<string>, dataset: string): (r: seq<(string, string)>)
    ensures |r| == 1 && r[0].0 == "dataset"
    ensures r[0].1 == if project.Some? && project.value != "" then project.value else dataset
  {
    [("dataset", if project.Some? && project.value != "" then project.value else dataset)]
  }

  const ResourcePrefix: string := "aws-"

  datatype AwsResource =
    | Bucket(name: string, bucket: string, rules: seq<AwsRule>, requestPayer: string, tags: seq<(string, string)>)
    | Group(name: string, groupName: string, path: string)
    | User(name: string, path: string, userName: string, tags: seq<(string, string)>)
    | GroupMembership(name: string, group: string, users: seq<string>)

  // ---------------------------------------------------------------------
  // Group memberships

  type GroupTable = ODict<AwsObject, ODict<string, AwsObject>>

  predicate GroupTableOk(t: GroupTable)
  {
    WellFormed(t) && forall g :: g in t.values ==> WellFormed(t.values[g])
  }

  /** `self.group_memberships[group][resource_key] = member` on a `defaultdict(dict)` (aws.py:300-301). */
  function RecordGroupMember(t: GroupTable, group: AwsObject, key: string, member: AwsObject): (r: GroupTable)
    requires GroupTableOk(t)
    ensures GroupTableOk(r)
  {
    var inner: ODict<string, AwsObject> := GetOr(t, group, EmptyDict());
    Put(t, group, Put(inner, key, member))
  }

  /** The member recorded under (group, key), if any. */
  function RecordedMember(t: GroupTable, group: AwsObject, key: string): Option<AwsObject>
  {
    if group in t.values && key in t.values[group].values then Some(t.values[group].values[key]) else None
  }

  /** Recording stores the member under its (group, key), replacing what was there, and touches no other entry. */
  lemma RecordGroupMemberStores(t: GroupTable, group: AwsObject, key: string, member: AwsObject, g: AwsObject, k: string)
    requires GroupTableOk(t)
    ensures RecordedMember(RecordGroupMember(t, group, key, member), g, k) ==
      if g == group && k == key then Some(member) else RecordedMember(t, g, k)
  {
  }

  /** A repeated key overwrites: the second member recorded under it is the one that stays, in the first one's place. */
  lemma RecordGroupMemberOverwrites(t: GroupTable, group: AwsObject, key: string, m1: AwsObject, m2: AwsObject)
    requires GroupTableOk(t)
    ensures RecordGroupMember(RecordGroupMember(t, group, key, m1), group, key, m2) == RecordGroupMember(t, group, key, m2)
  {
    var inner: ODict<string, AwsObject> := GetOr(t, group, EmptyDict());
    PutOverwrites(inner, key, m1, m2);
    PutOverwrites(t, group, Put(inner, key, m1), Put(inner, key, m2));
  }

  /** The (group, key, member) entries in the order `finalise_group_memberships` visits them. */
  function GroupEntries(t: GroupTable, groups: seq<AwsObject>): (r: seq<(AwsObject, string, AwsObject)>)
    requires GroupTableOk(t) && forall i :: 0 <= i < |groups| ==> groups[i] in t.values
  {
    if |groups| == 0 then []
    else
      var g := groups[|groups| - 1];
      GroupEntries(t, groups[..|groups| - 1]) + MemberEntries(g, t.values[g], t.values[g].keys)
  }

  function MemberEntries(g: AwsObject, d: ODict<string, AwsObject>, keys: seq<string>): (r: seq<(AwsObject, string, AwsObject)>)
    requires forall j :: 0 <= j < |keys| ==> keys[j] in d.values
    ensures |r| == |keys|
    ensures forall j :: 0 <= j < |keys| ==> r[j] == (g, keys[j], d.values[keys[j]])
  {
    seq(|keys|, j requires 0 <= j < |keys| => (g, keys[j], d.values[keys[j]]))
  }

  /** One step of `finalise_group_memberships`: skip a nested group, else one membership of the user in the group. */
  function MembershipFor(e: (AwsObject, string, AwsObject)): (r: Result<seq<AwsResource>, AwsError>)
    ensures e.2.IamGroup? ==> r == Ok([])
    ensures e.2.IamUser? && Named(e.0) ==> r == Ok([GroupMembership(ResourcePrefix + e.1, e.0.name, [e.2.name])])
    ensures r.Err? <==> !e.2.IamGroup? && !(e.2.IamUser? && Named(e.0))
  {
    var (group, key, member) := e;
    if member.IamGroup? then Ok([])
    else
      match (NameAttr(group), NameAttr(member))
      case (Ok(g), Ok(m)) => Ok([GroupMembership(ResourcePrefix + key, g, [m])])
      case _ => Err(AttributeError)
  }

  /**
   * The resources the entries give, in order, with the error that stops the
   * walk; a raise keeps whatever was declared before it.
   */
  function MembershipsFor(es: seq<(AwsObject, string, AwsObject)>): (r: (seq<AwsResource>, Option<AwsError>))
    ensures r.1.Some? ==> r.1.value == AttributeError
  {
    if |es| == 0 then ([], None)
    else
      var (prior, err) := MembershipsFor(es[..|es| - 1]);
      if err.Some? then (prior, err)
      else
        match MembershipFor(es[|es| - 1])
        case Err(e) => (prior, Some(e))
        case Ok(rs) => (prior + rs, None)
  }

  /** The walk completes exactly when no entry raises. */
  lemma {:induction false} MembershipsForCompletes(es: seq<(AwsObject, string, AwsObject)>)
    ensures MembershipsFor(es).1.None? <==> forall k :: 0 <= k < |es| ==> MembershipFor(es[k]).Ok?
  {
    if |es| > 0 {
      var n := |es| - 1;
      var init := es[..n];
      assert forall k :: 0 <= k < n ==> init[k] == es[k];
      MembershipsForCompletes(init);
    }
  }

  /** How many entries name a member that is not a group. */
  function NonGroupCount(es: seq<(AwsObject, string, AwsObject)>): nat
  {
    if |es| == 0 then 0 else NonGroupCount(es[..|es| - 1]) + (if es[|es| - 1].2.IamGroup? then 0 else 1)
  }

  /** Visiting one more entry: nothing after a raise, else that entry's resources or its raise. */
  lemma MembershipsForStep(es: seq<(AwsObject, string, AwsObject)>, e: (AwsObject, string, AwsObject))
    ensures MembershipsFor(es).1.Some? ==> MembershipsFor(es + [e]) == MembershipsFor(es)
    ensures MembershipsFor(es).1.None? && MembershipFor(e).Ok? ==> MembershipsFor(es + [e]) == (MembershipsFor(es).0 + MembershipFor(e).value, None)
    ensures MembershipsFor(es).1.None? && MembershipFor(e).Err? ==> MembershipsFor(es + [e]) == (MembershipsFor(es).0, Some(AttributeError))
  {
    assert (es + [e])[..|es|] == es;
    assert (es + [e])[|es|] == e;
  }

  /** One pass of the inner loop of `finalise_group_memberships`, on the `j`th entry of a group. */
  lemma VisitMember(done: seq<(AwsObject, string, AwsObject)>, all: seq<(AwsObject, string, AwsObject)>, j: nat)
    requires j < |all| && MembershipsFor(done + all[..j]).1.None?
    ensures var (group, key, member) := all[j];
      && (member.IamGroup? ==> MembershipsFor(done + all[..j + 1]) == MembershipsFor(done + all[..j]))
      && (!member.IamGroup? && Named(group) && member.IamUser? ==>
            MembershipsFor(done + all[..j + 1]) == (MembershipsFor(done + all[..j]).0 + [GroupMembership(ResourcePrefix + key, group.name, [member.name])], None))
      && (!member.IamGroup? && !(Named(group) && member.IamUser?) ==>
            MembershipsFor(done + all) == (MembershipsFor(done + all[..j]).0, Some(AttributeError)))
  {
    assert done + all[..j + 1] == (done + all[..j]) + [all[j]];
    MembershipsForStep(done + all[..j], all[j]);
    var prior := MembershipsFor(done + all[..j]).0;
    if all[j].2.IamGroup? {
      assert prior + [] == prior;
    }
    if !all[j].2.IamGroup? && !(Named(all[j].0) && all[j].2.IamUser?) {
      assert done + all == (done + all[..j + 1]) + all[j + 1..];
      MembershipsForStops(done + all[..j + 1], all[j + 1..]);
    }
  }

  /** Without an error, the last entry's resources follow the earlier entries'. */
  lemma MembershipsForSnoc(es: seq<(AwsObject, string, AwsObject)>)
    requires |es| > 0 && MembershipsFor(es).1.None?
    ensures MembershipsFor(es[..|es| - 1]).1.None? && MembershipFor(es[|es| - 1]).Ok?
    ensures MembershipsFor(es).0 == MembershipsFor(es[..|es| - 1]).0 + MembershipFor(es[|es| - 1]).value
  {
  }

  /** Without an error, there is one membership per entry whose member is not a group. */
  lemma {:induction false} MembershipsForCount(es: seq<(AwsObject, string, AwsObject)>)
    requires MembershipsFor(es).1.None?
    ensures |MembershipsFor(es).0| == NonGroupCount(es)
  {
    if |es| > 0 {
      MembershipsForSnoc(es);
      MembershipsForCount(es[..|es| - 1]);
    }
  }

  /** Every membership made puts one recorded user, under its recorded key, in its recorded group. */
  lemma {:induction false} MembershipsForShape(es: seq<(AwsObject, string, AwsObject)>)
    requires MembershipsFor(es).1.None?
    ensures forall x :: x in MembershipsFor(es).0 ==>
      (x.GroupMembership? && |x.users| == 1 &&
       exists k :: 0 <= k < |es| && es[k].2.IamUser? && Named(es[k].0) &&
         es[k].2.name == x.users[0] && es[k].0.name == x.group && x.name == ResourcePrefix + es[k].1)
  {
    if |es| > 0 {
      var n := |es| - 1;
      var init := es[..n];
      MembershipsForSnoc(es);
      MembershipsForShape(init);
      assert forall k :: 0 <= k < n ==> init[k] == es[k];
    }
  }

  /** Once an entry raises, later entries are never visited. */
  lemma {:induction false} MembershipsForStops(es: seq<(AwsObject, string, AwsObject)>, rest: seq<(AwsObject, string, AwsObject)>)
    requires MembershipsFor(es).1.Some?
    ensures MembershipsFor(es + rest) == MembershipsFor(es)
    decreases |rest|
  {
    if |rest| > 0 {
      var n := |rest| - 1;
      assert (es + rest)[..|es + rest| - 1] == es + rest[..n];
      MembershipsForStops(es, rest[..n]);
    } else {
      assert es + rest == es;
    }
  }

  /** A group's own (group, key, member) entries, in key order. */
  function GroupOwnEntries(t: GroupTable, g: AwsObject): seq<(AwsObject, string, AwsObject)>
  {
    if g in t.values && WellFormed(t.values[g]) then MemberEntries(g, t.values[g], t.values[g].keys) else []
  }

  /** The walk's entries are every group's own entries back to back. */
  lemma {:induction false} GroupEntriesConcat(t: GroupTable, groups: seq<AwsObject>)
    requires GroupTableOk(t) && forall i :: 0 <= i < |groups| ==> groups[i] in t.values
    ensures GroupEntries(t, groups) == ConcatWith(groups, g => GroupOwnEntries(t, g))
    decreases |groups|
  {
    if |groups| > 0 {
      var n := |groups| - 1;
      var init := groups[..n];
      assert forall k :: 0 <= k < |init| ==> init[k] in t.values by {
        assert forall k :: 0 <= k < |init| ==> init[k] == groups[k];
      }
      GroupEntriesConcat(t, init);
    }
  }

  /** The entries of the first `m` groups come first. */
  lemma GroupEntriesPrefix(t: GroupTable, groups: seq<AwsObject>, m: nat)
    requires GroupTableOk(t) && forall i :: 0 <= i < |groups| ==> groups[i] in t.values
    requires m <= |groups|
    ensures exists rest :: GroupEntries(t, groups) == GroupEntries(t, groups[..m]) + rest
  {
    var pre := groups[..m];
    assert forall k :: 0 <= k < |pre| ==> pre[k] in t.values by {
      assert forall k :: 0 <= k < |pre| ==> pre[k] == groups[k];
    }
    GroupEntriesConcat(t, groups);
    GroupEntriesConcat(t, pre);
    ConcatWithSplit(groups, g => GroupOwnEntries(t, g), m);
  }

  lemma Regroup<T>(a: seq<T>, b: seq<T>, c: seq<T>, d: seq<T>)
    ensures a + (b + c) + d == (a + b) + (c + d)
  {
  }

  /** A raise while visiting group `i` ends the whole walk with what was made before it. */
  lemma StopsInGroup(t: GroupTable, groups: seq<AwsObject>, i: nat, visited: seq<(AwsObject, string, AwsObject)>)
    requires GroupTableOk(t) && forall k :: 0 <= k < |groups| ==> groups[k] in t.values
    requires i < |groups| && visited == GroupEntries(t, groups[..i + 1])
    requires MembershipsFor(visited).1.Some?
    ensures MembershipsFor(GroupEntries(t, groups)) == MembershipsFor(visited)
  {
    GroupEntriesPrefix(t, groups, i + 1);
    var rest :| GroupEntries(t, groups) == GroupEntries(t, groups[..i + 1]) + rest;
    MembershipsForStops(visited, rest);
  }

  // ---------------------------------------------------------------------
  // Bucket memberships

  type BucketTable = ODict<AwsObject, ODict<AwsObject, seq<Arg<BucketPermission>>>>

  predicate BucketTableOk(t: BucketTable)
  {
    WellFormed(t) &&
    (forall e :: e in t.values ==> WellFormed(t.values[e])) &&
    (forall e, b :: e in t.values && b in t.values[e].values ==> |t.values[e].values[b]| > 0)
  }

  /** `self.iam_bucket_memberships[member][bucket].append(membership)` (aws.py:259-262). */
  function RecordBucketMember(t: BucketTable, bucket: AwsObject, member: AwsObject, m: Arg<BucketPermission>): (r: BucketTable)
    requires BucketTableOk(t)
    ensures BucketTableOk(r)
  {
    var inner: ODict<AwsObject, seq<Arg<BucketPermission>>> := GetOr(t, member, EmptyDict());
    Put(t, member, Put(inner, bucket, GetOr(inner, bucket, []) + [m]))
  }

  /** The memberships recorded for (member, bucket), oldest first. */
  function RecordedMemberships(t: BucketTable, member: AwsObject, bucket: AwsObject): seq<Arg<BucketPermission>>
  {
    if member in t.values && bucket in t.values[member].values then t.values[member].values[bucket] else []
  }

  /** Recording appends to the (member, bucket) list, keeping duplicates and order, and leaves every other list alone. */
  lemma RecordBucketMemberAppends(t: BucketTable, bucket: AwsObject, member: AwsObject, m: Arg<BucketPermission>, e: AwsObject, b: AwsObject)
    requires BucketTableOk(t)
    ensures RecordedMemberships(RecordBucketMember(t, bucket, member, m), e, b) ==
      if e == member && b == bucket then RecordedMemberships(t, e, b) + [m] else RecordedMemberships(t, e, b)
  {
  }

  /** A policy statement: the actions, on the bucket's ARN and every object under it. */
  datatype Statement = Statement(actions: set<string>, bucket: AwsObject)

  /** The statements for one entity's buckets, in order (aws.py:118-129). */
  function EntityStatements(d: ODict<AwsObject, seq<Arg<BucketPermission>>>, buckets: seq<AwsObject>): (r: Result<seq<Statement>, AwsError>)
    requires forall j :: 0 <= j < |buckets| ==> buckets[j] in d.values
    ensures r.Ok? ==> |r.value| == |buckets|
  {
    if |buckets| == 0 then Ok([])
    else
      var n := |buckets| - 1;
      match (EntityStatements(d, buckets[..n]), UnionActions(d.values[buckets[n]]))
      case (Err(e), _) => Err(e)
      case (_, Err(e)) => Err(e)
      case (Ok(prior), Ok(acts)) => Ok(prior + [Statement(acts, buckets[n])])
  }

  /** One statement per bucket, with the union of the actions recorded for it; an unknown membership anywhere raises. */
  lemma {:induction false} EntityStatementsAt(d: ODict<AwsObject, seq<Arg<BucketPermission>>>, buckets: seq<AwsObject>)
    requires forall j :: 0 <= j < |buckets| ==> buckets[j] in d.values
    ensures EntityStatements(d, buckets).Ok? ==> forall j :: 0 <= j < |buckets| ==>
      UnionActions(d.values[buckets[j]]).Ok? && EntityStatements(d, buckets).value[j] == Statement(UnionActions(d.values[buckets[j]]).value, buckets[j])
    ensures EntityStatements(d, buckets).Err? <==> exists j :: 0 <= j < |buckets| && UnionActions(d.values[buckets[j]]).Err?
    decreases |buckets|
  {
    if |buckets| > 0 {
      var n := |buckets| - 1;
      var init := buckets[..n];
      assert forall j :: 0 <= j < n ==> init[j] == buckets[j];
      EntityStatementsAt(d, init);
    }
  }

  /** All entities' statements back to back: what the as-written `statements` list holds after the entities given. */
  function AllStatements(t: BucketTable, entities: seq<AwsObject>): (r: Result<seq<Statement>, AwsError>)
    requires BucketTableOk(t) && forall i :: 0 <= i < |entities| ==> entities[i] in t.values
  {
    if |entities| == 0 then Ok([])
    else
      var n := |entities| - 1;
      var d := t.values[entities[n]];
      match (AllStatements(t, entities[..n]), EntityStatements(d, d.keys))
      case (Err(e), _) => Err(e)
      case (_, Err(e)) => Err(e)
      case (Ok(prior), Ok(st)) => Ok(prior + st)
  }

  /**
   * `finalise_bucket_memberships` as written (aws.py:110-131): `statements`
   * is made once, before the loop over entities, so the policy built for an
   * entity holds the statements of every entity before it as well.
   */
  function PoliciesAsWritten(t: BucketTable, entities: seq<AwsObject>): (r: Result<seq<seq<Statement>>, AwsError>)
    requires BucketTableOk(t) && forall i :: 0 <= i < |entities| ==> entities[i] in t.values
    ensures r.Ok? ==> |r.value| == |entities| && AllStatements(t, entities).Ok?
    ensures r.Ok? && |entities| > 0 ==> r.value[|entities| - 1] == AllStatements(t, entities).value
  {
    if |entities| == 0 then Ok([])
    else
      var n := |entities| - 1;
      match (PoliciesAsWritten(t, entities[..n]), AllStatements(t, entities))
      case (Err(e), _) => Err(e)
      case (_, Err(e)) => Err(e)
      case (Ok(prior), Ok(all)) => Ok(prior + [all])
  }

  /**
   * `finalise_bucket_memberships` as evidently intended: each entity's
   * policy document holds the statements for its own buckets only.
   */
  function Policies(t: BucketTable, entities: seq<AwsObject>): (r: Result<seq<seq<Statement>>, AwsError>)
    requires BucketTableOk(t) && forall i :: 0 <= i < |entities| ==> entities[i] in t.values
    ensures r.Ok? ==> |r.value| == |entities|
  {
    if |entities| == 0 then Ok([])
    else
      var n := |entities| - 1;
      var d := t.values[entities[n]];
      match (Policies(t, entities[..n]), EntityStatements(d, d.keys))
      case (Err(e), _) => Err(e)
      case (_, Err(e)) => Err(e)
      case (Ok(prior), Ok(st)) => Ok(prior + [st])
  }

  /** An entity's own statements, as `finalise` would build them for it alone. */
  function EntityResult(t: BucketTable, e: AwsObject): Result<seq<Statement>, AwsError>
  {
    if e in t.values && WellFormed(t.values[e]) then
      var d := t.values[e];
      EntityStatements(d, d.keys)
    else Ok([])
  }

  /** `f` applied to each element in order; the first raise is the result. */
  function MapResults<T, U, E>(xs: seq<T>, f: T -> Result<U, E>): Result<seq<U>, E>
  {
    if |xs| == 0 then Ok([])
    else
      match (MapResults(xs[..|xs| - 1], f), f(xs[|xs| - 1]))
      case (Err(e), _) => Err(e)
      case (_, Err(e)) => Err(e)
      case (Ok(prior), Ok(v)) => Ok(prior + [v])
  }

  lemma {:induction false} MapResultsAt<T, U, E>(xs: seq<T>, f: T -> Result<U, E>, i: nat)
    requires MapResults(xs, f).Ok? && i < |xs|
    ensures f(xs[i]).Ok? && |MapResults(xs, f).value| == |xs| && MapResults(xs, f).value[i] == f(xs[i]).value
    decreases |xs|
  {
    var n := |xs| - 1;
    if i < n {
      assert xs[..n][i] == xs[i];
      MapResultsAt(xs[..n], f, i);
    } else if n > 0 {
      MapResultsAt(xs[..n], f, 0);
    }
  }

  /** The intended finalise is the entities' own statements in order, raising at the first entity that raises. */
  lemma {:induction false} PoliciesMap(t: BucketTable, es: seq<AwsObject>)
    requires BucketTableOk(t) && forall k :: 0 <= k < |es| ==> es[k] in t.values
    ensures Policies(t, es) == MapResults(es, e => EntityResult(t, e))
    decreases |es|
  {
    if |es| > 0 {
      var n := |es| - 1;
      var init := es[..n];
      assert forall k :: 0 <= k < |init| ==> init[k] in t.values by {
        assert forall k :: 0 <= k < |init| ==> init[k] == es[k];
      }
      PoliciesMap(t, init);
    }
  }

  /** The intended policy of each entity is the statements of its own buckets. */
  lemma PoliciesAt(t: BucketTable, entities: seq<AwsObject>, i: nat)
    requires BucketTableOk(t) && forall i :: 0 <= i < |entities| ==> entities[i] in t.values
    requires Policies(t, entities).Ok? && i < |entities|
    ensures var d := t.values[entities[i]];
      EntityStatements(d, d.keys).Ok? && Policies(t, entities).value[i] == EntityStatements(d, d.keys).value
  {
    PoliciesMap(t, entities);
    MapResultsAt(entities, e => EntityResult(t, e), i);
    assert EntityResult(t, entities[i]) == EntityStatements(t.values[entities[i]], t.values[entities[i]].keys);
  }

  /** Every statement in an entity's intended policy is on a bucket it was granted, with exactly the actions its memberships there grant. */
  lemma PoliciesOwnGrants(t: BucketTable, entities: seq<AwsObject>, i: nat, s: Statement)
    requires BucketTableOk(t) && forall i :: 0 <= i < |entities| ==> entities[i] in t.values
    requires Policies(t, entities).Ok? && i < |entities| && s in Policies(t, entities).value[i]
    ensures |RecordedMemberships(t, entities[i], s.bucket)| > 0
    ensures UnionActions(RecordedMemberships(t, entities[i], s.bucket)) == Ok(s.actions)
  {
    PoliciesAt(t, entities, i);
    var d := t.values[entities[i]];
    EntityStatementsAt(d, d.keys);
    var st := EntityStatements(d, d.keys).value;
    var j :| 0 <= j < |st| && st[j] == s;
    assert s.bucket == d.keys[j];
    assert RecordedMemberships(t, entities[i], s.bucket) == d.values[d.keys[j]];
  }

  lemma AllStatementsSnoc(t: BucketTable, es: seq<AwsObject>)
    requires BucketTableOk(t) && forall k :: 0 <= k < |es| ==> es[k] in t.values
    requires AllStatements(t, es).Ok? && |es| > 0
    ensures var dn := t.values[es[|es| - 1]];
      AllStatements(t, es[..|es| - 1]).Ok? && EntityStatements(dn, dn.keys).Ok? &&
      AllStatements(t, es).value == AllStatements(t, es[..|es| - 1]).value + EntityStatements(dn, dn.keys).value
  {
  }

  /** The statements an entity's own buckets contribute, or none when they raise. */
  function OwnStatements(t: BucketTable, e: AwsObject): seq<Statement>
  {
    match EntityResult(t, e)
    case Ok(st) => st
    case Err(_) => []
  }

  /** `f` applied to each element, the results back to back. */
  function ConcatWith<T, U>(xs: seq<T>, f: T -> seq<U>): seq<U>
  {
    if |xs| == 0 then [] else ConcatWith(xs[..|xs| - 1], f) + f(xs[|xs| - 1])
  }

  lemma {:induction false} ConcatWithSplit<T, U>(xs: seq<T>, f: T -> seq<U>, m: nat)
    requires m <= |xs|
    ensures ConcatWith(xs, f) == ConcatWith(xs[..m], f) + ConcatWith(xs[m..], f)
    decreases |xs|
  {
    if m == |xs| {
      assert xs[..m] == xs;
      assert xs[m..] == [];
    } else {
      var n := |xs| - 1;
      assert xs[..n][..m] == xs[..m];
      assert xs[m..][..|xs[m..]| - 1] == xs[..n][m..];
      assert xs[m..][|xs[m..]| - 1] == xs[n];
      ConcatWithSplit(xs[..n], f, m);
    }
  }

  lemma {:induction false} ConcatWithContains<T, U>(xs: seq<T>, f: T -> seq<U>, i: nat, s: U)
    requires i < |xs| && s in f(xs[i])
    ensures s in ConcatWith(xs, f)
    decreases |xs|
  {
    var n := |xs| - 1;
    if i < n {
      assert xs[..n][i] == xs[i];
      ConcatWithContains(xs[..n], f, i, s);
    }
  }

  /** When nothing raises, the as-written list is every entity's own statements back to back. */
  lemma {:induction false} AllStatementsConcat(t: BucketTable, es: seq<AwsObject>)
    requires BucketTableOk(t) && forall k :: 0 <= k < |es| ==> es[k] in t.values
    requires AllStatements(t, es).Ok?
    ensures AllStatements(t, es).value == ConcatWith(es, e => OwnStatements(t, e))
    decreases |es|
  {
    if |es| > 0 {
      var n := |es| - 1;
      var init := es[..n];
      assert forall k :: 0 <= k < |init| ==> init[k] in t.values by {
        assert forall k :: 0 <= k < |init| ==> init[k] == es[k];
      }
      AllStatementsSnoc(t, es);
      AllStatementsConcat(t, init);
    }
  }

  /** The statements of every entity up to `es`'s end include each one's own. */
  lemma AllStatementsContains(t: BucketTable, es: seq<AwsObject>, i: nat, s: Statement)
    requires BucketTableOk(t) && forall k :: 0 <= k < |es| ==> es[k] in t.values
    requires AllStatements(t, es).Ok? && i < |es|
    requires EntityStatements(t.values[es[i]], t.values[es[i]].keys).Ok?
    requires s in EntityStatements(t.values[es[i]], t.values[es[i]].keys).value
    ensures s in AllStatements(t, es).value
  {
    AllStatementsConcat(t, es);
    assert s in OwnStatements(t, es[i]);
    ConcatWithContains(es, e => OwnStatements(t, e), i, s);
  }

  /** As written, the policy built for the entity at `j` holds the statements of the entities up to and including it. */
  lemma {:induction false} PoliciesAsWrittenAt(t: BucketTable, es: seq<AwsObject>, j: nat)
    requires BucketTableOk(t) && forall k :: 0 <= k < |es| ==> es[k] in t.values
    requires PoliciesAsWritten(t, es).Ok? && j < |es|
    ensures AllStatements(t, es[..j + 1]).Ok? && PoliciesAsWritten(t, es).value[j] == AllStatements(t, es[..j + 1]).value
    decreases |es|
  {
    var n := |es| - 1;
    if j == n {
      assert es[..j + 1] == es;
    } else {
      var init := es[..n];
      assert init[..j + 1] == es[..j + 1];
      PoliciesAsWrittenAt(t, init, j);
    }
  }

  /**
   * The as-written finalise leaks grants between entities: a statement for
   * an entity recorded earlier appears in the policy of every entity recorded
   * later, even one that holds nothing on that bucket, whose intended
   * policy does not have it.
   */
  lemma PoliciesAsWrittenLeak(t: BucketTable, es: seq<AwsObject>, i: nat, j: nat, s: Statement)
    requires BucketTableOk(t) && forall k :: 0 <= k < |es| ==> es[k] in t.values
    requires PoliciesAsWritten(t, es).Ok? && Policies(t, es).Ok? && i < j < |es|
    requires s in Policies(t, es).value[i] && RecordedMemberships(t, es[j], s.bucket) == []
    ensures s in PoliciesAsWritten(t, es).value[j]
    ensures s !in Policies(t, es).value[j]
  {
    PoliciesAt(t, es, i);
    PoliciesAsWrittenAt(t, es, j);
    var prefix := es[..j + 1];
    assert prefix[i] == es[i];
    AllStatementsContains(t, prefix, i, s);
    if s in Policies(t, es).value[j] {
      PoliciesOwnGrants(t, es, j, s);
    }
  }

  /** A raise among the first `m` buckets is a raise for the whole entity. */
  lemma EntityStatementsErrPrefix(d: ODict<AwsObject, seq<Arg<BucketPermission>>>, buckets: seq<AwsObject>, m: nat)
    requires forall j :: 0 <= j < |buckets| ==> buckets[j] in d.values
    requires m <= |buckets| && EntityStatements(d, buckets[..m]).Err?
    ensures EntityStatements(d, buckets).Err?
  {
    EntityStatementsAt(d, buckets[..m]);
    var j :| 0 <= j < m && UnionActions(d.values[buckets[..m][j]]).Err?;
    assert buckets[..m][j] == buckets[j];
    EntityStatementsAt(d, buckets);
  }

  lemma EntityStatementsStep(d: ODict<AwsObject, seq<Arg<BucketPermission>>>, buckets: seq<AwsObject>, j: nat)
    requires forall k :: 0 <= k < |buckets| ==> buckets[k] in d.values
    requires j < |buckets| && EntityStatements(d, buckets[..j]).Ok?
    ensures var u := UnionActions(d.values[buckets[j]]);
      && (u.Ok? ==> EntityStatements(d, buckets[..j + 1]) == Ok(EntityStatements(d, buckets[..j]).value + [Statement(u.value, buckets[j])]))
      && (u.Err? ==> EntityStatements(d, buckets[..j + 1]).Err?)
  {
    assert buckets[..j + 1][..j] == buckets[..j];
  }

  lemma PoliciesStep(t: BucketTable, es: seq<AwsObject>, i: nat)
    requires BucketTableOk(t) && forall k :: 0 <= k < |es| ==> es[k] in t.values
    requires i < |es|
    ensures var d := t.values[es[i]];
      && (Policies(t, es[..i]).Err? ==> Policies(t, es[..i + 1]).Err?)
      && (Policies(t, es[..i]).Ok? && EntityStatements(d, d.keys).Ok? ==>
            Policies(t, es[..i + 1]) == Ok(Policies(t, es[..i]).value + [EntityStatements(d, d.keys).value]))
      && (EntityStatements(d, d.keys).Err? ==> Policies(t, es[..i + 1]).Err?)
  {
    assert es[..i + 1][..i] == es[..i];
    assert es[..i + 1][i] == es[i];
  }

  /** A raise among the first `m` entities is a raise for the whole finalise. */
  lemma PoliciesErrPrefix(t: BucketTable, es: seq<AwsObject>, m: nat)
    requires BucketTableOk(t) && forall k :: 0 <= k < |es| ==> es[k] in t.values
    requires m <= |es| && Policies(t, es[..m]).Err?
    ensures Policies(t, es).Err?
  {
    var pre := es[..m];
    assert forall k :: 0 <= k < |pre| ==> pre[k] in t.values by {
      assert forall k :: 0 <= k < |pre| ==> pre[k] == es[k];
    }
    PoliciesMap(t, pre);
    PoliciesMap(t, es);
    MapResultsErrPrefix(es, e => EntityResult(t, e), m);
  }

  lemma {:induction false} MapResultsErrPrefix<T, U, E>(xs: seq<T>, f: T -> Result<U, E>, m: nat)
    requires m <= |xs| && MapResults(xs[..m], f).Err?
    ensures MapResults(xs, f).Err?
    decreases |xs|
  {
    if m == |xs| {
      assert xs[..m] == xs;
    } else {
      var n := |xs| - 1;
      assert xs[..n][..m] == xs[..m];
      MapResultsErrPrefix(xs[..n], f, m);
    }
  }

  /**
   * `AWSInfra`: the two membership tables the driver fills as it runs, the
   * names given to created entities (kept for policy naming), and the
   * resources declared so far.
   */
  class AwsInfra {
    const prefix: string
    const dataset: string
    var groupMemberships: GroupTable
    var bucketMemberships: BucketTable
    var entityNames: map<AwsObject, string>
    var resources: seq<AwsResource>

    predicate Valid()
      reads this
    {
      GroupTableOk(groupMemberships) && BucketTableOk(bucketMemberships)
    }

    /** `__init__` (aws.py:31-36): both tables empty. */
    constructor (prefix: string, dataset: string)
      ensures this.prefix == prefix && this.dataset == dataset
      ensures groupMemberships == EmptyDict() && bucketMemberships == EmptyDict()
      ensures entityNames == map[] && resources == []
      ensures Valid()
    {
      this.prefix := prefix;
      this.dataset := dataset;
      groupMemberships := EmptyDict();
      bucketMemberships := EmptyDict();
      entityNames := map[];
      resources := [];
    }

    /** `create_bucket` (aws.py:230-257). Versioning changes nothing on AWS. */
    method CreateBucket(name: string, rules: seq<Option<AwsRule>>, unique: bool := false, requesterPays: bool := false,
                        versioning: bool := true, project: Option<string> := None)
      returns (bucket: AwsObject)
      modifies this
      ensures bucket == S3Bucket(BucketName(prefix, dataset, name, unique))
      ensures resources == old(resources) + [Bucket(ResourcePrefix + bucket.bucket, bucket.bucket, TruthyRules(rules), RequestPayer(requesterPays), Tags(project, dataset))]
      ensures entityNames == old(entityNames)[bucket := bucket.bucket]
      ensures groupMemberships == old(groupMemberships) && bucketMemberships == old(bucketMemberships)
    {
      var bucketName := name;
      if !unique {
        bucketName := prefix + dataset + "-" + name;
      }
      var kept := TruthyRules(rules);
      resources := resources + [Bucket(ResourcePrefix + bucketName, bucketName, kept, RequestPayer(requesterPays), Tags(project, dataset))];
      bucket := S3Bucket(bucketName);
      entityNames := entityNames[bucket := bucketName];
    }

    /** `create_group` (aws.py:291-298). */
    method CreateGroup(name: string) returns (group: AwsObject)
      modifies this
      ensures group == IamGroup(prefix + name)
      ensures resources == old(resources) + [Group(ResourcePrefix + "group-" + name, prefix + name, "/users/")]
      ensures entityNames == old(entityNames)[group := name]
      ensures groupMemberships == old(groupMemberships) && bucketMemberships == old(bucketMemberships)
    {
      resources := resources + [Group(ResourcePrefix + "group-" + name, prefix + name, "/users/")];
      group := IamGroup(prefix + name);
      entityNames := entityNames[group := name];
    }

    /** `create_machine_account` (aws.py:269-279): an IAM user named after the dataset; its id is the resource name. */
    method CreateMachineAccount(name: string, project: Option<string> := None) returns (account: AwsObject)
      modifies this
      ensures account == IamUser(ResourcePrefix + "machine-account-" + name, dataset + "-" + name)
      ensures resources == old(resources) + [User(ResourcePrefix + "machine-account-" + name, "/system/", dataset + "-" + name,
                                                  Tags(if project.Some? && project.value != "" then project else Some(dataset), dataset))]
      ensures entityNames == old(entityNames)[account := name]
      ensures groupMemberships == old(groupMemberships) && bucketMemberships == old(bucketMemberships)
    {
      var tagProject := if project.Some? && project.value != "" then project else Some(dataset);
      resources := resources + [User(ResourcePrefix + "machine-account-" + name, "/system/", dataset + "-" + name, Tags(tagProject, dataset))];
      account := IamUser(ResourcePrefix + "machine-account-" + name, dataset + "-" + name);
      entityNames := entityNames[account := name];
    }

    /** `add_member_to_bucket` (aws.py:259-262): only recorded; the grant is made by `finalise`. */
    method AddMemberToBucket(key: string, bucket: AwsObject, member: AwsObject, m: Arg<BucketPermission>)
      requires Valid()
      modifies this
      ensures Valid()
      ensures bucketMemberships == RecordBucketMember(old(bucketMemberships), bucket, member, m)
      ensures groupMemberships == old(groupMemberships) && resources == old(resources) && entityNames == old(entityNames)
    {
      ghost var recorded := RecordBucketMember(bucketMemberships, bucket, member, m);
      var inner: ODict<AwsObject, seq<Arg<BucketPermission>>> := GetOr(bucketMemberships, member, EmptyDict());
      var list := GetOr(inner, bucket, []);
      bucketMemberships := Put(bucketMemberships, member, Put(inner, bucket, list + [m]));
      assert bucketMemberships == recorded;
    }

    /** `add_group_member` (aws.py:300-301): only recorded; the membership is made by `finalise`. */
    method AddGroupMember(key: string, group: AwsObject, member: AwsObject)
      requires Valid()
      modifies this
      ensures Valid()
      ensures groupMemberships == RecordGroupMember(old(groupMemberships), group, key, member)
      ensures bucketMemberships == old(bucketMemberships) && resources == old(resources) && entityNames == old(entityNames)
    {
      var inner: ODict<string, AwsObject> := GetOr(groupMemberships, group, EmptyDict());
      groupMemberships := Put(groupMemberships, group, Put(inner, key, member));
    }

    /** `finalise_group_memberships` (aws.py:69-81): one membership per recorded user, visiting groups and keys in insertion order. */
    method FinaliseGroupMemberships() returns (err: Option<AwsError>)
      requires Valid()
      modifies this
      ensures Valid()
      ensures var (made, e) := MembershipsFor(GroupEntries(groupMemberships, groupMemberships.keys));
        err == e && resources == old(resources) + made
      ensures groupMemberships == old(groupMemberships) && bucketMemberships == old(bucketMemberships) && entityNames == old(entityNames)
    {
      var groups := groupMemberships.keys;
      ghost var done: seq<(AwsObject, string, AwsObject)> := [];
      var i := 0;
      while i < |groups|
        invariant 0 <= i <= |groups|
        invariant GroupTableOk(groupMemberships) && groups == groupMemberships.keys
        invariant done == GroupEntries(groupMemberships, groups[..i])
        invariant MembershipsFor(done).1.None? && resources == old(resources) + MembershipsFor(done).0
        invariant groupMemberships == old(groupMemberships) && bucketMemberships == old(bucketMemberships) && entityNames == old(entityNames)
      {
        var group := groups[i];
        var members := groupMemberships.values[group];
        assert groups[..i + 1][..i] == groups[..i];
        ghost var all := MemberEntries(group, members, members.keys);
        assert done + all == GroupEntries(groupMemberships, groups[..i + 1]);
        err := FinaliseGroup(group, members, done, old(resources));
        if err.Some? {
          StopsInGroup(groupMemberships, groups, i, done + all);
          return;
        }
        done := done + all;
        i := i + 1;
      }
      assert groups[..i] == groups;
      err := None;
    }

    /** The inner loop of `finalise_group_memberships`: the members recorded for one group, in key order. */
    method FinaliseGroup(group: AwsObject, members: ODict<string, AwsObject>, ghost done: seq<(AwsObject, string, AwsObject)>, ghost base: seq<AwsResource>)
      returns (err: Option<AwsError>)
      requires WellFormed(members)
      requires MembershipsFor(done).1.None? && resources == base + MembershipsFor(done).0
      modifies this
      ensures var (made, e) := MembershipsFor(done + MemberEntries(group, members, members.keys));
        err == e && resources == base + made
      ensures groupMemberships == old(groupMemberships) && bucketMemberships == old(bucketMemberships) && entityNames == old(entityNames)
    {
      ghost var all := MemberEntries(group, members, members.keys);
      assert all[..0] == [] && done + all[..0] == done;
      var j := 0;
      while j < |members.keys|
        invariant 0 <= j <= |members.keys|
        invariant MembershipsFor(done + all[..j]).1.None? && resources == base + MembershipsFor(done + all[..j]).0
        invariant groupMemberships == old(groupMemberships) && bucketMemberships == old(bucketMemberships) && entityNames == old(entityNames)
      {
        var key := members.keys[j];
        var member := members.values[key];
        VisitMember(done, all, j);
        if member.IamGroup? {
          // IAM groups cannot contain groups
        } else if Named(group) && member.IamUser? {
          resources := resources + [GroupMembership(ResourcePrefix + key, group.name, [member.name])];
        } else {
          return Some(AttributeError);
        }
        j := j + 1;
      }
      assert all[..j] == all;
      err := None;
    }

    /**
     * `finalise_bucket_memberships` (aws.py:110-131), with `statements` made
     * afresh for each entity as evidently intended: the policy documents,
     * one per entity in insertion order. The documents are data-source reads,
     * so nothing is declared.
     */
    method FinaliseBucketMemberships() returns (err: Option<AwsError>, policies: seq<seq<Statement>>)
      requires Valid()
      ensures var p := Policies(bucketMemberships, bucketMemberships.keys);
        (err.None? <==> p.Ok?) && (p.Ok? ==> policies == p.value) && (err.Some? ==> err.value == NotImplementedError)
    {
      var entities := bucketMemberships.keys;
      policies := [];
      var i := 0;
      assert entities[..0] == [];
      while i < |entities|
        invariant 0 <= i <= |entities|
        invariant Policies(bucketMemberships, entities[..i]) == Ok(policies)
      {
        var entity := entities[i];
        var d := bucketMemberships.values[entity];
        var statements: seq<Statement> := [];
        var j := 0;
        assert d.keys[..0] == [];
        while j < |d.keys|
          invariant 0 <= j <= |d.keys|
          invariant EntityStatements(d, d.keys[..j]) == Ok(statements)
        {
          var bucket := d.keys[j];
          var actions := UnionActions(d.values[bucket]);
          EntityStatementsStep(d, d.keys, j);
          if actions.Err? {
            EntityStatementsErrPrefix(d, d.keys, j + 1);
            PoliciesStep(bucketMemberships, entities, i);
            PoliciesErrPrefix(bucketMemberships, entities, i + 1);
            return Some(NotImplementedError), [];
          }
          statements := statements + [Statement(actions.value, bucket)];
          j := j + 1;
        }
        assert d.keys[..j] == d.keys;
        PoliciesStep(bucketMemberships, entities, i);
        policies := policies + [statements];
        i := i + 1;
      }
      assert entities[..i] == entities;
      err := None;
    }

    /** `finalise` (aws.py:64-67): group memberships first; a raise there stops before the bucket policies. */
    method Finalise() returns (err: Option<AwsError>, policies: seq<seq<Statement>>)
      requires Valid()
      modifies this
      ensures Valid()
      ensures var (made, e) := MembershipsFor(GroupEntries(groupMemberships, groupMemberships.keys));
        resources == old(resources) + made &&
        (e.Some? ==> err == e && policies == []) &&
        (e.None? ==> var p := Policies(bucketMemberships, bucketMemberships.keys);
           (err.None? <==> p.Ok?) && (p.Ok? ==> policies == p.value))
      ensures groupMemberships == old(groupMemberships) && bucketMemberships == old(bucketMemberships) && entityNames == old(entityNames)
    {
      err := FinaliseGroupMemberships();
      if err.Some? {
        return err, [];
      }
      err, policies := FinaliseBucketMemberships();
    }
  }
}
