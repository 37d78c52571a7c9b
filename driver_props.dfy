// What the calls of DriverPlan grant: the naming of groups, the account
// maps, the sample-metadata permission table, the dependency memberships,
// the bucket and registry grants, the handles the memoised properties
// return, and the errors `main` stops with (cpg_infra/driver.py).
module DriverProps {
  import opened Wrappers
  import opened Strings
  import opened Config
  import opened Base
  import opened Infra
  import opened DriverPlan
  import ConfigParser

  // ---------------------------------------------------------------------
  // Concatenated loop output

  /** The total number of calls a loop's iterations issue. */
  function SumLengths(css: seq<seq<Call>>): nat
  {
    if |css| == 0 then 0 else SumLengths(css[..|css| - 1]) + |css[|css| - 1]|
  }

  lemma {:induction false} ConcatSumLengths(css: seq<seq<Call>>)
    ensures |Concat(css)| == SumLengths(css)
  {
    if |css| > 0 {
      ConcatSumLengths(css[..|css| - 1]);
    }
  }

  /** With `n` calls per iteration, the `j`-th call of iteration `i` sits at `i * n + j`. */
  lemma {:induction false} ConcatIndex(css: seq<seq<Call>>, n: nat, i: nat, j: nat)
    requires forall k :: 0 <= k < |css| ==> |css[k]| == n
    requires i < |css| && j < n
    ensures |Concat(css)| == n * |css|
    ensures i * n + j < |Concat(css)| && Concat(css)[i * n + j] == css[i][j]
  {
    ConcatLength(css, n);
    var init := css[..|css| - 1];
    ConcatLength(init, n);
    if i < |css| - 1 {
      ConcatIndex(init, n, i, j);
      assert i * n + j < n * |init|;
    } else {
      assert i * n == n * |init|;
    }
  }

  // ---------------------------------------------------------------------
  // Groups (driver.py:84, 123-126, 226-244)

  /** Group handles of distinct names under one dataset are distinct. */
  lemma GroupIdsDistinct(s: Setting, a: string, b: string)
    requires a != b
    ensures GroupHandle(GroupName(s, a)) != GroupHandle(GroupName(s, b))
  {
    var d := s.config.dataset + "-";
    assert GroupName(s, a) == d + a && GroupName(s, b) == d + b;
    assert (d + a)[|d|..] == a && (d + b)[|d|..] == b;
    HandlesInjective(GroupName(s, a), GroupName(s, b));
  }

  /**
   * `access_level_groups` has the keys test, standard and full, once each, and
   * each value is the group '{dataset}-{level}'.
   */
  lemma LevelGroupsShape(s: Setting)
    ensures Keys(LevelGroups(s)) == AccessLevels && NoDuplicates(AccessLevels)
    ensures forall i :: 0 <= i < 3 ==> LevelGroups(s)[i].1 == GroupHandle(s.config.dataset + "-" + AccessLevels[i])
    ensures forall i, j :: 0 <= i < j < 3 ==> LevelGroups(s)[i].1 != LevelGroups(s)[j].1
  {
    var es := LevelGroups(s);
    assert Keys(es) == [es[0].0] + Keys(es[1..]);
    assert Keys(es[1..]) == [es[1].0] + Keys(es[2..]);
    assert Keys(es[2..]) == [es[2].0] + Keys(es[3..]);
    assert "test"[0] != "standard"[0] && "test"[0] != "full"[0] && "standard"[0] != "full"[0];
    GroupIdsDistinct(s, "test", "standard");
    GroupIdsDistinct(s, "test", "full");
    GroupIdsDistinct(s, "standard", "full");
  }

  /** The access group and the three level groups are four distinct groups. */
  lemma KindGroupsDistinct(s: Setting)
    ensures Keys(KindGroups(s)) == ["access-group"] + AccessLevels
    ensures forall i, j :: 0 <= i < j < 4 ==> KindGroups(s)[i].1 != KindGroups(s)[j].1
  {
    LevelGroupsShape(s);
    var es := KindGroups(s);
    assert Keys(es) == [es[0].0] + Keys(es[1..]) && es[1..] == LevelGroups(s);
    assert "access"[0] != "test"[0] && "access"[0] != "standard"[0] && "access"[0] != "full"[0];
    GroupIdsDistinct(s, "access", "test");
    GroupIdsDistinct(s, "access", "standard");
    GroupIdsDistinct(s, "access", "full");
  }

  /** Every group the driver creates is named '{dataset}-{name}'. */
  lemma GroupNamesPrefixed(s: Setting, p: Property)
    ensures forall c :: c in CreationCalls(s, p) && c.NewGroup? ==> StartsWith(c.name, s.config.dataset + "-")
  {
    var d := s.config.dataset + "-";
    forall n | true
      ensures StartsWith(GroupName(s, n), d)
    {
      assert GroupName(s, n)[..|d|] == d;
    }
  }

  // ---------------------------------------------------------------------
  // Handles and creations (driver.py:159-244, 334-698, 775-885, 1043-1048)

  /** The handle `DevInfra` returns for a creation call. */
  function CreatedHandle(c: Call): string
  {
    match c
    case NewGroup(n) => GroupHandle(n)
    case NewBucket(n, _, _, _, _) => BucketHandle(n)
    case NewMachineAccount(n, _) => MachineAccountHandle(n)
    case _ => ""
  }

  /**
   * A property's cached handle is what its creation calls return: a single
   * handle for a single creation, and for a dict one entry per creation in
   * order (the upload buckets are below, since the dict may merge names).
   */
  lemma HandlesFromCreations(s: Setting, p: Property)
    requires p != MainUploadBuckets
    ensures forall c :: c in CreationCalls(s, p) ==> IsCreation(c)
    ensures HandleOf(s, p).One? ==> |CreationCalls(s, p)| == 1 && CreatedHandle(CreationCalls(s, p)[0]) == HandleOf(s, p).id
    ensures HandleOf(s, p).Keyed? ==>
      |HandleOf(s, p).entries| == |CreationCalls(s, p)| &&
      forall i :: 0 <= i < |CreationCalls(s, p)| ==> HandleOf(s, p).entries[i].1 == CreatedHandle(CreationCalls(s, p)[i])
  {
  }

  /**
   * `main_upload_buckets` maps 'main-upload' and every additional name, each
   * once, to the bucket created under that name; a repeated name keeps the
   * first position and the last handle, which for one name is the same.
   */
  lemma {:induction false} UploadBucketsFromCreations(extras: seq<string>)
    ensures forall k :: k in Keys(UploadBuckets(extras)) <==> k == "main-upload" || k in extras
    ensures forall k :: k in Keys(UploadBuckets(extras)) ==> At(UploadBuckets(extras), k) == BucketHandle(k)
    ensures NoDuplicates(Keys(UploadBuckets(extras)))
    ensures forall k :: k in Keys(UploadBuckets(extras)) ==> exists c :: c in UploadBucketCreations(extras) && c.name == k
  {
    var ub := UploadBuckets(extras);
    if |extras| == 0 {
      assert Keys(ub) == ["main-upload"];
    } else {
      var init := extras[..|extras| - 1];
      var last := extras[|extras| - 1];
      UploadBucketsFromCreations(init);
      PutFacts(UploadBuckets(init), last, BucketHandle(last));
      assert extras == init + [last];
      forall k | k in Keys(ub)
        ensures exists c :: c in UploadBucketCreations(extras) && c.name == k
      {
        if k == "main-upload" {
          assert UploadBucketCreations(extras)[0].name == k;
        } else {
          var i :| 0 <= i < |extras| && extras[i] == k;
          assert UploadBucketCreations(extras)[i + 1] == ExtraUploadBuckets(extras)[i];
        }
      }
    }
  }

  // ---------------------------------------------------------------------
  // Account maps (driver.py:203-213, 680-691, 775-785, 847-857)

  lemma LevelAccountsKeys(prefix: string)
    ensures Keys(LevelAccounts(prefix)) == AccessLevels
  {
    var es := LevelAccounts(prefix);
    assert Keys(es) == [es[0].0] + Keys(es[1..]);
    assert Keys(es[1..]) == [es[1].0] + Keys(es[2..]);
  }

  /** Deployment accounts: none if any of the three is unset, else one per access level. */
  lemma DeploymentAccounts(s: Setting)
    ensures var c := s.config;
      (DeploymentAccountsByLevel(s) == [] <==>
         c.deploymentServiceAccountTest.None? || c.deploymentServiceAccountStandard.None? || c.deploymentServiceAccountFull.None?) &&
      (DeploymentAccountsByLevel(s) != [] ==> Keys(DeploymentAccountsByLevel(s)) == AccessLevels)
  {
    var es := DeploymentAccountsByLevel(s);
    if es != [] {
      assert Keys(es) == [es[0].0] + Keys(es[1..]);
      assert Keys(es[1..]) == [es[1].0] + Keys(es[2..]);
    }
  }

  /** Hail accounts: none without HAIL_ACCOUNTS; with it, all three must be set, one per access level. */
  lemma HailAccountMap(s: Setting)
    ensures HailAccounts !in s.components ==> HailAccountsByLevel(s) == Ok([])
    ensures HailAccounts in s.components ==>
      (HailAccountsByLevel(s).Ok? <==>
         s.config.hailServiceAccountTest.Some? && s.config.hailServiceAccountStandard.Some? && s.config.hailServiceAccountFull.Some?) &&
      (HailAccountsByLevel(s).Ok? ==> Keys(HailAccountsByLevel(s).value) == AccessLevels)
  {
    if HailAccounts in s.components && HailAccountsByLevel(s).Ok? {
      var es := HailAccountsByLevel(s).value;
      assert Keys(es) == [es[0].0] + Keys(es[1..]);
      assert Keys(es[1..]) == [es[1].0] + Keys(es[2..]);
    }
  }

  /** Cromwell and dataproc accounts: none without their component, else one per access level. */
  lemma CromwellDataprocAccounts(s: Setting)
    ensures Keys(CromwellList(s)) == (if Cromwell in s.components then AccessLevels else [])
    ensures Keys(DataprocList(s)) == (if Spark in s.components then AccessLevels else [])
  {
    LevelAccountsKeys("cromwell");
    LevelAccountsKeys("dataproc");
  }

  // ---------------------------------------------------------------------
  // Sample-metadata permission table (driver.py:875-967)

  /**
   * The table row by row: the access group and the test group may read main
   * and read and write test, standard may read and write main, full and the
   * analysis-runner logger get all four, then one main-read row per read-only
   * service account and one main-read, main-write row per read-write one.
   */
  lemma SmTableRows(s: Setting, i: nat)
    requires i < |SmTable(s)|
    ensures |SmTable(s)| == 5 + |s.config.smReadOnlySas| + |s.config.smReadWriteSas|
    ensures var r := SmTable(s)[i];
      var ro, rw := s.config.smReadOnlySas, s.config.smReadWriteSas;
      (i == 0 ==> r.member == AccessGroupId(s) && r.permissions == [SmMainRead, SmTestRead, SmTestWrite]) &&
      (i == 1 ==> r.member == LevelGroupId(s, "test") && r.permissions == [SmMainRead, SmTestRead, SmTestWrite]) &&
      (i == 2 ==> r.member == LevelGroupId(s, "standard") && r.permissions == [SmMainRead, SmMainWrite]) &&
      (i == 3 ==> r.member == LevelGroupId(s, "full") && r.permissions == SampleMetadataPermissions) &&
      (i == 4 ==> r.member == AnalysisRunnerLoggerServiceAccount && r.permissions == SampleMetadataPermissions) &&
      (5 <= i < 5 + |ro| ==> r == SmRow(NameFromExternalSa(ro[i - 5]), ro[i - 5], [SmMainRead])) &&
      (5 + |ro| <= i ==> r == SmRow(NameFromExternalSa(rw[i - 5 - |ro|]), rw[i - 5 - |ro|], [SmMainRead, SmMainWrite]))
  {
    var ro, rw := s.config.smReadOnlySas, s.config.smReadWriteSas;
    var t := SmTable(s);
    assert t == SmBaseRows(s) + SmExtraRows(ro, [SmMainRead]) + SmExtraRows(rw, [SmMainRead, SmMainWrite]);
    if 5 <= i < 5 + |ro| {
      assert t[i] == SmExtraRows(ro, [SmMainRead])[i - 5];
    } else if 5 + |ro| <= i {
      assert t[i] == SmExtraRows(rw, [SmMainRead, SmMainWrite])[i - 5 - |ro|];
    }
  }

  function PermissionCount(rows: seq<SmRow>): nat
  {
    if |rows| == 0 then 0 else PermissionCount(rows[..|rows| - 1]) + |rows[|rows| - 1].permissions|
  }

  lemma {:induction false} PermissionCountAppend(a: seq<SmRow>, b: seq<SmRow>)
    ensures PermissionCount(a + b) == PermissionCount(a) + PermissionCount(b)
    decreases |b|
  {
    if |b| > 0 {
      assert (a + b)[..|a + b| - 1] == a + b[..|b| - 1];
      PermissionCountAppend(a, b[..|b| - 1]);
    } else {
      assert a + b == a;
    }
  }

  lemma {:induction false} PermissionCountUniform(rows: seq<SmRow>, n: nat)
    requires forall i :: 0 <= i < |rows| ==> |rows[i].permissions| == n
    ensures PermissionCount(rows) == n * |rows|
  {
    if |rows| > 0 {
      PermissionCountUniform(rows[..|rows| - 1], n);
    }
  }

  lemma {:induction false} SumLengthsOfRows(css: seq<seq<Call>>, rows: seq<SmRow>)
    requires |css| == |rows| && forall i :: 0 <= i < |css| ==> |css[i]| == |rows[i].permissions|
    ensures SumLengths(css) == PermissionCount(rows)
  {
    if |css| > 0 {
      SumLengthsOfRows(css[..|css| - 1], rows[..|rows| - 1]);
    }
  }

  lemma SmRowCallsLength(s: Setting, r: SmRow)
    ensures |SmRowCalls(s, r)| == |r.permissions|
  {
    ConcatLength(SmRowPieces(s, r), 1);
  }

  lemma SmBasePermissionCount(s: Setting)
    ensures PermissionCount(SmBaseRows(s)) == 16
  {
    var b := SmBaseRows(s);
    assert PermissionCount(b) == PermissionCount(b[..4]) + 4;
    assert PermissionCount(b[..4]) == PermissionCount(b[..3]) + 4 by { assert b[..4][..3] == b[..3]; }
    assert PermissionCount(b[..3]) == PermissionCount(b[..2]) + 2 by { assert b[..3][..2] == b[..2]; }
    assert PermissionCount(b[..2]) == PermissionCount(b[..1]) + 3 by { assert b[..2][..1] == b[..1]; }
    assert PermissionCount(b[..1]) == 3 by { assert b[..1][..0] == []; }
  }

  lemma SmTablePermissionCount(s: Setting)
    ensures PermissionCount(SmTable(s)) == 16 + |s.config.smReadOnlySas| + 2 * |s.config.smReadWriteSas|
  {
    var ro, rw := s.config.smReadOnlySas, s.config.smReadWriteSas;
    var base := SmBaseRows(s);
    var ros, rws := SmExtraRows(ro, [SmMainRead]), SmExtraRows(rw, [SmMainRead, SmMainWrite]);
    PermissionCountAppend(base + ros, rws);
    PermissionCountAppend(base, ros);
    SmExtraPermissionCount(ro, [SmMainRead]);
    SmExtraPermissionCount(rw, [SmMainRead, SmMainWrite]);
    SmBasePermissionCount(s);
  }

  /** Extra rows all carry the same permissions, so they count that many per account. */
  lemma SmExtraPermissionCount(sas: seq<string>, permissions: seq<string>)
    ensures PermissionCount(SmExtraRows(sas, permissions)) == |permissions| * |sas|
  {
    PermissionCountUniform(SmExtraRows(sas, permissions), |permissions|);
  }

  /** One membership call per (row, permission): 16 for the fixed rows, one per read-only and two per read-write account. */
  lemma SmAccessCount(s: Setting)
    requires SampleMetadata in s.components
    ensures |SmAccessCalls(s)| == 16 + |s.config.smReadOnlySas| + 2 * |s.config.smReadWriteSas|
  {
    var t := SmTable(s);
    var css := SmAccessPieces(s);
    forall i | 0 <= i < |css|
      ensures |css[i]| == |t[i].permissions|
    {
      SmRowCallsLength(s, t[i]);
    }
    ConcatSumLengths(css);
    SumLengthsOfRows(css, t);
    SmTablePermissionCount(s);
  }

  /** The calls are exactly the memberships of the table's (row, permission) pairs. */
  lemma SmMembershipsExact(s: Setting, c: Call)
    requires SampleMetadata in s.components
    ensures c in SmAccessCalls(s) <==>
      exists i, j :: 0 <= i < |SmTable(s)| && 0 <= j < |SmTable(s)[i].permissions| &&
                     c == SmMembershipCall(s, SmTable(s)[i], SmTable(s)[i].permissions[j])
  {
    RowsMembers(s, SmTable(s), SmAccessPieces(s), c);
  }

  /** The calls of any table are exactly the memberships of its (row, permission) pairs. */
  lemma RowsMembers(s: Setting, t: seq<SmRow>, css: seq<seq<Call>>, c: Call)
    requires |css| == |t| && forall i :: 0 <= i < |css| ==> css[i] == SmRowCalls(s, t[i])
    ensures c in Concat(css) <==>
      exists i, j :: 0 <= i < |t| && 0 <= j < |t[i].permissions| && c == SmMembershipCall(s, t[i], t[i].permissions[j])
  {
    InConcat(css, c);
    forall i | 0 <= i < |t|
      ensures c in css[i] <==> exists j :: 0 <= j < |t[i].permissions| && c == SmMembershipCall(s, t[i], t[i].permissions[j])
    {
      RowMembers(s, t[i], c);
    }
  }

  /** One row's calls are its memberships, one per permission. */
  lemma RowMembers(s: Setting, r: SmRow, c: Call)
    ensures c in SmRowCalls(s, r) <==> exists j :: 0 <= j < |r.permissions| && c == SmMembershipCall(s, r, r.permissions[j])
  {
    var rp := SmRowPieces(s, r);
    InConcat(rp, c);
    if c in SmRowCalls(s, r) {
      var j :| 0 <= j < |rp| && c in rp[j];
      assert c == SmMembershipCall(s, r, r.permissions[j]);
    }
    if exists j :: 0 <= j < |r.permissions| && c == SmMembershipCall(s, r, r.permissions[j]) {
      var j :| 0 <= j < |r.permissions| && c == SmMembershipCall(s, r, r.permissions[j]);
      assert c in rp[j];
    }
  }

  lemma SmGroupsAt(s: Setting)
    requires SampleMetadata in s.components
    ensures At(SmGroups(s), SmTestRead) == SmGroupId(s, SmTestRead)
    ensures At(SmGroups(s), SmTestWrite) == SmGroupId(s, SmTestWrite)
    ensures At(SmGroups(s), SmMainRead) == SmGroupId(s, SmMainRead)
    ensures At(SmGroups(s), SmMainWrite) == SmGroupId(s, SmMainWrite)
  {
    var g := SmGroups(s);
    assert SmTestRead != SmTestWrite && SmTestRead != SmMainRead && SmTestRead != SmMainWrite by {
      assert SmTestRead[5] != SmTestWrite[5] && SmTestRead[0] != SmMainRead[0] && SmTestRead[0] != SmMainWrite[0];
    }
    assert SmTestWrite != SmMainRead && SmTestWrite != SmMainWrite && SmMainRead != SmMainWrite by {
      assert SmTestWrite[0] != SmMainRead[0] && SmTestWrite[0] != SmMainWrite[0] && SmMainRead[5] != SmMainWrite[5];
    }
    assert g[1..][1..] == [g[2], g[3]] && g[1..][1..][1..] == [g[3]];
    assert At(g, SmTestWrite) == At(g[1..], SmTestWrite) == g[1].1;
    assert At(g, SmMainRead) == At(g[1..], SmMainRead) == At(g[1..][1..], SmMainRead) == g[2].1;
    assert At(g, SmMainWrite) == At(g[1..], SmMainWrite) == At(g[1..][1..], SmMainWrite) == At(g[1..][1..][1..], SmMainWrite) == g[3].1;
  }

  /** Every membership goes into the metadata group of the permission it stands for, never a missing one. */
  lemma SmMembershipTargets(s: Setting, i: nat, j: nat)
    requires SampleMetadata in s.components
    requires i < |SmTable(s)| && j < |SmTable(s)[i].permissions|
    ensures var r := SmTable(s)[i];
      SmMembershipCall(s, r, r.permissions[j]).group == GroupId(SmGroupId(s, r.permissions[j])) &&
      SmMembershipCall(s, r, r.permissions[j]).member == r.member
  {
    SmTableRows(s, i);
    var r := SmTable(s)[i];
    assert r.permissions[j] in SampleMetadataPermissions;
    SmGroupsAt(s);
  }

  // ---------------------------------------------------------------------
  // Dependencies (driver.py:1189-1201)

  lemma DependencyLengths(s: Setting)
    ensures forall i :: 0 <= i < 3 ==> |DependencyLevelPieces(s)[i]| == |s.config.dependsOn|
  {
    forall i | 0 <= i < 3
      ensures |DependencyLevelPieces(s)[i]| == |s.config.dependsOn|
    {
      var lg := LevelGroups(s);
      ConcatLength(DependencyPieces(s, lg[i].0, lg[i].1), 1);
    }
  }

  /**
   * For each access level and each dependency, the `(level, dependency)` call
   * adds this dataset's group of that level to the dependency's group of the
   * same level; there are no others.
   */
  lemma DependencyCallsShape(s: Setting, i: nat, j: nat)
    requires i < 3 && j < |s.config.dependsOn|
    ensures var deps := s.config.dependsOn;
      |DependencyCalls(s)| == 3 * |deps| &&
      DependencyCalls(s)[i * |deps| + j] ==
        GroupMember(deps[j] + "-" + AccessLevels[i] + "-access-level-group", StackOutput(deps[j], AccessLevels[i]), LevelGroupId(s, AccessLevels[i]))
  {
    var deps := s.config.dependsOn;
    var css := DependencyLevelPieces(s);
    DependencyLengths(s);
    ConcatIndex(css, |deps|, i, j);
    var lg := LevelGroups(s);
    var inner := DependencyPieces(s, lg[i].0, lg[i].1);
    ConcatIndex(inner, 1, j, 0);
  }

  lemma DependencyCount(s: Setting)
    ensures |DependencyCalls(s)| == 3 * |s.config.dependsOn|
  {
    DependencyLengths(s);
    ConcatLength(DependencyLevelPieces(s), |s.config.dependsOn|);
  }

  // ---------------------------------------------------------------------
  // Bucket grants (driver.py:435-560)

  /** The permissions `calls` grants `member` on `bucket`. */
  function GrantsTo(calls: seq<Call>, bucket: string, member: string): set<BucketPermission>
  {
    set c | c in calls && c.BucketMember? && c.bucket == bucket && c.member == member :: c.permission
  }

  /** On the main bucket the access group may list, standard may also create and full may administer; nobody else is named. */
  lemma MainBucketGrants(s: Setting)
    ensures GrantsTo(MainBucketCalls(s), BucketHandle("main"), AccessGroupId(s)) == {List}
    ensures GrantsTo(MainBucketCalls(s), BucketHandle("main"), LevelGroupId(s, "standard")) == {Append}
    ensures GrantsTo(MainBucketCalls(s), BucketHandle("main"), LevelGroupId(s, "full")) == {Mutate}
    ensures forall c :: c in MainBucketCalls(s) ==>
      c.BucketMember? && c.bucket == BucketHandle("main") && c.member in {AccessGroupId(s), LevelGroupId(s, "standard"), LevelGroupId(s, "full")}
  {
    KindGroupsDistinct(s);
    var k := KindGroups(s);
    assert k[0].1 == AccessGroupId(s) && k[2].1 == LevelGroupId(s, "standard") && k[3].1 == LevelGroupId(s, "full");
    ThreeGrants("project-buckets-lister", "standard-main-bucket-view-create", "full-main-bucket-admin",
                BucketHandle("main"), AccessGroupId(s), LevelGroupId(s, "standard"), LevelGroupId(s, "full"));
  }

  /** Three grants on one bucket to three distinct members: each member holds exactly its own permission. */
  lemma ThreeGrants(n1: string, n2: string, n3: string, b: string, x: string, y: string, z: string)
    requires x != y && x != z && y != z
    ensures var calls := [BucketMember(n1, b, x, List), BucketMember(n2, b, y, Append), BucketMember(n3, b, z, Mutate)];
            GrantsTo(calls, b, x) == {List} && GrantsTo(calls, b, y) == {Append} && GrantsTo(calls, b, z) == {Mutate}
  {
  }

  lemma TestBucketCallsAt(s: Setting, b: string, h: string, k: nat)
    requires k < 4
    ensures |TestBucketCalls(s, b, h)| == 4
    ensures TestBucketCalls(s, b, h)[k] == BucketMember(KindGroups(s)[k].0 + "-" + b + "-bucket-admin", h, KindGroups(s)[k].1, Mutate)
  {
    var kg := KindGroups(s);
    assert kg[1] == ("test", LevelGroupId(s, "test")) && kg[2] == ("standard", LevelGroupId(s, "standard")) && kg[3] == ("full", LevelGroupId(s, "full"));
  }

  /**
   * On each of the five test buckets the access group and the three level
   * groups are administrators, in that order, bucket by bucket; the last call
   * lets the web server read test-web.
   */
  lemma TestCallsShape(s: Setting, i: nat, k: nat)
    requires i < 5 && k < 4
    ensures |TestCalls(s)| == 21
    ensures TestCalls(s)[i * 4 + k] ==
      BucketMember(KindGroups(s)[k].0 + "-" + TestBuckets()[i].0 + "-bucket-admin", BucketHandle(TestBuckets()[i].0), KindGroups(s)[k].1, Mutate)
    ensures TestCalls(s)[20] == BucketMember("web-server-test-web-bucket-viewer", BucketHandle("test-web"), WebServerServiceAccount, Read)
  {
    var css := TestPieces(s);
    var tb := TestBuckets();
    forall j | 0 <= j < 5
      ensures |css[j]| == 4
    {
      TestBucketCallsAt(s, tb[j].0, tb[j].1, 0);
    }
    ConcatIndex(css, 4, i, k);
    assert tb[i].1 == BucketHandle(tb[i].0);
    TestBucketCallsAt(s, tb[i].0, tb[i].1, k);
  }

  /** Every test-bucket grant but the web server's is administrator. */
  lemma TestGrantsAdmin(s: Setting, c: Call)
    requires c in TestCalls(s)
    ensures c.BucketMember?
    ensures c.permission == Read <==> c.member == WebServerServiceAccount
    ensures c.permission != Read ==> c.permission == Mutate
  {
    var n :| 0 <= n < |TestCalls(s)| && TestCalls(s)[n] == c;
    TestCallAt(s, n);
  }

  lemma TestCallAt(s: Setting, n: nat)
    requires n < |TestCalls(s)|
    ensures var c := TestCalls(s)[n];
            c.BucketMember? && (c.permission == Read <==> c.member == WebServerServiceAccount) &&
            (c.permission != Read ==> c.permission == Mutate)
  {
    TestCallsShape(s, 0, 0);
    if n < 20 {
      TestCallsShape(s, n / 4, n % 4);
      KindGroupNotWebServer(s, n % 4);
    }
  }

  /** No group is the web server's service account: group handles end in '.au'. */
  lemma KindGroupNotWebServer(s: Setting, k: nat)
    requires k < 4
    ensures KindGroups(s)[k].1 != WebServerServiceAccount
  {
    var name := ["access", "test", "standard", "full"][k];
    assert KindGroups(s)[k].1 == GroupHandle(GroupName(s, name));
    GroupHandleLast(GroupName(s, name));
    assert WebServerServiceAccount[|WebServerServiceAccount| - 1] == 'm';
  }

  lemma GroupHandleLast(name: string)
    ensures var h := GroupHandle(name); |h| > 0 && h[|h| - 1] == 'u'
  {
  }

  // ---------------------------------------------------------------------
  // Container registries (driver.py:970-1005)

  lemma RegistryCallsOrder(s: Setting)
    ensures RegistryCalls(s) == RegistryKindCalls("access-group", AccessGroupId(s)) + RegistryKindCalls("test", LevelGroupId(s, "test"))
      + RegistryKindCalls("standard", LevelGroupId(s, "standard")) + RegistryKindCalls("full", LevelGroupId(s, "full"))
  {
    var css := RegistryPieces(s);
    var kg := KindGroups(s);
    assert kg[1] == ("test", LevelGroupId(s, "test")) && kg[2] == ("standard", LevelGroupId(s, "standard")) && kg[3] == ("full", LevelGroupId(s, "full"));
    assert css[..0] == [];
    ConcatStep(css, 0);
    ConcatStep(css, 1);
    ConcatStep(css, 2);
    ConcatStep(css, 3);
    ConcatAll(css);
  }

  lemma KindNamesDistinct()
    ensures "access-group" != "full" && "access-group" != "standard" && "test" != "full" && "test" != "standard" && "standard" != "full"
  {
    assert "access-group"[0] != "full"[0] && "access-group"[0] != "standard"[0] && "test"[0] != "full"[0] && "test"[0] != "standard"[0];
    assert "standard"[0] != "full"[0];
  }

  /** One kind's calls: read on both registries, and push on cpg-common for full and standard only. */
  lemma RegistryKindCallsShape(kind: string, account: string)
    ensures var r := RegistryKindCalls(kind, account);
      |r| == (if kind in {"standard", "full"} then 3 else 2) &&
      r[0] == RegistryMember(kind + "-images-reader-in-" + AnalysisRunnerProject, AnalysisRunnerRegistry, AnalysisRunnerProject, account, RegistryReader) &&
      r[1] == RegistryMember(kind + "-images-reader-in-" + CpgCommonProject, CpgCommonRegistry, CpgCommonProject, account, RegistryReader) &&
      (forall c :: c in r ==> c.RegistryMember? && c.member == account) &&
      (forall c :: c in r && c.registryRole == RegistryWriter ==>
         c == RegistryMember(kind + "-images-writer-in-cpg-common", CpgCommonRegistry, CpgCommonProject, account, RegistryWriter)) &&
      (RegistryMember(kind + "-images-writer-in-cpg-common", CpgCommonRegistry, CpgCommonProject, account, RegistryWriter) in r <==> kind in {"standard", "full"})
  {
  }

  predicate ReadsBoth(calls: seq<Call>, kind: string, account: string)
  {
    RegistryMember(kind + "-images-reader-in-" + AnalysisRunnerProject, AnalysisRunnerRegistry, AnalysisRunnerProject, account, RegistryReader) in calls &&
    RegistryMember(kind + "-images-reader-in-" + CpgCommonProject, CpgCommonRegistry, CpgCommonProject, account, RegistryReader) in calls
  }

  predicate Pushes(calls: seq<Call>, kind: string, account: string)
  {
    RegistryMember(kind + "-images-writer-in-cpg-common", CpgCommonRegistry, CpgCommonProject, account, RegistryWriter) in calls
  }

  predicate OnlyPushers(calls: seq<Call>, a: string, b: string)
  {
    forall c :: c in calls ==> c.RegistryMember? && (c.registryRole == RegistryWriter ==> c.registry == CpgCommonRegistry && (c.member == a || c.member == b))
  }

  function RegistryOver(ag: string, t: string, st: string, f: string): seq<Call>
  {
    RegistryKindCalls("access-group", ag) + RegistryKindCalls("test", t) + RegistryKindCalls("standard", st) + RegistryKindCalls("full", f)
  }

  lemma RegistryOverReads(ag: string, t: string, st: string, f: string)
    ensures var r := RegistryOver(ag, t, st, f);
      |r| == 10 && ReadsBoth(r, "access-group", ag) && ReadsBoth(r, "test", t) && ReadsBoth(r, "standard", st) && ReadsBoth(r, "full", f)
  {
    KindNamesDistinct();
    RegistryKindCallsShape("access-group", ag);
    RegistryKindCallsShape("test", t);
    RegistryKindCallsShape("standard", st);
    RegistryKindCallsShape("full", f);
  }

  lemma OnlyPushersAppend(a: seq<Call>, b: seq<Call>, x: string, y: string)
    requires OnlyPushers(a, x, y) && OnlyPushers(b, x, y)
    ensures OnlyPushers(a + b, x, y)
  {
  }

  lemma RegistryOverPushers(ag: string, t: string, st: string, f: string)
    ensures var r := RegistryOver(ag, t, st, f);
      Pushes(r, "standard", st) && Pushes(r, "full", f) && OnlyPushers(r, st, f)
  {
    KindNamesDistinct();
    RegistryKindCallsShape("access-group", ag);
    RegistryKindCallsShape("test", t);
    RegistryKindCallsShape("standard", st);
    RegistryKindCallsShape("full", f);
    var r0, r1, r2, r3 := RegistryKindCalls("access-group", ag), RegistryKindCalls("test", t), RegistryKindCalls("standard", st), RegistryKindCalls("full", f);
    OnlyPushersAppend(r0, r1, st, f);
    OnlyPushersAppend(r0 + r1, r2, st, f);
    OnlyPushersAppend(r0 + r1 + r2, r3, st, f);
  }

  lemma RegistryOverNoOtherPush(ag: string, t: string, st: string, f: string)
    ensures var r := RegistryOver(ag, t, st, f);
      !Pushes(r, "access-group", ag) && !Pushes(r, "test", t)
  {
    KindNamesDistinct();
    RegistryKindCallsShape("access-group", ag);
    RegistryKindCallsShape("test", t);
    RegistryKindCallsShape("standard", st);
    RegistryKindCallsShape("full", f);
    var w := "-images-writer-in-cpg-common";
    var ka, kt, ks, kf := "access-group" + w, "test" + w, "standard" + w, "full" + w;
    assert ka != ks && ka != kf && kt != ks && kt != kf by {
      assert ka[0] != ks[0] && ka[0] != kf[0] && kt[0] != ks[0] && kt[0] != kf[0];
    }
  }

  /**
   * Every group reads both registries; exactly standard and full may push
   * to cpg-common, and no other push right is granted.
   */
  lemma RegistryRoles(s: Setting)
    ensures var r, ag, t, st, f := RegistryCalls(s), AccessGroupId(s), LevelGroupId(s, "test"), LevelGroupId(s, "standard"), LevelGroupId(s, "full");
      |r| == 10 && ReadsBoth(r, "access-group", ag) && ReadsBoth(r, "test", t) && ReadsBoth(r, "standard", st) && ReadsBoth(r, "full", f) &&
      Pushes(r, "standard", st) && Pushes(r, "full", f) && !Pushes(r, "access-group", ag) && !Pushes(r, "test", t) &&
      OnlyPushers(r, st, f)
  {
    RegistryCallsOrder(s);
    var ag, t, st, f := AccessGroupId(s), LevelGroupId(s, "test"), LevelGroupId(s, "standard"), LevelGroupId(s, "full");
    assert RegistryCalls(s) == RegistryOver(ag, t, st, f);
    RegistryOverReads(ag, t, st, f);
    RegistryOverPushers(ag, t, st, f);
    RegistryOverNoOtherPush(ag, t, st, f);
  }

  // ---------------------------------------------------------------------
  // Membership names derived from external service accounts (driver.py:1210-1229)

  /** Whatever the address, the derived name uses only letters, digits, `_` and `-`. */
  lemma NameFromExternalSaChars(email: string, suffix: string)
    ensures var r := NameFromExternalSa(email, suffix);
      forall i :: 0 <= i < |r| ==> NameChar(r[i])
  {
    var base :=
      if EndsWith(email, suffix) then (if |suffix| == 0 then "" else email[..|email| - |suffix|])
      else Split(email, "@")[0];
    ReplaceChars(SubNonName(base), "--", "-", NameChar);
  }

  lemma NoDoubleDash(t: string)
    requires forall j :: 0 <= j < |t| - 1 ==> t[j] != '-' || t[j + 1] != '-'
    ensures Replace(t, "--", "-") == t
  {
    var dd := "--";
    forall j
      ensures !OccursAt(t, dd, j)
    {
      if 0 <= j && j + 2 <= |t| {
        assert t[j..j + 2][0] == t[j] && t[j..j + 2][1] == t[j + 1];
      }
    }
    assert !Contains(t, dd);
    ReplaceAbsent(t, dd, "-");
  }

  /** The first example of the function's documentation: a Google service account loses its suffix. */
  lemma NameFromServiceAccount()
    ensures NameFromExternalSa("my-service-account@project.iam.gserviceaccount.com") == "my-service-account-project"
  {
    var email := "my-service-account@project.iam.gserviceaccount.com";
    var suffix := ".iam.gserviceaccount.com";
    assert EndsWith(email, suffix);
    var base := email[..|email| - |suffix|];
    assert base == "my-service-account@project";
    var t := "my-service-account-project";
    assert SubNonName(base) == t;
    NoDoubleDash(t);
  }

  lemma SplitAtFirst(email: string, i: nat)
    requires i < |email| && email[i] == '@'
    requires forall j :: 0 <= j < i ==> email[j] != '@'
    ensures Split(email, "@")[0] == email[..i]
  {
    assert email[i..i + 1] == [email[i]];
    forall j | 0 <= j < i
      ensures !OccursAt(email, "@", j)
    {
      assert j + 1 <= |email| ==> email[j..j + 1][0] == email[j];
    }
    FindIsFirst(email, "@", i);
  }

  /** A name whose characters are all kept and which has no double dash comes out unchanged. */
  lemma CleanNameKept(t: string)
    requires forall i :: 0 <= i < |t| ==> NameChar(t[i])
    requires forall j :: 0 <= j < |t| - 1 ==> t[j] != '-' || t[j + 1] != '-'
    ensures Replace(SubNonName(t), "--", "-") == t
  {
    assert SubNonName(t) == t;
    NoDoubleDash(t);
  }

  lemma PersonalLocalPart()
    ensures var email := "yourname@populationgenomics.org.au";
      !EndsWith(email, ".iam.gserviceaccount.com") && Split(email, "@")[0] == "yourname"
  {
    PersonalNotServiceAccount();
    PersonalSplit();
  }

  lemma PersonalNotServiceAccount()
    ensures !EndsWith("yourname@populationgenomics.org.au", ".iam.gserviceaccount.com")
  {
    var email := "yourname@populationgenomics.org.au";
    var suffix := ".iam.gserviceaccount.com";
    assert email[|email| - 1] != suffix[|suffix| - 1];
  }

  lemma PersonalSplit()
    ensures Split("yourname@populationgenomics.org.au", "@")[0] == "yourname"
  {
    var email := "yourname@populationgenomics.org.au";
    assert email[..9] == "yourname@";
    SplitAtFirst(email, 8);
    assert email[..8] == "yourname";
  }

  /** The second example: any other address keeps its local part. */
  lemma NameFromPersonalAddress()
    ensures NameFromExternalSa("yourname@populationgenomics.org.au") == "yourname"
  {
    PersonalLocalPart();
    PersonalNameChars();
    CleanNameKept("yourname");
  }

  lemma PersonalNameChars()
    ensures forall i :: 0 <= i < |"yourname"| ==> NameChar("yourname"[i])
    ensures forall j :: 0 <= j < |"yourname"| - 1 ==> "yourname"[j] != '-'
  {
    var t := "yourname";
    assert t == ['y', 'o', 'u', 'r', 'n', 'a', 'm', 'e'];
  }

  lemma TaggedLocalPart()
    ensures var email := "my.service-account+extra@domain.com";
      !EndsWith(email, ".iam.gserviceaccount.com") && Split(email, "@")[0] == "my.service-account+extra"
  {
    TaggedNotServiceAccount();
    TaggedSplit();
  }

  lemma TaggedNotServiceAccount()
    ensures !EndsWith("my.service-account+extra@domain.com", ".iam.gserviceaccount.com")
  {
    var email := "my.service-account+extra@domain.com";
    var suffix := ".iam.gserviceaccount.com";
    assert email[|email| - |suffix|] != suffix[0];
  }

  lemma TaggedSplit()
    ensures Split("my.service-account+extra@domain.com", "@")[0] == "my.service-account+extra"
  {
    var email := "my.service-account+extra@domain.com";
    assert email[..25] == "my.service-account+extra@";
    SplitAtFirst(email, 24);
    assert email[..24] == "my.service-account+extra";
  }

  lemma TaggedSubstitution()
    ensures Replace(SubNonName("my.service-account+extra"), "--", "-") == "my-service-account-extra"
  {
    var t := "my-service-account-extra";
    assert SubNonName("my.service-account+extra") == t;
    NoDoubleDash(t);
  }

  /** The third example: dots and plus signs become dashes. */
  lemma NameFromTaggedAddress()
    ensures NameFromExternalSa("my.service-account+extra@domain.com") == "my-service-account-extra"
  {
    TaggedLocalPart();
    TaggedSubstitution();
  }

  // ---------------------------------------------------------------------
  // Analysis-runner config access (driver.py:1070-1081)

  /**
   * As written every grant names the access group, whatever its key; as
   * intended the grant under each key names that key's group: the access
   * group, then each hail service account.
   */
  lemma ConfigAccessMembers(s: Setting, i: nat)
    requires HailOk(s) && i < |AccessAndHail(s)|
    ensures |ConfigAccessCalls(s, ConfigParser.AsWritten)| == |ConfigAccessCalls(s, ConfigParser.Intended)| == |AccessAndHail(s)|
    ensures ConfigAccessCalls(s, ConfigParser.AsWritten)[i] ==
      BucketMember(AccessAndHail(s)[i].0 + "-analysis-runner-config-viewer", AnalysisRunnerConfigBucket, AccessGroupId(s), Read)
    ensures ConfigAccessCalls(s, ConfigParser.Intended)[i] ==
      BucketMember(AccessAndHail(s)[i].0 + "-analysis-runner-config-viewer", AnalysisRunnerConfigBucket, AccessAndHail(s)[i].1, Read)
  {
    ConcatIndex(ConfigAccessPieces(s, ConfigParser.AsWritten), 1, i, 0);
    ConcatIndex(ConfigAccessPieces(s, ConfigParser.Intended), 1, i, 0);
  }

  /** With hail enabled, the test hail account is given config access only in the intended form. */
  lemma ConfigAccessAsWrittenMissesHail(s: Setting)
    requires HailOk(s) && HailAccounts in s.components
    requires s.config.hailServiceAccountTest.value != AccessGroupId(s)
    ensures ConfigAccessCalls(s, ConfigParser.AsWritten) != ConfigAccessCalls(s, ConfigParser.Intended)
    ensures BucketMember("test" + "-analysis-runner-config-viewer", AnalysisRunnerConfigBucket, s.config.hailServiceAccountTest.value, Read)
              in ConfigAccessCalls(s, ConfigParser.Intended)
    ensures forall c :: c in ConfigAccessCalls(s, ConfigParser.AsWritten) ==> c.BucketMember? && c.member == AccessGroupId(s)
  {
    var k := AccessAndHail(s);
    assert k[1] == ("test", s.config.hailServiceAccountTest.value);
    ConfigAccessMembers(s, 1);
    var w := ConfigAccessCalls(s, ConfigParser.AsWritten);
    forall c | c in w
      ensures c.BucketMember? && c.member == AccessGroupId(s)
    {
      var n :| 0 <= n < |w| && w[n] == c;
      ConfigAccessMembers(s, n);
    }
  }

  // ---------------------------------------------------------------------
  // How `main` ends (driver.py:118-176)

  /** `main` stops with an assertion error exactly when hail is enabled without all three hail accounts, before any call. */
  lemma MainAssertionError(s: Setting)
    ensures MainRun(s).1 == Some(AssertionError) <==> !HailOk(s)
    ensures !HailOk(s) ==> MainRun(s).0 == [] && HailAccounts in s.components
  {
    if HailOk(s) {
      MainRunOk(s);
      AfterGroupsOutcome(s);
      TailOutcome(s);
    }
  }

  /** After the access groups, `main` stops as unimplemented on Azure with sample metadata, else as the tail does. */
  lemma AfterGroupsOutcome(s: Setting)
    requires HailOk(s)
    ensures MainAfterGroups(s).1 ==
            if SampleMetadata in s.components && s.kind == Azure then Some(NotImplementedError) else MainTail(s).1
  {
  }

  /** The tail stops as unimplemented exactly when notebooks are enabled off GCP, and otherwise finishes. */
  lemma TailOutcome(s: Setting)
    requires HailOk(s)
    ensures MainTail(s).1 == if Notebooks in s.components && s.kind != Gcp then Some(NotImplementedError) else None
  {
  }

  /**
   * Given the hail accounts, `main` stops as unimplemented exactly when
   * sample metadata is enabled on Azure or notebooks on a provider other
   * than GCP; otherwise it finishes.
   */
  lemma MainNotImplemented(s: Setting)
    requires HailOk(s)
    ensures MainRun(s).1 == Some(NotImplementedError) <==>
      (SampleMetadata in s.components && s.kind == Azure) || (Notebooks in s.components && s.kind != Gcp)
    ensures MainRun(s).1.None? <==>
      !(SampleMetadata in s.components && s.kind == Azure) && !(Notebooks in s.components && s.kind != Gcp)
  {
    MainRunOk(s);
    AfterGroupsOutcome(s);
    TailOutcome(s);
  }

  /** On Azure with sample metadata nothing after its access grants is set up. */
  lemma MainStopsAfterSampleMetadata(s: Setting)
    requires HailOk(s) && SampleMetadata in s.components && s.kind == Azure
    ensures WorkingAccounts(s).Ok?
    ensures MainRun(s).0 == AccessGroupsCalls(s, WorkingAccounts(s).value) + StorageCalls(s) + SmAccessCalls(s)
  {
    MainRunOk(s);
    assert SampleMetadataRun(s) == (SmAccessCalls(s), Some(NotImplementedError));
    assert MainAfterGroups(s).0 == StorageCalls(s) + SmAccessCalls(s);
    AppendAssoc(AccessGroupsCalls(s, WorkingAccounts(s).value), StorageCalls(s), SmAccessCalls(s));
  }

  /** With the hail accounts present, `main` makes the access groups and then runs the rest. */
  lemma MainRunOk(s: Setting)
    requires HailOk(s)
    ensures WorkingAccounts(s).Ok?
    ensures MainRun(s) == (AccessGroupsCalls(s, WorkingAccounts(s).value) + MainAfterGroups(s).0, MainAfterGroups(s).1)
  {
  }
}
