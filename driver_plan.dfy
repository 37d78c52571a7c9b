// The resources and calls of `CPGInfrastructure` (cpg_infra/driver.py), as
// pure functions of the dataset's config, the provider kind and the
// components selected for that provider. The class in driver.dfy is proved
// to issue exactly these calls; driver_props.dfy proves what they grant.
module DriverPlan {
  import opened Wrappers
  import opened Strings
  import opened Config
  import opened Base
  import opened Infra
  import ConfigParser

  // ---------------------------------------------------------------------
  // Constants (driver.py:30-84)

  const Domain: string := "populationgenomics.org.au"
  const AnalysisRunnerProject: string := "analysis-runner"
  const AnalysisRunnerRegistry: string := "images"
  const AnalysisRunnerCloudRunService: string := "server"
  const AnalysisRunnerServiceAccount: string := "analysis-runner-server@analysis-runner.iam.gserviceaccount.com"
  const AnalysisRunnerLoggerServiceAccount: string := "sample-metadata@analysis-runner.iam.gserviceaccount.com"
  const AnalysisRunnerConfigBucket: string := "cpg-config"
  const CpgCommonProject: string := "cpg-common"
  const CpgCommonRegistry: string := "images"
  const ReferenceBucket: string := "cpg-reference"
  const WebServerServiceAccount: string := "serviceAccount:web-server@analysis-runner.iam.gserviceaccount.com"
  const AccessGroupCacheServiceAccount: string := "access-group-cache@analysis-runner.iam.gserviceaccount.com"
  const HailWheelBucket: string := "cpg-hail-ci"
  const NotebooksProject: string := "notebooks-314505"
  const CromwellAccessGroupId: string := "groups/03cqmetx2922fyu"
  const CromwellRunnerAccount: string := "cromwell-runner@cromwell-305305.iam.gserviceaccount.com"
  const SampleMetadataProject: string := "sample-metadata"
  const SampleMetadataService: string := "sample-metadata-api"
  const SampleMetadataApiServiceAccount: string := "serviceAccount:sample-metadata-api@sample-metadata.iam.gserviceaccount.com"

  const SmTestRead: string := "test-read"
  const SmTestWrite: string := "test-write"
  const SmMainRead: string := "main-read"
  const SmMainWrite: string := "main-write"
  const SampleMetadataPermissions: seq<string> := ["test-read", "test-write", "main-read", "main-write"]

  const AccessLevels: seq<string> := ["test", "standard", "full"]

  // ---------------------------------------------------------------------
  // What the driver reads

  /** The attributes of `CPGDatasetConfig` that the driver reads. */
  datatype DatasetView = DatasetView(
    dataset: string,
    components: map<string, seq<Component>>,
    deploymentServiceAccountTest: Option<string>,
    deploymentServiceAccountStandard: Option<string>,
    deploymentServiceAccountFull: Option<string>,
    hailServiceAccountTest: Option<string>,
    hailServiceAccountStandard: Option<string>,
    hailServiceAccountFull: Option<string>,
    dependsOn: seq<string>,
    additionalUploadBuckets: seq<string>,
    smReadOnlySas: seq<string>,
    smReadWriteSas: seq<string>,
    enableRelease: bool)

  /** One `CPGInfrastructure` instance: its config, its provider and that provider's components. */
  datatype Setting = Setting(config: DatasetView, kind: InfraKind, components: seq<Component>)

  datatype DriverError = AssertionError | NotImplementedError

  /** What a memoised property returns: one handle, or a dict of handles in insertion order. */
  datatype Handle = One(id: string) | Keyed(entries: seq<(string, string)>)

  /** The `@property @lru_cache` members that create resources. */
  datatype Property =
    | MainUploadAccount | AccessGroup | WebAccessGroup | ReleaseAccessGroup | AccessLevelGroups
    | ArchiveBucket | MainBucket | MainTmpBucket | MainAnalysisBucket | MainWebBucket | MainUploadBuckets
    | TestBucket | TestAnalysisBucket | TestWebBucket | TestTmpBucket | TestUploadBucket
    | ReleaseBucket | HailBucket | CromwellAccounts | DataprocAccounts | SampleMetadataGroups | NotebookAccount

  // ---------------------------------------------------------------------
  // Ordered dicts as association lists

  function Keys(es: seq<(string, string)>): (r: seq<string>)
    ensures |r| == |es|
  {
    if |es| == 0 then [] else [es[0].0] + Keys(es[1..])
  }

  /** `d[k]` for a key that is present; the empty string otherwise. */
  function At(es: seq<(string, string)>, k: string): string
  {
    if |es| == 0 then "" else if es[0].0 == k then es[0].1 else At(es[1..], k)
  }

  /** `d[k] = v`: an existing key keeps its position, a new one goes last. */
  function Put(es: seq<(string, string)>, k: string, v: string): seq<(string, string)>
  {
    if |es| == 0 then [(k, v)]
    else if es[0].0 == k then [(k, v)] + es[1..]
    else [es[0]] + Put(es[1..], k, v)
  }

  /** After `d[k] = v`, `k` maps to `v`, every other key is untouched, and no key is new but `k`. */
  lemma {:induction false} PutFacts(es: seq<(string, string)>, k: string, v: string)
    ensures k in Keys(Put(es, k, v)) && At(Put(es, k, v), k) == v
    ensures forall j :: j in Keys(Put(es, k, v)) <==> j in Keys(es) || j == k
    ensures forall j :: j != k ==> At(Put(es, k, v), j) == At(es, j)
    ensures NoDuplicates(Keys(es)) ==> NoDuplicates(Keys(Put(es, k, v)))
  {
    if |es| > 0 && es[0].0 != k {
      PutFacts(es[1..], k, v);
      var r := Put(es, k, v);
      assert r == [es[0]] + Put(es[1..], k, v);
      assert Keys(r) == [es[0].0] + Keys(Put(es[1..], k, v));
      if NoDuplicates(Keys(es)) {
        var ks, tail := Keys(es), Keys(es[1..]);
        assert ks == [es[0].0] + tail;
        assert forall i :: 0 <= i < |tail| ==> tail[i] == ks[i + 1];
        assert NoDuplicates(tail) by {
          forall i, j | 0 <= i < j < |tail| ensures tail[i] != tail[j] {
            assert ks[i + 1] != ks[j + 1];
          }
        }
        assert es[0].0 !in tail by {
          forall i | 0 <= i < |tail| ensures tail[i] != es[0].0 {
            assert ks[0] != ks[i + 1];
          }
        }
      }
    } else if |es| > 0 {
      var r := Put(es, k, v);
      assert Keys(r) == [k] + Keys(es[1..]);
      assert Keys(es) == [k] + Keys(es[1..]);
    }
  }

  predicate NoDuplicates(xs: seq<string>)
  {
    forall i, j :: 0 <= i < j < |xs| ==> xs[i] != xs[j]
  }

  /** Concatenation of the call lists of a loop's iterations. */
  function Concat(css: seq<seq<Call>>): seq<Call>
  {
    if |css| == 0 then [] else Concat(css[..|css| - 1]) + css[|css| - 1]
  }

  lemma ConcatStep(css: seq<seq<Call>>, i: nat)
    requires i < |css|
    ensures Concat(css[..i + 1]) == Concat(css[..i]) + css[i]
  {
    assert css[..i + 1][..i] == css[..i];
  }

  lemma ConcatAll(css: seq<seq<Call>>)
    ensures Concat(css[..|css|]) == Concat(css)
  {
    assert css[..|css|] == css;
  }

  lemma Appended2(log: seq<Call>, a: Call, b: Call)
    ensures log + [a] + [b] == log + [a, b]
  {
  }

  lemma Appended3(log: seq<Call>, a: Call, b: Call, c: Call)
    ensures log + [a] + [b] + [c] == log + [a, b, c]
  {
  }

  lemma Appended4(log: seq<Call>, a: Call, b: Call, c: Call, d: Call)
    ensures log + [a] + [b] + [c] + [d] == log + [a, b, c, d]
  {
  }

  lemma {:induction false} InConcat(css: seq<seq<Call>>, c: Call)
    ensures c in Concat(css) <==> exists i :: 0 <= i < |css| && c in css[i]
  {
    if |css| > 0 {
      var init := css[..|css| - 1];
      InConcat(init, c);
      assert forall i :: 0 <= i < |init| ==> init[i] == css[i];
    }
  }

  lemma {:induction false} ConcatLength(css: seq<seq<Call>>, n: nat)
    requires forall i :: 0 <= i < |css| ==> |css[i]| == n
    ensures |Concat(css)| == n * |css|
  {
    if |css| > 0 {
      ConcatLength(css[..|css| - 1], n);
    }
  }

  // ---------------------------------------------------------------------
  // Names and handles (driver.py:123-126, 226-244)

  /** `CPGInfrastructure.create_group`: groups are named after the dataset. */
  function GroupName(s: Setting, name: string): string
  {
    s.config.dataset + "-" + name
  }

  function AccessGroupId(s: Setting): string { GroupHandle(GroupName(s, "access")) }
  function WebAccessGroupId(s: Setting): string { GroupHandle(GroupName(s, "web-access")) }
  function ReleaseAccessGroupId(s: Setting): string { GroupHandle(GroupName(s, "release-access")) }
  function LevelGroupId(s: Setting, al: string): string { GroupHandle(GroupName(s, al)) }
  function SmGroupId(s: Setting, k: string): string { GroupHandle(GroupName(s, "sample-metadata-" + k)) }

  function LevelGroups(s: Setting): seq<(string, string)>
  {
    [("test", LevelGroupId(s, "test")), ("standard", LevelGroupId(s, "standard")), ("full", LevelGroupId(s, "full"))]
  }

  /** `access_level_groups[al]` for each of the three access levels. */
  lemma LevelGroupsAt(s: Setting)
    ensures At(LevelGroups(s), "test") == LevelGroupId(s, "test")
    ensures At(LevelGroups(s), "standard") == LevelGroupId(s, "standard")
    ensures At(LevelGroups(s), "full") == LevelGroupId(s, "full")
  {
    var es := LevelGroups(s);
    assert "test" != "standard" && "test" != "full" && "standard" != "full" by {
      assert "test"[1] != "standard"[1] && "test"[0] != "full"[0] && "standard"[0] != "full"[0];
    }
    assert es[1..][1..] == [es[2]];
    assert At(es, "standard") == At(es[1..], "standard") == es[1].1;
    assert At(es, "full") == At(es[1..], "full") == At(es[1..][1..], "full") == es[2].1;
  }

  /** `{al: create_machine_account(f"{prefix}-{al}") for al in ACCESS_LEVELS}`. */
  function LevelAccounts(prefix: string): seq<(string, string)>
  {
    [("test", MachineAccountHandle(prefix + "-test")), ("standard", MachineAccountHandle(prefix + "-standard")),
     ("full", MachineAccountHandle(prefix + "-full"))]
  }

  function SmGroups(s: Setting): seq<(string, string)>
  {
    if SampleMetadata in s.components then
      [(SmTestRead, SmGroupId(s, SmTestRead)), (SmTestWrite, SmGroupId(s, SmTestWrite)),
       (SmMainRead, SmGroupId(s, SmMainRead)), (SmMainWrite, SmGroupId(s, SmMainWrite))]
    else []
  }

  /** `main_upload_buckets`: 'main-upload' first, then each additional bucket assigned in turn. */
  function UploadBuckets(extras: seq<string>): seq<(string, string)>
  {
    if |extras| == 0 then [("main-upload", BucketHandle("main-upload"))]
    else Put(UploadBuckets(extras[..|extras| - 1]), extras[|extras| - 1], BucketHandle(extras[|extras| - 1]))
  }

  function TestBuckets(): seq<(string, string)>
  {
    [("test", BucketHandle("test")), ("test-analysis", BucketHandle("test-analysis")), ("test-tmp", BucketHandle("test-tmp")),
     ("test-web", BucketHandle("test-web")), ("test-upload", BucketHandle("test-upload"))]
  }

  function HandleOf(s: Setting, p: Property): Handle
  {
    match p
    case MainUploadAccount => One(MachineAccountHandle("main-upload"))
    case AccessGroup => One(AccessGroupId(s))
    case WebAccessGroup => One(WebAccessGroupId(s))
    case ReleaseAccessGroup => One(ReleaseAccessGroupId(s))
    case AccessLevelGroups => Keyed(LevelGroups(s))
    case ArchiveBucket => One(BucketHandle("archive"))
    case MainBucket => One(BucketHandle("main"))
    case MainTmpBucket => One(BucketHandle("main-tmp"))
    case MainAnalysisBucket => One(BucketHandle("main-analysis"))
    case MainWebBucket => One(BucketHandle("main-web"))
    case MainUploadBuckets => Keyed(UploadBuckets(s.config.additionalUploadBuckets))
    case TestBucket => One(BucketHandle("test"))
    case TestAnalysisBucket => One(BucketHandle("test-analysis"))
    case TestWebBucket => One(BucketHandle("test-web"))
    case TestTmpBucket => One(BucketHandle("test-tmp"))
    case TestUploadBucket => One(BucketHandle("test-upload"))
    case ReleaseBucket => One(BucketHandle("release-requester-pays"))
    case HailBucket => One(BucketHandle("hail"))
    case CromwellAccounts => Keyed(if Cromwell in s.components then LevelAccounts("cromwell") else [])
    case DataprocAccounts => Keyed(if Spark in s.components then LevelAccounts("dataproc") else [])
    case SampleMetadataGroups => Keyed(SmGroups(s))
    case NotebookAccount => One(MachineAccountHandle("notebook-" + s.config.dataset))
  }

  function LevelAccountCalls(prefix: string): seq<Call>
  {
    [NewMachineAccount(prefix + "-test", None), NewMachineAccount(prefix + "-standard", None), NewMachineAccount(prefix + "-full", None)]
  }

  function LevelGroupCalls(s: Setting): seq<Call>
  {
    [NewGroup(GroupName(s, "test")), NewGroup(GroupName(s, "standard")), NewGroup(GroupName(s, "full"))]
  }

  function SmGroupCalls(s: Setting): seq<Call>
  {
    if SampleMetadata in s.components then
      [NewGroup(GroupName(s, "sample-metadata-" + SmTestRead)), NewGroup(GroupName(s, "sample-metadata-" + SmTestWrite)),
       NewGroup(GroupName(s, "sample-metadata-" + SmMainRead)), NewGroup(GroupName(s, "sample-metadata-" + SmMainWrite))]
    else []
  }

  function UndeleteBucket(name: string): Call
  {
    NewBucket(name, [RuleUndelete()], false, false, true)
  }

  function TemporaryBucket(name: string, versioning: bool): Call
  {
    NewBucket(name, [RuleTemporary()], false, false, versioning)
  }

  function ArchiveBucketCall(): Call
  {
    NewBucket("archive", [RuleArchive(), RuleUndelete()], false, false, true)
  }

  function ExtraUploadBuckets(extras: seq<string>): (r: seq<Call>)
    ensures |r| == |extras|
    ensures forall i :: 0 <= i < |extras| ==> r[i] == NewBucket(extras[i], [RuleUndelete(30)], true, false, true)
  {
    seq(|extras|, i requires 0 <= i < |extras| => NewBucket(extras[i], [RuleUndelete(30)], true, false, true))
  }

  /** `main_upload_buckets`' creations: 'main-upload' and then one unique bucket per additional name, all kept 30 days after deletion. */
  function UploadBucketCreations(extras: seq<string>): seq<Call>
  {
    [NewBucket("main-upload", [RuleUndelete(30)], false, false, true)] + ExtraUploadBuckets(extras)
  }

  function NotebookAccountCall(s: Setting): Call
  {
    NewMachineAccount("notebook-" + s.config.dataset, Some(NotebooksProject))
  }

  /** The creation calls a property's first access makes. */
  function CreationCalls(s: Setting, p: Property): seq<Call>
  {
    match p
    case MainUploadAccount => [NewMachineAccount("main-upload", None)]
    case AccessGroup => [NewGroup(GroupName(s, "access"))]
    case WebAccessGroup => [NewGroup(GroupName(s, "web-access"))]
    case ReleaseAccessGroup => [NewGroup(GroupName(s, "release-access"))]
    case AccessLevelGroups => LevelGroupCalls(s)
    case ArchiveBucket => [ArchiveBucketCall()]
    case MainBucket => [UndeleteBucket("main")]
    case MainTmpBucket => [TemporaryBucket("main-tmp", false)]
    case MainAnalysisBucket => [UndeleteBucket("main-analysis")]
    case MainWebBucket => [UndeleteBucket("main-web")]
    case MainUploadBuckets => UploadBucketCreations(s.config.additionalUploadBuckets)
    case TestBucket => [UndeleteBucket("test")]
    case TestAnalysisBucket => [UndeleteBucket("test-analysis")]
    case TestWebBucket => [UndeleteBucket("test-web")]
    case TestTmpBucket => [TemporaryBucket("test-tmp", false)]
    case TestUploadBucket => [UndeleteBucket("test-upload")]
    case ReleaseBucket => [UndeleteBucket("release-requester-pays")]
    case HailBucket => [TemporaryBucket("hail", true)]
    case CromwellAccounts => if Cromwell in s.components then LevelAccountCalls("cromwell") else []
    case DataprocAccounts => if Spark in s.components then LevelAccountCalls("dataproc") else []
    case SampleMetadataGroups => SmGroupCalls(s)
    case NotebookAccount => [NotebookAccountCall(s)]
  }

  // ---------------------------------------------------------------------
  // Machine accounts (driver.py:164-213, 680-691)

  function DeploymentAccountsByLevel(s: Setting): seq<(string, string)>
  {
    var c := s.config;
    if c.deploymentServiceAccountTest.None? || c.deploymentServiceAccountStandard.None? || c.deploymentServiceAccountFull.None? then []
    else [("test", c.deploymentServiceAccountTest.value), ("standard", c.deploymentServiceAccountStandard.value),
          ("full", c.deploymentServiceAccountFull.value)]
  }

  /** `hail_accounts_by_access_level`, whose assert fails when a configured hail account is missing. */
  function HailAccountsByLevel(s: Setting): (r: Result<seq<(string, string)>, DriverError>)
    ensures r.Err? <==> (HailAccounts in s.components &&
      (s.config.hailServiceAccountTest.None? || s.config.hailServiceAccountStandard.None? || s.config.hailServiceAccountFull.None?))
    ensures r.Err? ==> r.error == AssertionError
    ensures r.Ok? && HailAccounts !in s.components ==> r.value == []
    ensures r.Ok? && HailAccounts in s.components ==>
      |r.value| == 3 && r.value[0].0 == "test" && r.value[1].0 == "standard" && r.value[2].0 == "full"
  {
    var c := s.config;
    if HailAccounts !in s.components then Ok([])
    else if c.hailServiceAccountTest.None? || c.hailServiceAccountStandard.None? || c.hailServiceAccountFull.None? then Err(AssertionError)
    else Ok([("test", c.hailServiceAccountTest.value), ("standard", c.hailServiceAccountStandard.value),
             ("full", c.hailServiceAccountFull.value)])
  }

  predicate HailOk(s: Setting)
  {
    HailAccountsByLevel(s).Ok?
  }

  function HailList(s: Setting): seq<(string, string)>
    requires HailOk(s)
  {
    HailAccountsByLevel(s).value
  }

  function CromwellList(s: Setting): seq<(string, string)> { HandleOf(s, CromwellAccounts).entries }
  function DataprocList(s: Setting): seq<(string, string)> { HandleOf(s, DataprocAccounts).entries }

  /** The Cromwell and Dataproc accounts are the per-level accounts when the component is enabled, else none. */
  lemma MachineAccountLists(s: Setting)
    ensures CromwellList(s) == (if Cromwell in s.components then LevelAccounts("cromwell") else [])
    ensures DataprocList(s) == (if Spark in s.components then LevelAccounts("dataproc") else [])
  {
  }

  function Tag(kind: string, es: seq<(string, string)>): (r: seq<(string, string, string)>)
    ensures |r| == |es| && forall i :: 0 <= i < |es| ==> r[i] == (kind, es[i].0, es[i].1)
  {
    seq(|es|, i requires 0 <= i < |es| => (kind, es[i].0, es[i].1))
  }

  /** `working_machine_accounts_kind_al_account_gen`: (kind, access level, account) over hail, deployment, dataproc, cromwell. */
  function WorkingAccounts(s: Setting): Result<seq<(string, string, string)>, DriverError>
  {
    match HailAccountsByLevel(s)
    case Err(e) => Err(e)
    case Ok(h) => Ok(Tag("hail", h) + Tag("deployment", DeploymentAccountsByLevel(s)) + Tag("dataproc", DataprocList(s)) + Tag("cromwell", CromwellList(s)))
  }

  /** The accounts of `ws` at access level `al`, in order. */
  function AccountsAt(ws: seq<(string, string, string)>, al: string): seq<string>
  {
    if |ws| == 0 then []
    else AccountsAt(ws[..|ws| - 1], al) + (if ws[|ws| - 1].1 == al then [ws[|ws| - 1].2] else [])
  }

  /** The access levels of `ws` in order of first appearance. */
  function LevelsOf(ws: seq<(string, string, string)>): seq<string>
  {
    if |ws| == 0 then []
    else
      var init := LevelsOf(ws[..|ws| - 1]);
      if ws[|ws| - 1].1 in init then init else init + [ws[|ws| - 1].1]
  }

  // ---------------------------------------------------------------------
  // Access groups (driver.py:218-282, 1189-1201)

  function LevelMembershipCall(s: Setting, w: (string, string, string)): Call
  {
    GroupMember(w.0 + "-" + w.1 + "-access-level-group-membership", GroupId(At(LevelGroups(s), w.1)), w.2)
  }

  function LevelMembershipPieces(s: Setting, ws: seq<(string, string, string)>): (r: seq<seq<Call>>)
    ensures |r| == |ws| && forall i :: 0 <= i < |ws| ==> r[i] == [LevelMembershipCall(s, ws[i])]
  {
    seq(|ws|, i requires 0 <= i < |ws| => [LevelMembershipCall(s, ws[i])])
  }

  function LevelMembershipCalls(s: Setting, ws: seq<(string, string, string)>): seq<Call>
  {
    Concat(LevelMembershipPieces(s, ws))
  }

  function DependencyCall(s: Setting, al: string, group: string, dep: string): Call
  {
    GroupMember(dep + "-" + al + "-access-level-group", StackOutput(dep, al), group)
  }

  function DependencyPieces(s: Setting, al: string, group: string): (r: seq<seq<Call>>)
    ensures |r| == |s.config.dependsOn|
    ensures forall j :: 0 <= j < |r| ==> r[j] == [DependencyCall(s, al, group, s.config.dependsOn[j])]
  {
    var deps := s.config.dependsOn;
    seq(|deps|, j requires 0 <= j < |deps| => [DependencyCall(s, al, group, deps[j])])
  }

  function DependencyLevelCalls(s: Setting, al: string, group: string): seq<Call>
  {
    Concat(DependencyPieces(s, al, group))
  }

  function DependencyLevelPieces(s: Setting): (r: seq<seq<Call>>)
    ensures |r| == 3 && forall i :: 0 <= i < 3 ==> r[i] == DependencyLevelCalls(s, LevelGroups(s)[i].0, LevelGroups(s)[i].1)
  {
    var lg := LevelGroups(s);
    seq(|lg|, i requires 0 <= i < |lg| => DependencyLevelCalls(s, lg[i].0, lg[i].1))
  }

  function DependencyCalls(s: Setting): seq<Call>
  {
    Concat(DependencyLevelPieces(s))
  }

  function GroupOutputName(dataset: string, kind: string): string
  {
    dataset + "-" + kind + "-group-id"
  }

  function OutputKinds(s: Setting): seq<(string, string)>
  {
    [("access", AccessGroupId(s))] + LevelGroups(s)
  }

  function OutputPieces(s: Setting): (r: seq<seq<Call>>)
    ensures |r| == 4 && forall i :: 0 <= i < 4 ==> r[i] == [Export(GroupOutputName(s.config.dataset, OutputKinds(s)[i].0), OutputKinds(s)[i].1)]
  {
    var k := OutputKinds(s);
    seq(|k|, i requires 0 <= i < |k| => [Export(GroupOutputName(s.config.dataset, k[i].0), k[i].1)])
  }

  function OutputCalls(s: Setting): seq<Call>
  {
    Concat(OutputPieces(s))
  }

  function MonitoringCalls(s: Setting): seq<Call>
  {
    if s.kind == Gcp then [ProjectRole("project-monitoring-viewer", AccessGroupId(s), "roles/monitoring.viewer", None)] else []
  }

  function AccessGroupsCalls(s: Setting, ws: seq<(string, string, string)>): seq<Call>
  {
    LevelMembershipCalls(s, ws) + DependencyCalls(s) + OutputCalls(s) + MonitoringCalls(s)
  }

  // ---------------------------------------------------------------------
  // Storage (driver.py:287-633)

  /** `{'access-group': access_group, **access_level_groups}`. */
  function KindGroups(s: Setting): seq<(string, string)>
  {
    [("access-group", AccessGroupId(s))] + LevelGroups(s)
  }

  function ArchiveCalls(s: Setting): seq<Call>
  {
    [BucketMember("full-archive-bucket-admin", BucketHandle("archive"), LevelGroupId(s, "full"), Mutate)]
  }

  function MainBucketCalls(s: Setting): seq<Call>
  {
    var b := BucketHandle("main");
    [BucketMember("project-buckets-lister", b, AccessGroupId(s), List),
     BucketMember("standard-main-bucket-view-create", b, LevelGroupId(s, "standard"), Append),
     BucketMember("full-main-bucket-admin", b, LevelGroupId(s, "full"), Mutate)]
  }

  function MainTmpCalls(s: Setting): seq<Call>
  {
    var b := BucketHandle("main-tmp");
    [BucketMember("standard-main-tmp-bucket-view-create", b, LevelGroupId(s, "standard"), Append),
     BucketMember("full-main-tmp-bucket-admin", b, LevelGroupId(s, "full"), Mutate)]
  }

  function MainAnalysisCalls(s: Setting): seq<Call>
  {
    var b := BucketHandle("main-analysis");
    [BucketMember("access-group-main-analysis-bucket-viewer", b, AccessGroupId(s), Read),
     BucketMember("standard-main-analysis-bucket-view-create", b, LevelGroupId(s, "standard"), Append),
     BucketMember("full-main-analysis-bucket-admin", b, LevelGroupId(s, "full"), Mutate)]
  }

  function MainWebCalls(s: Setting): seq<Call>
  {
    var b := BucketHandle("main-web");
    [BucketMember("access-group-main-web-bucket-viewer", b, AccessGroupId(s), Read),
     BucketMember("web-server-main-web-bucket-viewer", b, WebServerServiceAccount, Read),
     BucketMember("standard-main-web-bucket-view-create", b, LevelGroupId(s, "standard"), Append),
     BucketMember("full-main-web-bucket-admin", b, LevelGroupId(s, "full"), Mutate)]
  }

  function UploadBucketCalls(s: Setting, bname: string, bucket: string): seq<Call>
  {
    [BucketMember("main-upload-service-account-" + bname + "-bucket-creator", bucket, MachineAccountHandle("main-upload"), Mutate),
     BucketMember("full-" + bname + "-bucket-admin", bucket, LevelGroupId(s, "full"), Mutate),
     BucketMember("standard-" + bname + "-bucket-viewer", bucket, LevelGroupId(s, "standard"), Read),
     BucketMember("access-group-" + bname + "-bucket-viewer", bucket, AccessGroupId(s), Read)]
  }

  function UploadPieces(s: Setting): (r: seq<seq<Call>>)
    ensures var ub := UploadBuckets(s.config.additionalUploadBuckets);
            |r| == |ub| && forall i :: 0 <= i < |ub| ==> r[i] == UploadBucketCalls(s, ub[i].0, ub[i].1)
  {
    var ub := UploadBuckets(s.config.additionalUploadBuckets);
    seq(|ub|, i requires 0 <= i < |ub| => UploadBucketCalls(s, ub[i].0, ub[i].1))
  }

  function UploadCalls(s: Setting): seq<Call>
  {
    Concat(UploadPieces(s))
  }

  function TestBucketCalls(s: Setting, bname: string, bucket: string): seq<Call>
  {
    [BucketMember("access-group-" + bname + "-bucket-admin", bucket, AccessGroupId(s), Mutate),
     BucketMember("test-" + bname + "-bucket-admin", bucket, LevelGroupId(s, "test"), Mutate),
     BucketMember("standard-" + bname + "-bucket-admin", bucket, LevelGroupId(s, "standard"), Mutate),
     BucketMember("full-" + bname + "-bucket-admin", bucket, LevelGroupId(s, "full"), Mutate)]
  }

  function TestPieces(s: Setting): (r: seq<seq<Call>>)
    ensures |r| == 5 && forall i :: 0 <= i < 5 ==> r[i] == TestBucketCalls(s, TestBuckets()[i].0, TestBuckets()[i].1)
  {
    var tb := TestBuckets();
    seq(|tb|, i requires 0 <= i < |tb| => TestBucketCalls(s, tb[i].0, tb[i].1))
  }

  function TestCalls(s: Setting): seq<Call>
  {
    Concat(TestPieces(s)) + [BucketMember("web-server-test-web-bucket-viewer", BucketHandle("test-web"), WebServerServiceAccount, Read)]
  }

  function ReleaseCalls(s: Setting): seq<Call>
  {
    var b := BucketHandle("release-requester-pays");
    [BucketMember("access-group-release-bucket-viewer", b, AccessGroupId(s), Read),
     BucketMember("release-access-group-release-bucket-viewer", b, ReleaseAccessGroupId(s), Read),
     BucketMember("full-release-bucket-admin", b, LevelGroupId(s, "full"), Mutate)]
  }

  function RequesterPaysCall(key: string, member: string): Call
  {
    ProjectRole(key + "-serviceusage-consumer", member, "roles/serviceusage.serviceUsageConsumer", None)
  }

  function RequesterPaysPieces(s: Setting): (r: seq<seq<Call>>)
    ensures |r| == 4 && forall i :: 0 <= i < 4 ==> r[i] == [RequesterPaysCall(KindGroups(s)[i].0, KindGroups(s)[i].1)]
  {
    var k := KindGroups(s);
    seq(|k|, i requires 0 <= i < |k| => [RequesterPaysCall(k[i].0, k[i].1)])
  }

  function RequesterPaysCalls(s: Setting): seq<Call>
  {
    Concat(RequesterPaysPieces(s))
  }

  function BucketsCalls(s: Setting): seq<Call>
  {
    [BucketLister("project-buckets-lister", AccessGroupId(s))] + ArchiveCalls(s) + MainBucketCalls(s) + MainTmpCalls(s)
      + MainAnalysisCalls(s) + MainWebCalls(s) + UploadCalls(s) + TestCalls(s)
  }

  function StorageCalls(s: Setting): seq<Call>
  {
    if Storage !in s.components then []
    else
      BucketsCalls(s)
        + (if s.config.enableRelease then ReleaseCalls(s) else [])
        + (if s.kind == Gcp then RequesterPaysCalls(s) else [])
  }

  // ---------------------------------------------------------------------
  // Hail, Cromwell, Spark (driver.py:639-857)

  function HailBucketPieces(s: Setting): (r: seq<seq<Call>>)
    requires HailOk(s)
    ensures |r| == |HailList(s)|
    ensures forall i :: 0 <= i < |r| ==>
      r[i] == [BucketMember("hail-service-account-" + HailList(s)[i].0 + "-hail-bucket-admin", BucketHandle("hail"), HailList(s)[i].1, Mutate)]
  {
    var h := HailList(s);
    seq(|h|, i requires 0 <= i < |h| =>
      [BucketMember("hail-service-account-" + h[i].0 + "-hail-bucket-admin", BucketHandle("hail"), h[i].1, Mutate)])
  }

  function HailBucketCalls(s: Setting): seq<Call>
    requires HailOk(s)
  {
    Concat(HailBucketPieces(s))
      + [BucketMember("analysis-runner-hail-bucket-admin", BucketHandle("hail"), AnalysisRunnerServiceAccount, Mutate)]
  }

  /** `{'access-group': access_group, **hail_accounts_by_access_level}`. */
  function AccessAndHail(s: Setting): seq<(string, string)>
    requires HailOk(s)
  {
    [("access-group", AccessGroupId(s))] + HailList(s)
  }

  function WheelsPieces(s: Setting): (r: seq<seq<Call>>)
    requires HailOk(s)
    ensures |r| == |AccessAndHail(s)|
    ensures forall i :: 0 <= i < |r| ==>
      r[i] == [BucketMember(AccessAndHail(s)[i].0 + "-hail-wheels-viewer", HailWheelBucket, AccessAndHail(s)[i].1, Read)]
  {
    var k := AccessAndHail(s);
    seq(|k|, i requires 0 <= i < |k| => [BucketMember(k[i].0 + "-hail-wheels-viewer", HailWheelBucket, k[i].1, Read)])
  }

  function WheelsCalls(s: Setting): seq<Call>
    requires HailOk(s)
  {
    Concat(WheelsPieces(s))
  }

  function HailCalls(s: Setting): seq<Call>
    requires HailOk(s)
  {
    HailBucketCalls(s) + WheelsCalls(s)
  }

  function CromwellAccountCalls(al: string, acct: string): seq<Call>
  {
    [MachineAccountUser("cromwell-service-account-" + al + "-service-account-user", acct, acct),
     MachineAccountUser("cromwell-runner-" + al + "-service-account-user", acct, CromwellRunnerAccount)]
  }

  function CromwellAccountPieces(s: Setting): (r: seq<seq<Call>>)
    ensures |r| == |CromwellList(s)|
    ensures forall i :: 0 <= i < |r| ==> r[i] == CromwellAccountCalls(CromwellList(s)[i].0, CromwellList(s)[i].1)
  {
    var c := CromwellList(s);
    seq(|c|, i requires 0 <= i < |c| => CromwellAccountCalls(c[i].0, c[i].1))
  }

  function CromwellAccessPieces(s: Setting): (r: seq<seq<Call>>)
    requires HailOk(s)
    ensures |r| == |HailList(s)|
    ensures forall i :: 0 <= i < |r| ==>
      r[i] == [GroupMember("hail-service-account-" + HailList(s)[i].0 + "-cromwell-access", GroupId(CromwellAccessGroupId), HailList(s)[i].1)]
  {
    var h := HailList(s);
    seq(|h|, i requires 0 <= i < |h| =>
      [GroupMember("hail-service-account-" + h[i].0 + "-cromwell-access", GroupId(CromwellAccessGroupId), h[i].1)])
  }

  function LifesciencePieces(s: Setting): (r: seq<seq<Call>>)
    ensures |r| == |CromwellList(s)|
    ensures forall i :: 0 <= i < |r| ==>
      r[i] == [LifescienceRunner("cromwell-service-account-" + CromwellList(s)[i].0 + "-workflows-runner", CromwellList(s)[i].1)]
  {
    var c := CromwellList(s);
    seq(|c|, i requires 0 <= i < |c| => [LifescienceRunner("cromwell-service-account-" + c[i].0 + "-workflows-runner", c[i].1)])
  }

  function GcpCromwellCalls(s: Setting): seq<Call>
    requires HailOk(s)
  {
    Concat(CromwellAccessPieces(s)) + Concat(LifesciencePieces(s))
  }

  function CromwellMachineCalls(s: Setting): seq<Call>
    requires HailOk(s)
  {
    Concat(CromwellAccountPieces(s)) + (if s.kind == Gcp then GcpCromwellCalls(s) else [])
  }

  function CromwellSecretName(al: string): string { "cromwell-service-account-" + al + "-secret" }
  function CromwellKeyName(al: string): string { "cromwell-service-account-" + al + "-key" }

  /** The secret holding one cromwell account's key, readable by the analysis-runner and by the level's hail account. */
  function CredentialCalls(s: Setting, al: string, acct: string): seq<Call>
    requires HailOk(s)
  {
    var secret := SecretHandle(CromwellSecretName(al));
    [NewSecret(CromwellSecretName(al), Some(AnalysisRunnerProject)),
     Credentials(CromwellKeyName(al), acct),
     SecretVersion("cromwell-service-account-" + al + "-secret-version", secret, CredentialsHandle(CromwellKeyName(al))),
     SecretMember("cromwell-service-account-" + al + "-secret-accessor", secret, AnalysisRunnerServiceAccount, Accessor, None)]
      + (if HailAccounts in s.components
         then [SecretMember("cromwell-service-account-" + al + "-self-accessor", secret, At(HailList(s), al), Accessor, Some(AnalysisRunnerProject))]
         else [])
  }

  function CredentialsPieces(s: Setting): (r: seq<seq<Call>>)
    requires HailOk(s)
    ensures |r| == |CromwellList(s)|
    ensures forall i :: 0 <= i < |r| ==> r[i] == CredentialCalls(s, CromwellList(s)[i].0, CromwellList(s)[i].1)
  {
    var c := CromwellList(s);
    seq(|c|, i requires 0 <= i < |c| => CredentialCalls(s, c[i].0, c[i].1))
  }

  function CredentialsCalls(s: Setting): seq<Call>
    requires HailOk(s)
  {
    Concat(CredentialsPieces(s))
  }

  function CromwellCalls(s: Setting): seq<Call>
    requires HailOk(s)
  {
    if Cromwell !in s.components then [] else CromwellMachineCalls(s) + CredentialsCalls(s)
  }

  function SparkUserPieces(s: Setting): (r: seq<seq<Call>>)
    requires HailOk(s)
    ensures |r| == |HailList(s)|
    ensures forall i :: 0 <= i < |r| ==>
      r[i] == [MachineAccountUser("hail-service-account-" + HailList(s)[i].0 + "-dataproc-service-account-user",
                                  At(DataprocList(s), HailList(s)[i].0), HailList(s)[i].1)]
  {
    var h := HailList(s);
    var dp := DataprocList(s);
    seq(|h|, i requires 0 <= i < |h| =>
      [MachineAccountUser("hail-service-account-" + h[i].0 + "-dataproc-service-account-user", At(dp, h[i].0), h[i].1)])
  }

  function SparkWorkerPieces(s: Setting): (r: seq<seq<Call>>)
    ensures |r| == |DataprocList(s)|
    ensures forall i :: 0 <= i < |r| ==>
      r[i] == [DataprocRole("dataproc-service-account-" + DataprocList(s)[i].0 + "-dataproc-worker", DataprocList(s)[i].1, "worker")]
  {
    var dp := DataprocList(s);
    seq(|dp|, i requires 0 <= i < |dp| => [DataprocRole("dataproc-service-account-" + dp[i].0 + "-dataproc-worker", dp[i].1, "worker")])
  }

  function SparkHailCalls(al: string, hail: string): seq<Call>
  {
    [DataprocRole("hail-service-account-" + al + "-dataproc-admin", hail, "admin"),
     DataprocRole("hail-service-account-" + al + "-dataproc-worker", hail, "worker")]
  }

  function SparkHailPieces(s: Setting): (r: seq<seq<Call>>)
    requires HailOk(s)
    ensures |r| == |HailList(s)|
    ensures forall i :: 0 <= i < |r| ==> r[i] == SparkHailCalls(HailList(s)[i].0, HailList(s)[i].1)
  {
    var h := HailList(s);
    seq(|h|, i requires 0 <= i < |h| => SparkHailCalls(h[i].0, h[i].1))
  }

  function SparkCalls(s: Setting): seq<Call>
    requires HailOk(s)
  {
    if Spark !in s.components then []
    else
      Concat(SparkUserPieces(s))
        + (if s.kind == Gcp then Concat(SparkWorkerPieces(s)) + Concat(SparkHailPieces(s)) else [])
  }

  // ---------------------------------------------------------------------
  // Sample metadata (driver.py:862-967)

  datatype SmRow = SmRow(name: string, member: string, permissions: seq<string>)

  /** `_get_name_from_external_sa`: the characters a membership name keeps. */
  predicate NameChar(c: char)
  {
    'a' <= c <= 'z' || 'A' <= c <= 'Z' || '0' <= c <= '9' || c == '_' || c == '-'
  }

  function SubNonName(s: string): (r: string)
    ensures |r| == |s|
    ensures forall i :: 0 <= i < |s| ==> r[i] == (if NameChar(s[i]) then s[i] else '-')
  {
    seq(|s|, i requires 0 <= i < |s| => if NameChar(s[i]) then s[i] else '-')
  }

  /** driver.py:1210-1229. Python's `email[:-0]` is empty, hence the empty-suffix case. */
  function NameFromExternalSa(email: string, suffix: string := ".iam.gserviceaccount.com"): string
  {
    var base :=
      if EndsWith(email, suffix) then (if |suffix| == 0 then "" else email[..|email| - |suffix|])
      else Split(email, "@")[0];
    Replace(SubNonName(base), "--", "-")
  }

  /** The five fixed rows of `sm_access_levels`. */
  function SmBaseRows(s: Setting): seq<SmRow>
  {
    [SmRow("human", AccessGroupId(s), [SmMainRead, SmTestRead, SmTestWrite]),
     SmRow("test", LevelGroupId(s, "test"), [SmMainRead, SmTestRead, SmTestWrite]),
     SmRow("standard", LevelGroupId(s, "standard"), [SmMainRead, SmMainWrite]),
     SmRow("full", LevelGroupId(s, "full"), SampleMetadataPermissions),
     SmRow("analysis-runner-logger", AnalysisRunnerLoggerServiceAccount, SampleMetadataPermissions)]
  }

  /** One row per extra service account, named after it, with the given permissions. */
  function SmExtraRows(sas: seq<string>, permissions: seq<string>): (r: seq<SmRow>)
    ensures |r| == |sas|
    ensures forall i :: 0 <= i < |sas| ==> r[i] == SmRow(NameFromExternalSa(sas[i]), sas[i], permissions)
  {
    seq(|sas|, i requires 0 <= i < |sas| => SmRow(NameFromExternalSa(sas[i]), sas[i], permissions))
  }

  function SmTable(s: Setting): seq<SmRow>
  {
    SmBaseRows(s) + SmExtraRows(s.config.smReadOnlySas, [SmMainRead])
      + SmExtraRows(s.config.smReadWriteSas, [SmMainRead, SmMainWrite])
  }

  function SmMembershipCall(s: Setting, r: SmRow, kind: string): Call
  {
    GroupMember("sample-metadata-" + kind + "-" + r.name + "-access-level-group-membership", GroupId(At(SmGroups(s), kind)), r.member)
  }

  function SmRowPieces(s: Setting, r: SmRow): (p: seq<seq<Call>>)
    ensures |p| == |r.permissions| && forall j :: 0 <= j < |p| ==> p[j] == [SmMembershipCall(s, r, r.permissions[j])]
  {
    seq(|r.permissions|, j requires 0 <= j < |r.permissions| => [SmMembershipCall(s, r, r.permissions[j])])
  }

  function SmRowCalls(s: Setting, r: SmRow): seq<Call>
  {
    Concat(SmRowPieces(s, r))
  }

  function SmAccessPieces(s: Setting): (r: seq<seq<Call>>)
    ensures |r| == |SmTable(s)| && forall i :: 0 <= i < |r| ==> r[i] == SmRowCalls(s, SmTable(s)[i])
  {
    var t := SmTable(s);
    seq(|t|, i requires 0 <= i < |t| => SmRowCalls(s, t[i]))
  }

  function SmAccessCalls(s: Setting): seq<Call>
  {
    if SampleMetadata !in s.components then [] else Concat(SmAccessPieces(s))
  }

  function SmCloudrunPieces(s: Setting): (r: seq<seq<Call>>)
    ensures |r| == |SmGroups(s)|
    ensures forall i :: 0 <= i < |r| ==>
      r[i] == [CloudrunInvoker("sample-metadata-" + SmGroups(s)[i].0 + "-cloudrun-invoker", SampleMetadataService, SampleMetadataProject, SmGroups(s)[i].1)]
  {
    var g := SmGroups(s);
    seq(|g|, i requires 0 <= i < |g| =>
      [CloudrunInvoker("sample-metadata-" + g[i].0 + "-cloudrun-invoker", SampleMetadataService, SampleMetadataProject, g[i].1)])
  }

  function SmCloudrunCalls(s: Setting): seq<Call>
  {
    Concat(SmCloudrunPieces(s))
      + [CloudrunInvoker("sample-metadata-access-group-cloudrun-invoker", SampleMetadataService, SampleMetadataProject, AccessGroupId(s))]
  }

  /** `setup_sample_metadata`: the calls issued, and the error raised for Azure after the memberships. */
  function SampleMetadataRun(s: Setting): (seq<Call>, Option<DriverError>)
  {
    if SampleMetadata !in s.components then ([], None)
    else if s.kind == Gcp then (SmAccessCalls(s) + SmCloudrunCalls(s), None)
    else if s.kind == Azure then (SmAccessCalls(s), Some(NotImplementedError))
    else (SmAccessCalls(s), None)
  }

  // ---------------------------------------------------------------------
  // Container registry, notebooks, analysis-runner, reference (driver.py:972-1082, 1170-1183)

  function RegistryKindCalls(kind: string, account: string): seq<Call>
  {
    [RegistryMember(kind + "-images-reader-in-" + AnalysisRunnerProject, AnalysisRunnerRegistry, AnalysisRunnerProject, account, RegistryReader),
     RegistryMember(kind + "-images-reader-in-" + CpgCommonProject, CpgCommonRegistry, CpgCommonProject, account, RegistryReader)]
      + (if kind == "full" || kind == "standard"
         then [RegistryMember(kind + "-images-writer-in-cpg-common", CpgCommonRegistry, CpgCommonProject, account, RegistryWriter)]
         else [])
  }

  function RegistryPieces(s: Setting): (r: seq<seq<Call>>)
    ensures |r| == 4 && forall i :: 0 <= i < 4 ==> r[i] == RegistryKindCalls(KindGroups(s)[i].0, KindGroups(s)[i].1)
  {
    var k := KindGroups(s);
    seq(|k|, i requires 0 <= i < |k| => RegistryKindCalls(k[i].0, k[i].1))
  }

  function RegistryCalls(s: Setting): seq<Call>
  {
    Concat(RegistryPieces(s))
  }

  /** `setup_notebook_account`: two grants, then the compute role on GCP or NotImplementedError elsewhere. */
  function NotebookRun(s: Setting): (seq<Call>, Option<DriverError>)
  {
    var nb := MachineAccountHandle("notebook-" + s.config.dataset);
    var grants := NotebookGrants(s);
    if s.kind == Gcp then (grants + [ProjectRole("notebook-account-compute-admin", nb, "roles/compute.admin", Some(NotebooksProject))], None)
    else (grants, Some(NotImplementedError))
  }

  /** The access group may use the notebook account, and the account joins the access group. */
  function NotebookGrants(s: Setting): seq<Call>
  {
    var nb := MachineAccountHandle("notebook-" + s.config.dataset);
    [MachineAccountUser("notebook-account-users", nb, AccessGroupId(s)),
     GroupMember("notebook-service-account-access-group-member", GroupId(AccessGroupId(s)), nb)]
  }

  /**
   * `setup_analysis_runner_config_access`. As written, every key grants the
   * access group; the loop variable (the access group, then each hail
   * account) is what the key names and what the sibling loop over the same
   * dict in `setup_hail_wheels_bucket_permissions` grants.
   */
  function ConfigAccessCall(s: Setting, m: ConfigParser.Mode, key: string, group: string): Call
  {
    BucketMember(key + "-analysis-runner-config-viewer", AnalysisRunnerConfigBucket,
                 if m == ConfigParser.AsWritten then AccessGroupId(s) else group, Read)
  }

  function ConfigAccessPieces(s: Setting, m: ConfigParser.Mode): (r: seq<seq<Call>>)
    requires HailOk(s)
    ensures |r| == |AccessAndHail(s)|
    ensures forall i :: 0 <= i < |r| ==> r[i] == [ConfigAccessCall(s, m, AccessAndHail(s)[i].0, AccessAndHail(s)[i].1)]
  {
    var k := AccessAndHail(s);
    seq(|k|, i requires 0 <= i < |k| => [ConfigAccessCall(s, m, k[i].0, k[i].1)])
  }

  function ConfigAccessCalls(s: Setting, m: ConfigParser.Mode): seq<Call>
    requires HailOk(s)
  {
    Concat(ConfigAccessPieces(s, m))
  }

  function AnalysisRunnerCalls(s: Setting): seq<Call>
    requires HailOk(s)
  {
    ConfigAccessCalls(s, ConfigParser.Intended)
      + (if s.kind == Gcp
         then [CloudrunInvoker("analysis-runner-access-invoker", AnalysisRunnerCloudRunService, AnalysisRunnerProject, AccessGroupId(s))]
         else [])
  }

  function ReferencePieces(s: Setting): (r: seq<seq<Call>>)
    ensures |r| == 4 && forall i :: 0 <= i < 4 ==>
      r[i] == [BucketMember(KindGroups(s)[i].0 + "-reference-bucket-viewer", ReferenceBucket, KindGroups(s)[i].1, Read)]
  {
    var k := KindGroups(s);
    seq(|k|, i requires 0 <= i < |k| => [BucketMember(k[i].0 + "-reference-bucket-viewer", ReferenceBucket, k[i].1, Read)])
  }

  function ReferenceCalls(s: Setting): seq<Call>
  {
    Concat(ReferencePieces(s))
  }

  // ---------------------------------------------------------------------
  // Group caches (driver.py:1087-1165)

  /** `secret_name or f'{key}-group-cache-secret'`, with "" for an absent name. */
  function CacheSecretName(key: string, secretName: string): string
  {
    if secretName == "" then key + "-group-cache-secret" else secretName
  }

  function CacheSecretCalls(group: string, key: string, secretName: string): seq<Call>
  {
    var n := CacheSecretName(key, secretName);
    [GroupMember(key + "-group-cache-membership", GroupId(group), AccessGroupCacheServiceAccount),
     NewSecret(n, None),
     SecretMember(key + "-group-cache-secret-version-manager", SecretHandle(n), AccessGroupCacheServiceAccount, Admin, None)]
  }

  /** Every key's cache membership goes on the access group itself (driver.py:1121). */
  function AccessCacheKeyCalls(s: Setting, key: string): seq<Call>
  {
    CacheSecretCalls(AccessGroupId(s), key, "")
      + [SecretMember("analysis-runner-" + key + "-group-cache-secret-accessor", SecretHandle(CacheSecretName(key, "")),
                      AnalysisRunnerServiceAccount, Accessor, None)]
  }

  function AccessCachePieces(s: Setting): (r: seq<seq<Call>>)
    ensures |r| == 4 && forall i :: 0 <= i < 4 ==> r[i] == AccessCacheKeyCalls(s, OutputKinds(s)[i].0)
  {
    var k := OutputKinds(s);
    seq(|k|, i requires 0 <= i < |k| => AccessCacheKeyCalls(s, k[i].0))
  }

  function AccessCacheCalls(s: Setting): seq<Call>
  {
    Concat(AccessCachePieces(s))
  }

  function WebCacheCalls(s: Setting): seq<Call>
  {
    CacheSecretCalls(WebAccessGroupId(s), "web-access", "")
      + [SecretMember("web-server-web-access-group-cache-secret-accessor", SecretHandle(CacheSecretName("web-access", "")),
                      WebServerServiceAccount, Accessor, None)]
  }

  function SmSecretName(s: Setting, key: string): string
  {
    s.config.dataset + "-sample-metadata-" + key + "-members-cache"
  }

  function SmSecretKeyCalls(s: Setting, key: string, group: string): seq<Call>
  {
    CacheSecretCalls(group, "sample-metadata-" + key, SmSecretName(s, key))
      + [SecretMember("sample-metadata-" + key + "-api-secret-accessor", SecretHandle(SmSecretName(s, key)),
                      SampleMetadataApiServiceAccount, Accessor, None)]
  }

  function SmSecretPieces(s: Setting): (r: seq<seq<Call>>)
    ensures |r| == |SmGroups(s)| && forall i :: 0 <= i < |r| ==> r[i] == SmSecretKeyCalls(s, SmGroups(s)[i].0, SmGroups(s)[i].1)
  {
    var g := SmGroups(s);
    seq(|g|, i requires 0 <= i < |g| => SmSecretKeyCalls(s, g[i].0, g[i].1))
  }

  function SmSecretCalls(s: Setting): seq<Call>
  {
    Concat(SmSecretPieces(s))
  }

  function GroupCacheCalls(s: Setting): seq<Call>
  {
    AccessCacheCalls(s) + WebCacheCalls(s) + SmSecretCalls(s)
  }

  // ---------------------------------------------------------------------
  // main (driver.py:128-155)

  /** Hail, Cromwell and Spark, each behind its component. */
  function ComputeCalls(s: Setting): seq<Call>
    requires HailOk(s)
  {
    (if HailAccounts in s.components then HailCalls(s) else []) + CromwellCalls(s) + SparkCalls(s)
  }

  /** The container registry, analysis-runner, reference and group-cache setups that close `main`. */
  function SharedCalls(s: Setting): seq<Call>
    requires HailOk(s)
  {
    (if ContainerRegistry in s.components then RegistryCalls(s) else [])
      + (if AnalysisRunner in s.components then AnalysisRunnerCalls(s) else [])
      + ReferenceCalls(s) + GroupCacheCalls(s)
  }

  /** `main` from the notebooks on. */
  function MainTail(s: Setting): (seq<Call>, Option<DriverError>)
    requires HailOk(s)
  {
    var nb := if Notebooks in s.components then NotebookRun(s) else ([], None);
    if nb.1.Some? then nb else (nb.0 + SharedCalls(s), None)
  }

  /** `main` after the access groups: storage, sample metadata, compute, then the tail. */
  function MainAfterGroups(s: Setting): (seq<Call>, Option<DriverError>)
    requires HailOk(s)
  {
    var sm := SampleMetadataRun(s);
    if sm.1.Some? then (StorageCalls(s) + sm.0, sm.1)
    else
      var tail := MainTail(s);
      (StorageCalls(s) + sm.0 + ComputeCalls(s) + tail.0, tail.1)
  }

  /** The calls `main` issues besides creations, and the error it stops with, if any. */
  function MainRun(s: Setting): (seq<Call>, Option<DriverError>)
  {
    match WorkingAccounts(s)
    case Err(e) => ([], Some(e))
    case Ok(ws) =>
      var rest := MainAfterGroups(s);
      (AccessGroupsCalls(s, ws) + rest.0, rest.1)
  }
}
