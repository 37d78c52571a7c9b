// `CPGInfrastructure` (cpg_infra/driver.py:87-1208) over the recording infra.
// The memo map stands for the per-instance `lru_cache` of each property: a
// property's body runs on its first access only, and every later access
// returns the same handle. Every `Setup*` method is proved to issue exactly
// the calls DriverPlan lists for it, in order.
module Driver {
  import opened Wrappers
  import opened Strings
  import opened Config
  import opened Base
  import opened Infra
  import opened DriverPlan
  import opened DriverCache
  import ConfigParser

  /** One more additional upload bucket: one more creation, and one more entry put into the dict. */
  lemma UploadBucketsStep(extras: seq<string>, i: nat)
    requires i < |extras|
    ensures UploadBucketCreations(extras[..i + 1]) ==
            UploadBucketCreations(extras[..i]) + [NewBucket(extras[i], [RuleUndelete(30)], true, false, true)]
    ensures UploadBuckets(extras[..i + 1]) == Put(UploadBuckets(extras[..i]), extras[i], BucketHandle(extras[i]))
  {
    assert extras[..i + 1][..i] == extras[..i];
    assert ExtraUploadBuckets(extras[..i + 1]) == ExtraUploadBuckets(extras[..i]) + [NewBucket(extras[i], [RuleUndelete(30)], true, false, true)];
  }

  class CPGInfrastructure {
    const setting: Setting
    const infra: RecordingInfra
    var memo: map<Property, Handle>

    /** Every cached handle is the one the property's body returns. */
    ghost predicate Valid()
      reads this
    {
      forall p {:trigger memo[p]} :: p in memo ==> memo[p] == HandleOf(setting, p)
    }

    /** The caches' effect so far: the creations the recorder holds, and the properties computed. */
    ghost function Snapshot(): Cache
      reads this, infra
    {
      Cache(infra.resources, memo.Keys)
    }

    constructor (infra: RecordingInfra, config: DatasetView, components: seq<Component>)
      ensures Valid()
      ensures this.infra == infra && setting == Setting(config, infra.kind, components)
      ensures memo == map[]
    {
      this.infra := infra;
      setting := Setting(config, infra.kind, components);
      memo := map[];
    }

    /** `__init__` (driver.py:98-121): the provider's components come from the config or the defaults table. */
    static method New(infra: RecordingInfra, config: DatasetView) returns (r: Result<CPGInfrastructure, KeyError>)
      ensures var comps := InfraComponents(config.components, infra.Name(), ConfigParser.Intended);
              (r.Ok? <==> comps.Ok?) && (r.Err? ==> r.error == comps.error) &&
              (r.Ok? ==> fresh(r.value) && r.value.Valid() && r.value.infra == infra && r.value.memo == map[] &&
                         r.value.setting == Setting(config, infra.kind, comps.value))
    {
      var comps := InfraComponents(config.components, infra.Name(), ConfigParser.Intended);
      if comps.Err? {
        return Err(comps.error);
      }
      var c := new CPGInfrastructure(infra, config, comps.value);
      return Ok(c);
    }

    // -------------------------------------------------------------------
    // Memoised properties

    /** `create_group` (driver.py:123-126). */
    method CreateGroup(name: string) returns (g: string)
      modifies infra
      ensures infra.calls == old(infra.calls)
      ensures infra.resources == old(infra.resources) + [NewGroup(GroupName(setting, name))]
      ensures g == GroupHandle(GroupName(setting, name))
    {
      g := infra.CreateGroup(setting.config.dataset + "-" + name);
    }

    /** The body of `main_upload_buckets`: one bucket per additional name, assigned into the dict in turn. */
    method CreateUploadBuckets() returns (buckets: seq<(string, string)>)
      modifies infra
      ensures infra.calls == old(infra.calls)
      ensures infra.resources == old(infra.resources) + UploadBucketCreations(setting.config.additionalUploadBuckets)
      ensures buckets == UploadBuckets(setting.config.additionalUploadBuckets)
    {
      var first := infra.CreateBucket("main-upload", [RuleUndelete(30)]);
      buckets := [("main-upload", first)];
      var extras := setting.config.additionalUploadBuckets;
      var i := 0;
      while i < |extras|
        invariant 0 <= i <= |extras|
        invariant infra.calls == old(infra.calls)
        invariant infra.resources == old(infra.resources) + UploadBucketCreations(extras[..i])
        invariant buckets == UploadBuckets(extras[..i])
      {
        var b := infra.CreateBucket(extras[i], [RuleUndelete(30)], unique := true);
        UploadBucketsStep(extras, i);
        buckets := Put(buckets, extras[i], b);
        i := i + 1;
      }
      assert extras[..i] == extras;
    }

    /** `cromwell_/dataproc_machine_accounts_by_access_level`: empty unless the component is set. */
    method CreateLevelAccounts(prefix: string, enabled: bool) returns (accounts: seq<(string, string)>)
      modifies infra
      ensures infra.calls == old(infra.calls)
      ensures infra.resources == old(infra.resources) + (if enabled then LevelAccountCalls(prefix) else [])
      ensures accounts == (if enabled then LevelAccounts(prefix) else [])
    {
      if !enabled {
        return [];
      }
      var t := infra.CreateMachineAccount(prefix + "-test");
      var st := infra.CreateMachineAccount(prefix + "-standard");
      var f := infra.CreateMachineAccount(prefix + "-full");
      accounts := [("test", t), ("standard", st), ("full", f)];
    }

    /** `main_upload_account` (driver.py:159-162). */
    method GetMainUploadAccount() returns (r: string)
      requires Valid()
      modifies this, infra
      ensures Valid() && r == MachineAccountHandle("main-upload")
      ensures memo == old(memo)[MainUploadAccount := One(r)]
      ensures Snapshot() == Access(setting, old(Snapshot()), MainUploadAccount)
      ensures infra.calls == old(infra.calls)
      ensures infra.resources == old(infra.resources) + (if MainUploadAccount in old(memo) then [] else [NewMachineAccount("main-upload", None)])
    {
      if MainUploadAccount in memo {
        r := memo[MainUploadAccount].id;
        return;
      }
      r := infra.CreateMachineAccount("main-upload");
      memo := memo[MainUploadAccount := One(r)];
    }

    /** `access_group` (driver.py:226-229). */
    method GetAccessGroup() returns (r: string)
      requires Valid()
      modifies this, infra
      ensures Valid() && r == AccessGroupId(setting)
      ensures memo == old(memo)[AccessGroup := One(r)]
      ensures Snapshot() == Access(setting, old(Snapshot()), AccessGroup)
      ensures infra.calls == old(infra.calls)
      ensures infra.resources == old(infra.resources) + (if AccessGroup in old(memo) then [] else [NewGroup(GroupName(setting, "access"))])
    {
      if AccessGroup in memo {
        r := memo[AccessGroup].id;
        return;
      }
      r := CreateGroup("access");
      memo := memo[AccessGroup := One(r)];
    }

    /** `web_access_group` (driver.py:231-234). */
    method GetWebAccessGroup() returns (r: string)
      requires Valid()
      modifies this, infra
      ensures Valid() && r == WebAccessGroupId(setting)
      ensures memo == old(memo)[WebAccessGroup := One(r)]
      ensures Snapshot() == Access(setting, old(Snapshot()), WebAccessGroup)
      ensures infra.calls == old(infra.calls)
      ensures infra.resources == old(infra.resources) + (if WebAccessGroup in old(memo) then [] else [NewGroup(GroupName(setting, "web-access"))])
    {
      if WebAccessGroup in memo {
        r := memo[WebAccessGroup].id;
        return;
      }
      r := CreateGroup("web-access");
      memo := memo[WebAccessGroup := One(r)];
    }

    /** `release_access_group` (driver.py:236-239). */
    method GetReleaseAccessGroup() returns (r: string)
      requires Valid()
      modifies this, infra
      ensures Valid() && r == ReleaseAccessGroupId(setting)
      ensures memo == old(memo)[ReleaseAccessGroup := One(r)]
      ensures Snapshot() == Access(setting, old(Snapshot()), ReleaseAccessGroup)
      ensures infra.calls == old(infra.calls)
      ensures infra.resources == old(infra.resources) + (if ReleaseAccessGroup in old(memo) then [] else [NewGroup(GroupName(setting, "release-access"))])
    {
      if ReleaseAccessGroup in memo {
        r := memo[ReleaseAccessGroup].id;
        return;
      }
      r := CreateGroup("release-access");
      memo := memo[ReleaseAccessGroup := One(r)];
    }

    /** `access_level_groups` (driver.py:241-244). */
    method GetAccessLevelGroups() returns (r: seq<(string, string)>)
      requires Valid()
      modifies this, infra
      ensures Valid() && r == LevelGroups(setting)
      ensures memo == old(memo)[AccessLevelGroups := Keyed(r)]
      ensures Snapshot() == Access(setting, old(Snapshot()), AccessLevelGroups)
      ensures infra.calls == old(infra.calls)
      ensures infra.resources == old(infra.resources) + (if AccessLevelGroups in old(memo) then [] else LevelGroupCalls(setting))
    {
      if AccessLevelGroups in memo {
        r := memo[AccessLevelGroups].entries;
        return;
      }
      var t := CreateGroup("test");
      var st := CreateGroup("standard");
      var f := CreateGroup("full");
      r := [("test", t), ("standard", st), ("full", f)];
      memo := memo[AccessLevelGroups := Keyed(r)];
    }

    /** `archive_bucket` (driver.py:334-343). */
    method GetArchiveBucket() returns (r: string)
      requires Valid()
      modifies this, infra
      ensures Valid() && r == BucketHandle("archive")
      ensures memo == old(memo)[ArchiveBucket := One(r)]
      ensures Snapshot() == Access(setting, old(Snapshot()), ArchiveBucket)
      ensures infra.calls == old(infra.calls)
      ensures infra.resources == old(infra.resources) + (if ArchiveBucket in old(memo) then [] else [ArchiveBucketCall()])
    {
      if ArchiveBucket in memo {
        r := memo[ArchiveBucket].id;
        return;
      }
      r := infra.CreateBucket("archive", [RuleArchive(), RuleUndelete()]);
      memo := memo[ArchiveBucket := One(r)];
    }

    /** `main_bucket` (driver.py:474-479). */
    method GetMainBucket() returns (r: string)
      requires Valid()
      modifies this, infra
      ensures Valid() && r == BucketHandle("main")
      ensures memo == old(memo)[MainBucket := One(r)]
      ensures Snapshot() == Access(setting, old(Snapshot()), MainBucket)
      ensures infra.calls == old(infra.calls)
      ensures infra.resources == old(infra.resources) + (if MainBucket in old(memo) then [] else [UndeleteBucket("main")])
    {
      if MainBucket in memo {
        r := memo[MainBucket].id;
        return;
      }
      r := infra.CreateBucket("main", [RuleUndelete()]);
      memo := memo[MainBucket := One(r)];
    }

    /** `main_tmp_bucket` (driver.py:481-488). */
    method GetMainTmpBucket() returns (r: string)
      requires Valid()
      modifies this, infra
      ensures Valid() && r == BucketHandle("main-tmp")
      ensures memo == old(memo)[MainTmpBucket := One(r)]
      ensures Snapshot() == Access(setting, old(Snapshot()), MainTmpBucket)
      ensures infra.calls == old(infra.calls)
      ensures infra.resources == old(infra.resources) + (if MainTmpBucket in old(memo) then [] else [TemporaryBucket("main-tmp", false)])
    {
      if MainTmpBucket in memo {
        r := memo[MainTmpBucket].id;
        return;
      }
      r := infra.CreateBucket("main-tmp", [RuleTemporary()], versioning := false);
      memo := memo[MainTmpBucket := One(r)];
    }

    /** `main_analysis_bucket` (driver.py:490-495). */
    method GetMainAnalysisBucket() returns (r: string)
      requires Valid()
      modifies this, infra
      ensures Valid() && r == BucketHandle("main-analysis")
      ensures memo == old(memo)[MainAnalysisBucket := One(r)]
      ensures Snapshot() == Access(setting, old(Snapshot()), MainAnalysisBucket)
      ensures infra.calls == old(infra.calls)
      ensures infra.resources == old(infra.resources) + (if MainAnalysisBucket in old(memo) then [] else [UndeleteBucket("main-analysis")])
    {
      if MainAnalysisBucket in memo {
        r := memo[MainAnalysisBucket].id;
        return;
      }
      r := infra.CreateBucket("main-analysis", [RuleUndelete()]);
      memo := memo[MainAnalysisBucket := One(r)];
    }

    /** `main_web_bucket` (driver.py:497-502). */
    method GetMainWebBucket() returns (r: string)
      requires Valid()
      modifies this, infra
      ensures Valid() && r == BucketHandle("main-web")
      ensures memo == old(memo)[MainWebBucket := One(r)]
      ensures Snapshot() == Access(setting, old(Snapshot()), MainWebBucket)
      ensures infra.calls == old(infra.calls)
      ensures infra.resources == old(infra.resources) + (if MainWebBucket in old(memo) then [] else [UndeleteBucket("main-web")])
    {
      if MainWebBucket in memo {
        r := memo[MainWebBucket].id;
        return;
      }
      r := infra.CreateBucket("main-web", [RuleUndelete()]);
      memo := memo[MainWebBucket := One(r)];
    }

    /** `main_upload_buckets` (driver.py:504-520). */
    method GetMainUploadBuckets() returns (r: seq<(string, string)>)
      requires Valid()
      modifies this, infra
      ensures Valid() && r == UploadBuckets(setting.config.additionalUploadBuckets)
      ensures memo == old(memo)[MainUploadBuckets := Keyed(r)]
      ensures Snapshot() == Access(setting, old(Snapshot()), MainUploadBuckets)
      ensures infra.calls == old(infra.calls)
      ensures infra.resources == old(infra.resources) + (if MainUploadBuckets in old(memo) then [] else UploadBucketCreations(setting.config.additionalUploadBuckets))
    {
      if MainUploadBuckets in memo {
        r := memo[MainUploadBuckets].entries;
        return;
      }
      r := CreateUploadBuckets();
      memo := memo[MainUploadBuckets := Keyed(r)];
    }

    /** `test_bucket` (driver.py:565-570). */
    method GetTestBucket() returns (r: string)
      requires Valid()
      modifies this, infra
      ensures Valid() && r == BucketHandle("test")
      ensures memo == old(memo)[TestBucket := One(r)]
      ensures Snapshot() == Access(setting, old(Snapshot()), TestBucket)
      ensures infra.calls == old(infra.calls)
      ensures infra.resources == old(infra.resources) + (if TestBucket in old(memo) then [] else [UndeleteBucket("test")])
    {
      if TestBucket in memo {
        r := memo[TestBucket].id;
        return;
      }
      r := infra.CreateBucket("test", [RuleUndelete()]);
      memo := memo[TestBucket := One(r)];
    }

    /** `test_analysis_bucket` (driver.py:572-577). */
    method GetTestAnalysisBucket() returns (r: string)
      requires Valid()
      modifies this, infra
      ensures Valid() && r == BucketHandle("test-analysis")
      ensures memo == old(memo)[TestAnalysisBucket := One(r)]
      ensures Snapshot() == Access(setting, old(Snapshot()), TestAnalysisBucket)
      ensures infra.calls == old(infra.calls)
      ensures infra.resources == old(infra.resources) + (if TestAnalysisBucket in old(memo) then [] else [UndeleteBucket("test-analysis")])
    {
      if TestAnalysisBucket in memo {
        r := memo[TestAnalysisBucket].id;
        return;
      }
      r := infra.CreateBucket("test-analysis", [RuleUndelete()]);
      memo := memo[TestAnalysisBucket := One(r)];
    }

    /** `test_web_bucket` (driver.py:579-584). */
    method GetTestWebBucket() returns (r: string)
      requires Valid()
      modifies this, infra
      ensures Valid() && r == BucketHandle("test-web")
      ensures memo == old(memo)[TestWebBucket := One(r)]
      ensures Snapshot() == Access(setting, old(Snapshot()), TestWebBucket)
      ensures infra.calls == old(infra.calls)
      ensures infra.resources == old(infra.resources) + (if TestWebBucket in old(memo) then [] else [UndeleteBucket("test-web")])
    {
      if TestWebBucket in memo {
        r := memo[TestWebBucket].id;
        return;
      }
      r := infra.CreateBucket("test-web", [RuleUndelete()]);
      memo := memo[TestWebBucket := One(r)];
    }

    /** `test_tmp_bucket` (driver.py:586-593). */
    method GetTestTmpBucket() returns (r: string)
      requires Valid()
      modifies this, infra
      ensures Valid() && r == BucketHandle("test-tmp")
      ensures memo == old(memo)[TestTmpBucket := One(r)]
      ensures Snapshot() == Access(setting, old(Snapshot()), TestTmpBucket)
      ensures infra.calls == old(infra.calls)
      ensures infra.resources == old(infra.resources) + (if TestTmpBucket in old(memo) then [] else [TemporaryBucket("test-tmp", false)])
    {
      if TestTmpBucket in memo {
        r := memo[TestTmpBucket].id;
        return;
      }
      r := infra.CreateBucket("test-tmp", [RuleTemporary()], versioning := false);
      memo := memo[TestTmpBucket := One(r)];
    }

    /** `test_upload_bucket` (driver.py:595-600). */
    method GetTestUploadBucket() returns (r: string)
      requires Valid()
      modifies this, infra
      ensures Valid() && r == BucketHandle("test-upload")
      ensures memo == old(memo)[TestUploadBucket := One(r)]
      ensures Snapshot() == Access(setting, old(Snapshot()), TestUploadBucket)
      ensures infra.calls == old(infra.calls)
      ensures infra.resources == old(infra.resources) + (if TestUploadBucket in old(memo) then [] else [UndeleteBucket("test-upload")])
    {
      if TestUploadBucket in memo {
        r := memo[TestUploadBucket].id;
        return;
      }
      r := infra.CreateBucket("test-upload", [RuleUndelete()]);
      memo := memo[TestUploadBucket := One(r)];
    }

    /** `release_bucket` (driver.py:627-633). */
    method GetReleaseBucket() returns (r: string)
      requires Valid()
      modifies this, infra
      ensures Valid() && r == BucketHandle("release-requester-pays")
      ensures memo == old(memo)[ReleaseBucket := One(r)]
      ensures Snapshot() == Access(setting, old(Snapshot()), ReleaseBucket)
      ensures infra.calls == old(infra.calls)
      ensures infra.resources == old(infra.resources) + (if ReleaseBucket in old(memo) then [] else [UndeleteBucket("release-requester-pays")])
    {
      if ReleaseBucket in memo {
        r := memo[ReleaseBucket].id;
        return;
      }
      r := infra.CreateBucket("release-requester-pays", [RuleUndelete()]);
      memo := memo[ReleaseBucket := One(r)];
    }

    /** `hail_bucket` (driver.py:693-698). */
    method GetHailBucket() returns (r: string)
      requires Valid()
      modifies this, infra
      ensures Valid() && r == BucketHandle("hail")
      ensures memo == old(memo)[HailBucket := One(r)]
      ensures Snapshot() == Access(setting, old(Snapshot()), HailBucket)
      ensures infra.calls == old(infra.calls)
      ensures infra.resources == old(infra.resources) + (if HailBucket in old(memo) then [] else [TemporaryBucket("hail", true)])
    {
      if HailBucket in memo {
        r := memo[HailBucket].id;
        return;
      }
      r := infra.CreateBucket("hail", [RuleTemporary()]);
      memo := memo[HailBucket := One(r)];
    }

    /** `cromwell_machine_accounts_by_access_level` (driver.py:775-785). */
    method GetCromwellAccounts() returns (r: seq<(string, string)>)
      requires Valid()
      modifies this, infra
      ensures Valid() && r == (if Cromwell in setting.components then LevelAccounts("cromwell") else [])
      ensures memo == old(memo)[CromwellAccounts := Keyed(r)]
      ensures Snapshot() == Access(setting, old(Snapshot()), CromwellAccounts)
      ensures infra.calls == old(infra.calls)
      ensures infra.resources == old(infra.resources) + (if CromwellAccounts in old(memo) then [] else (if Cromwell in setting.components then LevelAccountCalls("cromwell") else []))
    {
      if CromwellAccounts in memo {
        r := memo[CromwellAccounts].entries;
        return;
      }
      r := CreateLevelAccounts("cromwell", Cromwell in setting.components);
      memo := memo[CromwellAccounts := Keyed(r)];
    }

    /** `dataproc_machine_accounts_by_access_level` (driver.py:847-857). */
    method GetDataprocAccounts() returns (r: seq<(string, string)>)
      requires Valid()
      modifies this, infra
      ensures Valid() && r == (if Spark in setting.components then LevelAccounts("dataproc") else [])
      ensures memo == old(memo)[DataprocAccounts := Keyed(r)]
      ensures Snapshot() == Access(setting, old(Snapshot()), DataprocAccounts)
      ensures infra.calls == old(infra.calls)
      ensures infra.resources == old(infra.resources) + (if DataprocAccounts in old(memo) then [] else (if Spark in setting.components then LevelAccountCalls("dataproc") else []))
    {
      if DataprocAccounts in memo {
        r := memo[DataprocAccounts].entries;
        return;
      }
      r := CreateLevelAccounts("dataproc", Spark in setting.components);
      memo := memo[DataprocAccounts := Keyed(r)];
    }

    /** `sample_metadata_groups` (driver.py:875-885). */
    method GetSampleMetadataGroups() returns (r: seq<(string, string)>)
      requires Valid()
      modifies this, infra
      ensures Valid() && r == SmGroups(setting)
      ensures memo == old(memo)[SampleMetadataGroups := Keyed(r)]
      ensures Snapshot() == Access(setting, old(Snapshot()), SampleMetadataGroups)
      ensures infra.calls == old(infra.calls)
      ensures infra.resources == old(infra.resources) + (if SampleMetadataGroups in old(memo) then [] else SmGroupCalls(setting))
    {
      if SampleMetadataGroups in memo {
        r := memo[SampleMetadataGroups].entries;
        return;
      }
      if SampleMetadata in setting.components {
        var tr := CreateGroup("sample-metadata-" + SmTestRead);
        var tw := CreateGroup("sample-metadata-" + SmTestWrite);
        var mr := CreateGroup("sample-metadata-" + SmMainRead);
        var mw := CreateGroup("sample-metadata-" + SmMainWrite);
        r := [(SmTestRead, tr), (SmTestWrite, tw), (SmMainRead, mr), (SmMainWrite, mw)];
      } else {
        r := [];
      }
      memo := memo[SampleMetadataGroups := Keyed(r)];
    }

    /** `notebook_account` (driver.py:1043-1048). */
    method GetNotebookAccount() returns (r: string)
      requires Valid()
      modifies this, infra
      ensures Valid() && r == MachineAccountHandle("notebook-" + setting.config.dataset)
      ensures memo == old(memo)[NotebookAccount := One(r)]
      ensures Snapshot() == Access(setting, old(Snapshot()), NotebookAccount)
      ensures infra.calls == old(infra.calls)
      ensures infra.resources == old(infra.resources) + (if NotebookAccount in old(memo) then [] else [NotebookAccountCall(setting)])
    {
      if NotebookAccount in memo {
        r := memo[NotebookAccount].id;
        return;
      }
      r := infra.CreateMachineAccount("notebook-" + setting.config.dataset, Some(NotebooksProject));
      memo := memo[NotebookAccount := One(r)];
    }

    // -------------------------------------------------------------------
    // Access groups (driver.py:164-282, 1189-1201)

    /** `working_machine_accounts_by_access_level`: each level's accounts in order, levels in order of first appearance. */
    static method AccountsByLevel(ws: seq<(string, string, string)>) returns (levels: seq<string>, accounts: map<string, seq<string>>)
      ensures levels == LevelsOf(ws)
      ensures forall al :: al in accounts <==> al in levels
      ensures forall al :: al in accounts ==> accounts[al] == AccountsAt(ws, al)
    {
      levels := [];
      accounts := map[];
      var i := 0;
      while i < |ws|
        invariant 0 <= i <= |ws|
        invariant levels == LevelsOf(ws[..i])
        invariant forall al :: al in accounts <==> al in levels
        invariant forall al :: al in accounts ==> accounts[al] == AccountsAt(ws[..i], al)
        invariant forall al :: al !in accounts ==> AccountsAt(ws[..i], al) == []
      {
        var al := ws[i].1;
        assert ws[..i + 1][..i] == ws[..i];
        if al !in accounts {
          levels := levels + [al];
          accounts := accounts[al := [ws[i].2]];
        } else {
          accounts := accounts[al := accounts[al] + [ws[i].2]];
        }
        i := i + 1;
      }
      assert ws[..i] == ws;
    }

    /** `working_machine_accounts_kind_al_account_gen` (driver.py:164-196): (kind, access level, account) for hail, deployment, dataproc and cromwell accounts. */
    method WorkingMachineAccounts() returns (r: Result<seq<(string, string, string)>, DriverError>)
      requires Valid()
      modifies this, infra
      ensures Valid()
      ensures r == WorkingAccounts(setting)
      ensures infra.calls == old(infra.calls)
      ensures r.Err? ==> infra.resources == old(infra.resources)
      ensures Snapshot() == AccessAll(setting, old(Snapshot()), WorkingReads(setting))
    {
      ghost var k0 := Snapshot();
      var hail := HailAccountsByLevel(setting);
      if hail.Err? {
        return Err(hail.error);
      }
      var deployment := DeploymentAccountsByLevel(setting);
      var dataproc := GetDataprocAccounts();
      var cromwell := GetCromwellAccounts();
      AccessAll2(setting, k0, DataprocAccounts, CromwellAccounts);
      MachineAccountLists(setting);
      r := Ok(Tag("hail", hail.value) + Tag("deployment", deployment) + Tag("dataproc", dataproc) + Tag("cromwell", cromwell));
    }

    method SetupAccessLevelGroupMemberships() returns (err: Option<DriverError>)
      requires Valid()
      modifies this, infra
      ensures Valid()
      ensures err.Some? <==> WorkingAccounts(setting).Err?
      ensures err.Some? ==> err.value == WorkingAccounts(setting).error && infra.resources == old(infra.resources) && infra.calls == old(infra.calls)
      ensures err.None? ==> infra.calls == old(infra.calls) + LevelMembershipCalls(setting, WorkingAccounts(setting).value)
      ensures Snapshot() == AccessAll(setting, old(Snapshot()), LevelMembershipReads(setting))
    {
      ghost var k0 := Snapshot();
      var accounts := WorkingMachineAccounts();
      if accounts.Err? {
        assert LevelMembershipReads(setting) == [] + [];
        return Some(accounts.error);
      }
      var ws := accounts.value;
      GrantLevelMemberships(ws);
      if |ws| > 0 {
        AccessAllAppend(setting, k0, WorkingReads(setting), [AccessLevelGroups]);
      } else {
        assert LevelMembershipReads(setting) == WorkingReads(setting) + [];
      }
      err := None;
    }

    /** Each working account joins the group of its access level, in order. */
    method GrantLevelMemberships(ws: seq<(string, string, string)>)
      requires Valid()
      modifies this, infra
      ensures Valid()
      ensures infra.calls == old(infra.calls) + LevelMembershipCalls(setting, ws)
      ensures Snapshot() == AccessAll(setting, old(Snapshot()), if |ws| > 0 then [AccessLevelGroups] else [])
    {
      ghost var k1 := Snapshot();
      ghost var c0 := infra.calls;
      ghost var css := LevelMembershipPieces(setting, ws);
      var i := 0;
      while i < |ws|
        invariant 0 <= i <= |ws|
        invariant Valid()
        invariant infra.calls == c0 + Concat(css[..i])
        invariant Snapshot() == if i == 0 then k1 else Access(setting, k1, AccessLevelGroups)
      {
        var groups := GetAccessLevelGroups();
        var (kind, al, account) := ws[i];
        infra.Record(GroupMember(kind + "-" + al + "-access-level-group-membership", GroupId(At(groups, al)), account));
        ConcatStep(css, i);
        AppendAssoc(c0, Concat(css[..i]), css[i]);
        i := i + 1;
      }
      ConcatAll(css);
      if |ws| > 0 {
        AccessAll1(setting, k1, AccessLevelGroups);
      }
    }

    method SetupDependentGroupMemberships()
      requires Valid()
      modifies this, infra
      ensures Valid()
      ensures infra.calls == old(infra.calls) + DependencyCalls(setting)
      ensures Snapshot() == AccessAll(setting, old(Snapshot()), [AccessLevelGroups])
    {
      ghost var k0 := Snapshot();
      var groups := GetAccessLevelGroups();
      AccessAll1(setting, k0, AccessLevelGroups);
      ghost var k1 := Snapshot();
      var lg := groups;
      ghost var c0 := infra.calls;
      ghost var css := DependencyLevelPieces(setting);
      var i := 0;
      while i < |lg|
        invariant 0 <= i <= |lg|
        invariant Valid()
        invariant infra.calls == c0 + Concat(css[..i])
        invariant Snapshot() == k1
      {
        var (al, group) := lg[i];
        GrantDependencyOutputs(al, group);
        ConcatStep(css, i);
        AppendAssoc(c0, Concat(css[..i]), css[i]);
        i := i + 1;
      }
      ConcatAll(css);
    }

    /** One access level's group joins the matching group of each stack it depends on, in order. */
    method GrantDependencyOutputs(al: string, group: string)
      modifies infra
      ensures infra.calls == old(infra.calls) + DependencyLevelCalls(setting, al, group)
      ensures infra.resources == old(infra.resources)
    {
      var deps := setting.config.dependsOn;
      ghost var c0 := infra.calls;
      ghost var inner := DependencyPieces(setting, al, group);
      var j := 0;
      while j < |deps|
        invariant 0 <= j <= |deps|
        invariant infra.calls == c0 + Concat(inner[..j])
        invariant infra.resources == old(infra.resources)
      {
        // the dependency stack's output for this access level's group
        infra.Record(GroupMember(deps[j] + "-" + al + "-access-level-group", StackOutput(deps[j], al), group));
        ConcatStep(inner, j);
        AppendAssoc(c0, Concat(inner[..j]), inner[j]);
        j := j + 1;
      }
      ConcatAll(inner);
    }

    method SetupAccessLevelGroupOutputs()
      requires Valid()
      modifies this, infra
      ensures Valid()
      ensures infra.calls == old(infra.calls) + OutputCalls(setting)
      ensures Snapshot() == AccessAll(setting, old(Snapshot()), [AccessGroup, AccessLevelGroups])
    {
      ghost var k0 := Snapshot();
      var ag := GetAccessGroup();
      var groups := GetAccessLevelGroups();
      AccessAll2(setting, k0, AccessGroup, AccessLevelGroups);
      ghost var k1 := Snapshot();
      var kinds := [("access", ag)] + groups;
      assert kinds == OutputKinds(setting);
      ghost var c0 := infra.calls;
      ghost var css := OutputPieces(setting);
      var i := 0;
      while i < |kinds|
        invariant 0 <= i <= |kinds|
        invariant Valid()
        invariant infra.calls == c0 + Concat(css[..i])
        invariant Snapshot() == k1
      {
        infra.Record(Export(GroupOutputName(setting.config.dataset, kinds[i].0), kinds[i].1));
        ConcatStep(css, i);
        AppendAssoc(c0, Concat(css[..i]), css[i]);
        i := i + 1;
      }
      ConcatAll(css);
    }

    method SetupGcpMonitoringAccess()
      requires Valid() && setting.kind == Gcp
      modifies this, infra
      ensures Valid()
      ensures infra.calls == old(infra.calls) + MonitoringCalls(setting)
      ensures Snapshot() == AccessAll(setting, old(Snapshot()), [AccessGroup])
    {
      ghost var k0 := Snapshot();
      var ag := GetAccessGroup();
      AccessAll1(setting, k0, AccessGroup);
      infra.Record(ProjectRole("project-monitoring-viewer", ag, "roles/monitoring.viewer", None));
    }

    method SetupAccessGroups() returns (err: Option<DriverError>)
      requires Valid()
      modifies this, infra
      ensures Valid()
      ensures err.Some? <==> WorkingAccounts(setting).Err?
      ensures err.Some? ==> err.value == WorkingAccounts(setting).error && infra.resources == old(infra.resources) && infra.calls == old(infra.calls)
      ensures err.None? ==> infra.calls == old(infra.calls) + AccessGroupsCalls(setting, WorkingAccounts(setting).value)
      ensures Snapshot() == AccessAll(setting, old(Snapshot()), AccessGroupsReads(setting))
    {
      ghost var c0 := infra.calls;
      ghost var k0 := Snapshot();
      err := SetupAccessLevelGroupMemberships();
      if err.Some? {
        AccessGroupsReadsErr(setting);
        return;
      }
      ghost var ws := WorkingAccounts(setting).value;
      ghost var acc := LevelMembershipCalls(setting, ws);
      ghost var seen := LevelMembershipReads(setting);
      SetupDependentGroupMemberships();
      AppendAssoc(c0, acc, DependencyCalls(setting));
      acc := acc + DependencyCalls(setting);
      AccessAllAppend(setting, k0, seen, [AccessLevelGroups]);
      seen := seen + [AccessLevelGroups];
      SetupAccessLevelGroupOutputs();
      AppendAssoc(c0, acc, OutputCalls(setting));
      acc := acc + OutputCalls(setting);
      AccessAllAppend(setting, k0, seen, [AccessGroup, AccessLevelGroups]);
      seen := seen + [AccessGroup, AccessLevelGroups];
      if setting.kind == Gcp {
        SetupGcpMonitoringAccess();
        AccessAllAppend(setting, k0, seen, [AccessGroup]);
        seen := seen + [AccessGroup];
      } else {
        assert seen + [] == seen;
      }
      AppendAssoc(c0, acc, MonitoringCalls(setting));
      AccessGroupsReadsOk(setting);
      assert seen == AccessGroupsReads(setting);
    }

    // -------------------------------------------------------------------
    // Storage (driver.py:287-633)

    method SetupArchiveBucketPermissions()
      requires Valid()
      modifies this, infra
      ensures Valid()
      ensures infra.calls == old(infra.calls) + ArchiveCalls(setting)
      ensures Snapshot() == AccessAll(setting, old(Snapshot()), [ArchiveBucket, AccessLevelGroups])
    {
      ghost var k0 := Snapshot();
      var archive := GetArchiveBucket();
      var groups := GetAccessLevelGroups();
      AccessAll2(setting, k0, ArchiveBucket, AccessLevelGroups);
      LevelGroupsAt(setting);
      infra.Record(BucketMember("full-archive-bucket-admin", archive, At(groups, "full"), Mutate));
    }

    method SetupMainBucketPermissions()
      requires Valid()
      modifies this, infra
      ensures Valid()
      ensures infra.calls == old(infra.calls) + MainBucketCalls(setting)
      ensures Snapshot() == AccessAll(setting, old(Snapshot()), [MainBucket, AccessGroup, AccessLevelGroups])
    {
      ghost var c0 := infra.calls;
      ghost var k0 := Snapshot();
      AccessAll3(setting, k0, MainBucket, AccessGroup, AccessLevelGroups);
      var main := GetMainBucket();
      var ag := GetAccessGroup();
      var lister := BucketMember("project-buckets-lister", main, ag, List);
      infra.Record(lister);
      var groups := GetAccessLevelGroups();
      LevelGroupsAt(setting);
      var standard := BucketMember("standard-main-bucket-view-create", main, At(groups, "standard"), Append);
      infra.Record(standard);
      var full := BucketMember("full-main-bucket-admin", main, At(groups, "full"), Mutate);
      infra.Record(full);
      Appended3(c0, lister, standard, full);
    }

    method SetupMainTmpBucket()
      requires Valid()
      modifies this, infra
      ensures Valid()
      ensures infra.calls == old(infra.calls) + MainTmpCalls(setting)
      ensures Snapshot() == AccessAll(setting, old(Snapshot()), [MainTmpBucket, AccessLevelGroups])
    {
      ghost var c0 := infra.calls;
      ghost var k0 := Snapshot();
      AccessAll2(setting, k0, MainTmpBucket, AccessLevelGroups);
      var tmp := GetMainTmpBucket();
      var groups := GetAccessLevelGroups();
      LevelGroupsAt(setting);
      var standard := BucketMember("standard-main-tmp-bucket-view-create", tmp, At(groups, "standard"), Append);
      infra.Record(standard);
      var full := BucketMember("full-main-tmp-bucket-admin", tmp, At(groups, "full"), Mutate);
      infra.Record(full);
      Appended2(c0, standard, full);
    }

    method SetupMainAnalysisBucket()
      requires Valid()
      modifies this, infra
      ensures Valid()
      ensures infra.calls == old(infra.calls) + MainAnalysisCalls(setting)
      ensures Snapshot() == AccessAll(setting, old(Snapshot()), [MainAnalysisBucket, AccessGroup, AccessLevelGroups])
    {
      ghost var c0 := infra.calls;
      ghost var k0 := Snapshot();
      AccessAll3(setting, k0, MainAnalysisBucket, AccessGroup, AccessLevelGroups);
      var analysis := GetMainAnalysisBucket();
      var ag := GetAccessGroup();
      var viewer := BucketMember("access-group-main-analysis-bucket-viewer", analysis, ag, Read);
      infra.Record(viewer);
      var groups := GetAccessLevelGroups();
      LevelGroupsAt(setting);
      var standard := BucketMember("standard-main-analysis-bucket-view-create", analysis, At(groups, "standard"), Append);
      infra.Record(standard);
      var full := BucketMember("full-main-analysis-bucket-admin", analysis, At(groups, "full"), Mutate);
      infra.Record(full);
      Appended3(c0, viewer, standard, full);
    }

    method SetupMainWebBucketPermissions()
      requires Valid()
      modifies this, infra
      ensures Valid()
      ensures infra.calls == old(infra.calls) + MainWebCalls(setting)
      ensures Snapshot() == AccessAll(setting, old(Snapshot()), [MainWebBucket, AccessGroup, AccessLevelGroups])
    {
      ghost var c0 := infra.calls;
      ghost var k0 := Snapshot();
      AccessAll3(setting, k0, MainWebBucket, AccessGroup, AccessLevelGroups);
      var web := GetMainWebBucket();
      var ag := GetAccessGroup();
      var viewer := BucketMember("access-group-main-web-bucket-viewer", web, ag, Read);
      infra.Record(viewer);
      var server := BucketMember("web-server-main-web-bucket-viewer", web, WebServerServiceAccount, Read);
      infra.Record(server);
      var groups := GetAccessLevelGroups();
      LevelGroupsAt(setting);
      var standard := BucketMember("standard-main-web-bucket-view-create", web, At(groups, "standard"), Append);
      infra.Record(standard);
      var full := BucketMember("full-main-web-bucket-admin", web, At(groups, "full"), Mutate);
      infra.Record(full);
      Appended4(c0, viewer, server, standard, full);
    }

    /** The four grants on one upload bucket (driver.py:447-472). */
    method GrantUploadBucket(bname: string, bucket: string)
      requires Valid()
      modifies this, infra
      ensures Valid()
      ensures infra.calls == old(infra.calls) + UploadBucketCalls(setting, bname, bucket)
      ensures Snapshot() == AccessAll(setting, old(Snapshot()), UploadBucketReads)
    {
      ghost var c0 := infra.calls;
      ghost var k0 := Snapshot();
      AccessAll3(setting, k0, MainUploadAccount, AccessLevelGroups, AccessGroup);
      var account := GetMainUploadAccount();
      var creator := BucketMember("main-upload-service-account-" + bname + "-bucket-creator", bucket, account, Mutate);
      infra.Record(creator);
      var groups := GetAccessLevelGroups();
      LevelGroupsAt(setting);
      var full := BucketMember("full-" + bname + "-bucket-admin", bucket, At(groups, "full"), Mutate);
      infra.Record(full);
      var standard := BucketMember("standard-" + bname + "-bucket-viewer", bucket, At(groups, "standard"), Read);
      infra.Record(standard);
      var ag := GetAccessGroup();
      var viewer := BucketMember("access-group-" + bname + "-bucket-viewer", bucket, ag, Read);
      infra.Record(viewer);
      Appended4(c0, creator, full, standard, viewer);
    }

    method SetupMainUploadBucketsPermissions()
      requires Valid()
      modifies this, infra
      ensures Valid()
      ensures infra.calls == old(infra.calls) + UploadCalls(setting)
      ensures Snapshot() == AccessAll(setting, old(Snapshot()), UploadReads)
    {
      ghost var k0 := Snapshot();
      var buckets := GetMainUploadBuckets();
      AccessAll1(setting, k0, MainUploadBuckets);
      ghost var k1 := Snapshot();
      var ub := buckets;
      UploadBucketsNonEmpty(setting.config.additionalUploadBuckets);
      AccessAllAgain(setting, k1, UploadBucketReads);
      ghost var c0 := infra.calls;
      ghost var css := UploadPieces(setting);
      var i := 0;
      while i < |ub|
        invariant 0 <= i <= |ub|
        invariant Valid()
        invariant infra.calls == c0 + Concat(css[..i])
        invariant Snapshot() == if i == 0 then k1 else AccessAll(setting, k1, UploadBucketReads)
      {
        GrantUploadBucket(ub[i].0, ub[i].1);
        ConcatStep(css, i);
        AppendAssoc(c0, Concat(css[..i]), css[i]);
        i := i + 1;
      }
      ConcatAll(css);
      AccessAllAppend(setting, k0, [MainUploadBuckets], UploadBucketReads);
    }

    /** The four admin grants on one test bucket (driver.py:531-546). */
    method GrantTestBucket(bname: string, bucket: string)
      requires Valid()
      modifies this, infra
      ensures Valid()
      ensures infra.calls == old(infra.calls) + TestBucketCalls(setting, bname, bucket)
      ensures Snapshot() == AccessAll(setting, old(Snapshot()), [AccessGroup, AccessLevelGroups])
    {
      ghost var c0 := infra.calls;
      ghost var k0 := Snapshot();
      AccessAll2(setting, k0, AccessGroup, AccessLevelGroups);
      var ag := GetAccessGroup();
      var groups := GetAccessLevelGroups();
      LevelGroupsAt(setting);
      var a := BucketMember("access-group-" + bname + "-bucket-admin", bucket, ag, Mutate);
      infra.Record(a);
      var t := BucketMember("test-" + bname + "-bucket-admin", bucket, At(groups, "test"), Mutate);
      infra.Record(t);
      var st := BucketMember("standard-" + bname + "-bucket-admin", bucket, At(groups, "standard"), Mutate);
      infra.Record(st);
      var f := BucketMember("full-" + bname + "-bucket-admin", bucket, At(groups, "full"), Mutate);
      infra.Record(f);
      Appended4(c0, a, t, st, f);
    }

    method SetupTestBucketsPermissions()
      requires Valid()
      modifies this, infra
      ensures Valid()
      ensures infra.calls == old(infra.calls) + TestCalls(setting)
      ensures Snapshot() == AccessAll(setting, old(Snapshot()), TestReads)
    {
      ghost var k0 := Snapshot();
      GrantTestBuckets();
      ghost var k1 := Snapshot();
      var webAgain := GetTestWebBucket();
      AccessAll1(setting, k1, TestWebBucket);
      AccessAllAppend(setting, k0, TestBucketsReads, [TestWebBucket]);
      infra.Record(BucketMember("web-server-test-web-bucket-viewer", webAgain, WebServerServiceAccount, Read));
    }

    /** The four admin grants on each of the five test buckets, bucket by bucket. */
    method GrantTestBuckets()
      requires Valid()
      modifies this, infra
      ensures Valid()
      ensures infra.calls == old(infra.calls) + Concat(TestPieces(setting))
      ensures Snapshot() == AccessAll(setting, old(Snapshot()), TestBucketsReads)
    {
      ghost var k0 := Snapshot();
      var buckets := TestBucketList();
      ghost var k2 := Snapshot();
      AccessAllAgain(setting, k2, [AccessGroup, AccessLevelGroups]);
      ghost var c0 := infra.calls;
      ghost var css := TestPieces(setting);
      var i := 0;
      while i < |buckets|
        invariant 0 <= i <= |buckets|
        invariant Valid()
        invariant infra.calls == c0 + Concat(css[..i])
        invariant Snapshot() == if i == 0 then k2 else AccessAll(setting, k2, [AccessGroup, AccessLevelGroups])
      {
        GrantTestBucket(buckets[i].0, buckets[i].1);
        ConcatStep(css, i);
        AppendAssoc(c0, Concat(css[..i]), css[i]);
        i := i + 1;
      }
      ConcatAll(css);
      AccessAllAppend(setting, k0, TestBucketListReads, [AccessGroup, AccessLevelGroups]);
    }

    /** The `buckets` list of `setup_test_buckets_permissions`: the five test buckets, read in turn. */
    method TestBucketList() returns (buckets: seq<(string, string)>)
      requires Valid()
      modifies this, infra
      ensures Valid()
      ensures buckets == TestBuckets()
      ensures infra.calls == old(infra.calls)
      ensures Snapshot() == AccessAll(setting, old(Snapshot()), TestBucketListReads)
    {
      ghost var k0 := Snapshot();
      var test := GetTestBucket();
      var analysis := GetTestAnalysisBucket();
      var tmp := GetTestTmpBucket();
      var web := GetTestWebBucket();
      AccessAll4(setting, k0, TestBucket, TestAnalysisBucket, TestTmpBucket, TestWebBucket);
      ghost var k1 := Snapshot();
      var upload := GetTestUploadBucket();
      AccessAll1(setting, k1, TestUploadBucket);
      AccessAllAppend(setting, k0, [TestBucket, TestAnalysisBucket, TestTmpBucket, TestWebBucket], [TestUploadBucket]);
      assert TestBucketListReads == [TestBucket, TestAnalysisBucket, TestTmpBucket, TestWebBucket] + [TestUploadBucket];
      buckets := [("test", test), ("test-analysis", analysis), ("test-tmp", tmp), ("test-web", web), ("test-upload", upload)];
    }

    method SetupReleaseBucketPermissions()
      requires Valid()
      modifies this, infra
      ensures Valid()
      ensures infra.calls == old(infra.calls) + ReleaseCalls(setting)
      ensures Snapshot() == AccessAll(setting, old(Snapshot()), ReleaseReads)
    {
      ghost var c0 := infra.calls;
      ghost var k0 := Snapshot();
      AccessAll4(setting, k0, ReleaseBucket, AccessGroup, ReleaseAccessGroup, AccessLevelGroups);
      var release := GetReleaseBucket();
      var ag := GetAccessGroup();
      var viewer := BucketMember("access-group-release-bucket-viewer", release, ag, Read);
      infra.Record(viewer);
      var rag := GetReleaseAccessGroup();
      var releaseViewer := BucketMember("release-access-group-release-bucket-viewer", release, rag, Read);
      infra.Record(releaseViewer);
      var groups := GetAccessLevelGroups();
      LevelGroupsAt(setting);
      var full := BucketMember("full-release-bucket-admin", release, At(groups, "full"), Mutate);
      infra.Record(full);
      Appended3(c0, viewer, releaseViewer, full);
    }

    /** `{'access-group': access_group, **access_level_groups}`, which several setups loop over. */
    method KindGroupsInOrder() returns (kinds: seq<(string, string)>)
      requires Valid()
      modifies this, infra
      ensures Valid()
      ensures kinds == KindGroups(setting)
      ensures infra.calls == old(infra.calls)
      ensures Snapshot() == AccessAll(setting, old(Snapshot()), [AccessGroup, AccessLevelGroups])
    {
      AccessAll2(setting, Snapshot(), AccessGroup, AccessLevelGroups);
      var ag := GetAccessGroup();
      var groups := GetAccessLevelGroups();
      kinds := [("access-group", ag)] + groups;
    }

    method SetupGcpRequesterPaysAccess()
      requires Valid() && setting.kind == Gcp
      modifies this, infra
      ensures Valid()
      ensures infra.calls == old(infra.calls) + RequesterPaysCalls(setting)
      ensures Snapshot() == AccessAll(setting, old(Snapshot()), [AccessGroup, AccessLevelGroups])
    {
      var kinds := KindGroupsInOrder();
      ghost var k1 := Snapshot();
      ghost var c0 := infra.calls;
      ghost var css := RequesterPaysPieces(setting);
      var i := 0;
      while i < |kinds|
        invariant 0 <= i <= |kinds|
        invariant Valid()
        invariant infra.calls == c0 + Concat(css[..i])
        invariant Snapshot() == k1
      {
        infra.Record(RequesterPaysCall(kinds[i].0, kinds[i].1));
        ConcatStep(css, i);
        AppendAssoc(c0, Concat(css[..i]), css[i]);
        i := i + 1;
      }
      ConcatAll(css);
    }

    method SetupReleaseIfEnabled()
      requires Valid()
      modifies this, infra
      ensures Valid()
      ensures infra.calls == old(infra.calls) + (if setting.config.enableRelease then ReleaseCalls(setting) else [])
      ensures Snapshot() == AccessAll(setting, old(Snapshot()), if setting.config.enableRelease then ReleaseReads else [])
    {
      if setting.config.enableRelease {
        SetupReleaseBucketPermissions();
      }
    }

    method SetupRequesterPaysOnGcp()
      requires Valid()
      modifies this, infra
      ensures Valid()
      ensures infra.calls == old(infra.calls) + (if setting.kind == Gcp then RequesterPaysCalls(setting) else [])
      ensures Snapshot() == AccessAll(setting, old(Snapshot()), if setting.kind == Gcp then [AccessGroup, AccessLevelGroups] else [])
    {
      if setting.kind == Gcp {
        SetupGcpRequesterPaysAccess();
      }
    }

    method SetupStorage()
      requires Valid()
      modifies this, infra
      ensures Valid()
      ensures infra.calls == old(infra.calls) + StorageCalls(setting)
      ensures Snapshot() == AccessAll(setting, old(Snapshot()), StorageReads(setting))
    {
      if Storage !in setting.components {
        return;
      }
      ghost var c0 := infra.calls;
      ghost var k0 := Snapshot();
      SetupBucketsPermissions();
      ghost var acc := BucketsCalls(setting);
      ghost var seen := BucketsReads(setting);
      SetupReleaseIfEnabled();
      ghost var release := if setting.config.enableRelease then ReleaseCalls(setting) else [];
      AppendAssoc(c0, acc, release);
      acc := acc + release;
      ghost var releaseReads := if setting.config.enableRelease then ReleaseReads else [];
      AccessAllAppend(setting, k0, seen, releaseReads);
      seen := seen + releaseReads;
      SetupRequesterPaysOnGcp();
      ghost var rp := if setting.kind == Gcp then RequesterPaysCalls(setting) else [];
      AppendAssoc(c0, acc, rp);
      acc := acc + rp;
      assert acc == StorageCalls(setting);
      ghost var rpReads := if setting.kind == Gcp then [AccessGroup, AccessLevelGroups] else [];
      AccessAllAppend(setting, k0, seen, rpReads);
      seen := seen + rpReads;
      assert seen == StorageReads(setting);
    }

    /** The bucket grants of `setup_storage`, before release and requester-pays. */
    method SetupBucketsPermissions()
      requires Valid()
      modifies this, infra
      ensures Valid()
      ensures infra.calls == old(infra.calls) + BucketsCalls(setting)
      ensures Snapshot() == AccessAll(setting, old(Snapshot()), BucketsReads(setting))
    {
      ghost var c0 := infra.calls;
      ghost var k0 := Snapshot();
      var ag := GetAccessGroup();
      AccessAll1(setting, k0, AccessGroup);
      ghost var seen := [AccessGroup];
      infra.Record(BucketLister("project-buckets-lister", ag));
      ghost var acc := [BucketLister("project-buckets-lister", AccessGroupId(setting))];
      SetupArchiveBucketPermissions();
      AppendAssoc(c0, acc, ArchiveCalls(setting));
      acc := acc + ArchiveCalls(setting);
      assert infra.calls == c0 + acc;
      AccessAllAppend(setting, k0, seen, [ArchiveBucket, AccessLevelGroups]);
      seen := seen + [ArchiveBucket, AccessLevelGroups];
      SetupMainBucketPermissions();
      AppendAssoc(c0, acc, MainBucketCalls(setting));
      acc := acc + MainBucketCalls(setting);
      assert infra.calls == c0 + acc;
      AccessAllAppend(setting, k0, seen, [MainBucket, AccessGroup, AccessLevelGroups]);
      seen := seen + [MainBucket, AccessGroup, AccessLevelGroups];
      SetupMainTmpBucket();
      AppendAssoc(c0, acc, MainTmpCalls(setting));
      acc := acc + MainTmpCalls(setting);
      assert infra.calls == c0 + acc;
      AccessAllAppend(setting, k0, seen, [MainTmpBucket, AccessLevelGroups]);
      seen := seen + [MainTmpBucket, AccessLevelGroups];
      SetupMainAnalysisBucket();
      AppendAssoc(c0, acc, MainAnalysisCalls(setting));
      acc := acc + MainAnalysisCalls(setting);
      assert infra.calls == c0 + acc;
      AccessAllAppend(setting, k0, seen, [MainAnalysisBucket, AccessGroup, AccessLevelGroups]);
      seen := seen + [MainAnalysisBucket, AccessGroup, AccessLevelGroups];
      SetupMainWebBucketPermissions();
      AppendAssoc(c0, acc, MainWebCalls(setting));
      acc := acc + MainWebCalls(setting);
      assert infra.calls == c0 + acc;
      AccessAllAppend(setting, k0, seen, [MainWebBucket, AccessGroup, AccessLevelGroups]);
      seen := seen + [MainWebBucket, AccessGroup, AccessLevelGroups];
      SetupMainUploadBucketsPermissions();
      AppendAssoc(c0, acc, UploadCalls(setting));
      acc := acc + UploadCalls(setting);
      assert infra.calls == c0 + acc;
      AccessAllAppend(setting, k0, seen, UploadReads);
      seen := seen + UploadReads;
      SetupTestBucketsPermissions();
      AppendAssoc(c0, acc, TestCalls(setting));
      acc := acc + TestCalls(setting);
      assert infra.calls == c0 + acc;
      assert acc == BucketsCalls(setting);
      AccessAllAppend(setting, k0, seen, TestReads);
      seen := seen + TestReads;
      assert seen == BucketsReads(setting);
    }

    // -------------------------------------------------------------------
    // Hail (driver.py:639-690)

    method SetupHailBucketPermissions()
      requires Valid() && HailOk(setting)
      modifies this, infra
      ensures Valid()
      ensures infra.calls == old(infra.calls) + HailBucketCalls(setting)
      ensures Snapshot() == AccessAll(setting, old(Snapshot()), [HailBucket])
    {
      ghost var k0 := Snapshot();
      AccessAll1(setting, k0, HailBucket);
      var hail := HailAccountsByLevel(setting).value;
      ghost var c0 := infra.calls;
      ghost var css := HailBucketPieces(setting);
      var i := 0;
      while i < |hail|
        invariant 0 <= i <= |hail|
        invariant Valid()
        invariant infra.calls == c0 + Concat(css[..i])
        invariant Snapshot() == if i == 0 then k0 else Access(setting, k0, HailBucket)
      {
        var bucket := GetHailBucket();
        infra.Record(BucketMember("hail-service-account-" + hail[i].0 + "-hail-bucket-admin", bucket, hail[i].1, Mutate));
        ConcatStep(css, i);
        AppendAssoc(c0, Concat(css[..i]), css[i]);
        i := i + 1;
      }
      ConcatAll(css);
      var bucket := GetHailBucket();
      infra.Record(BucketMember("analysis-runner-hail-bucket-admin", bucket, AnalysisRunnerServiceAccount, Mutate));
    }

    method SetupHailWheelsBucketPermissions()
      requires Valid() && HailOk(setting)
      modifies this, infra
      ensures Valid()
      ensures infra.calls == old(infra.calls) + WheelsCalls(setting)
      ensures Snapshot() == AccessAll(setting, old(Snapshot()), [AccessGroup])
    {
      AccessAll1(setting, Snapshot(), AccessGroup);
      var ag := GetAccessGroup();
      ghost var k1 := Snapshot();
      var keys := [("access-group", ag)] + HailAccountsByLevel(setting).value;
      assert keys == AccessAndHail(setting);
      ghost var c0 := infra.calls;
      ghost var css := WheelsPieces(setting);
      var i := 0;
      while i < |keys|
        invariant 0 <= i <= |keys|
        invariant Valid()
        invariant infra.calls == c0 + Concat(css[..i])
        invariant Snapshot() == k1
      {
        infra.Record(BucketMember(keys[i].0 + "-hail-wheels-viewer", HailWheelBucket, keys[i].1, Read));
        ConcatStep(css, i);
        AppendAssoc(c0, Concat(css[..i]), css[i]);
        i := i + 1;
      }
      ConcatAll(css);
    }

    method SetupHail()
      requires Valid() && HailOk(setting)
      modifies this, infra
      ensures Valid()
      ensures infra.calls == old(infra.calls) + HailCalls(setting)
      ensures Snapshot() == AccessAll(setting, old(Snapshot()), [HailBucket, AccessGroup])
    {
      ghost var c0 := infra.calls;
      ghost var k0 := Snapshot();
      SetupHailBucketPermissions();
      SetupHailWheelsBucketPermissions();
      AppendAssoc(c0, HailBucketCalls(setting), WheelsCalls(setting));
      AccessAllAppend(setting, k0, [HailBucket], [AccessGroup]);
    }

    // -------------------------------------------------------------------
    // Cromwell (driver.py:703-807)

    method GcpSetupCromwell()
      requires Valid() && HailOk(setting) && setting.kind == Gcp
      modifies this, infra
      ensures Valid()
      ensures infra.calls == old(infra.calls) + GcpCromwellCalls(setting)
      ensures Snapshot() == AccessAll(setting, old(Snapshot()), [CromwellAccounts])
    {
      ghost var k0 := Snapshot();
      var hail := HailAccountsByLevel(setting).value;
      ghost var c0 := infra.calls;
      ghost var css := CromwellAccessPieces(setting);
      var i := 0;
      while i < |hail|
        invariant 0 <= i <= |hail|
        invariant Valid()
        invariant infra.calls == c0 + Concat(css[..i])
        invariant Snapshot() == k0
      {
        infra.Record(GroupMember("hail-service-account-" + hail[i].0 + "-cromwell-access", GroupId(CromwellAccessGroupId), hail[i].1));
        ConcatStep(css, i);
        AppendAssoc(c0, Concat(css[..i]), css[i]);
        i := i + 1;
      }
      ConcatAll(css);
      RecordLifescienceRunners();
      AppendAssoc(c0, Concat(css), Concat(LifesciencePieces(setting)));
    }

    /** The second loop of `gcp_setup_cromwell`: each Cromwell account may run Life Sciences workflows. */
    method RecordLifescienceRunners()
      requires Valid()
      modifies this, infra
      ensures Valid()
      ensures infra.calls == old(infra.calls) + Concat(LifesciencePieces(setting))
      ensures Snapshot() == AccessAll(setting, old(Snapshot()), [CromwellAccounts])
    {
      ghost var c1 := infra.calls;
      AccessAll1(setting, Snapshot(), CromwellAccounts);
      var accounts := GetCromwellAccounts();
      ghost var k1 := Snapshot();
      assert accounts == CromwellList(setting);
      ghost var lss := LifesciencePieces(setting);
      var j := 0;
      while j < |accounts|
        invariant 0 <= j <= |accounts|
        invariant Valid()
        invariant infra.calls == c1 + Concat(lss[..j])
        invariant Snapshot() == k1
      {
        infra.Record(LifescienceRunner("cromwell-service-account-" + accounts[j].0 + "-workflows-runner", accounts[j].1));
        ConcatStep(lss, j);
        AppendAssoc(c1, Concat(lss[..j]), lss[j]);
        j := j + 1;
      }
      ConcatAll(lss);
    }

    method GcpSetupCromwellOnGcp()
      requires Valid() && HailOk(setting)
      modifies this, infra
      ensures Valid()
      ensures infra.calls == old(infra.calls) + (if setting.kind == Gcp then GcpCromwellCalls(setting) else [])
      ensures Snapshot() == AccessAll(setting, old(Snapshot()), if setting.kind == Gcp then [CromwellAccounts] else [])
    {
      if setting.kind == Gcp {
        GcpSetupCromwell();
      }
    }

    method SetupCromwellMachineAccounts()
      requires Valid() && HailOk(setting)
      modifies this, infra
      ensures Valid()
      ensures infra.calls == old(infra.calls) + CromwellMachineCalls(setting)
      ensures Snapshot() == AccessAll(setting, old(Snapshot()), CromwellMachineReads(setting))
    {
      ghost var k0 := Snapshot();
      AccessAll1(setting, k0, CromwellAccounts);
      var accounts := GetCromwellAccounts();
      ghost var k1 := Snapshot();
      assert accounts == CromwellList(setting);
      ghost var c0 := infra.calls;
      ghost var css := CromwellAccountPieces(setting);
      var i := 0;
      while i < |accounts|
        invariant 0 <= i <= |accounts|
        invariant Valid()
        invariant infra.calls == c0 + Concat(css[..i])
        invariant Snapshot() == k1
      {
        var (al, account) := accounts[i];
        ghost var before := infra.calls;
        var self := MachineAccountUser("cromwell-service-account-" + al + "-service-account-user", account, account);
        infra.Record(self);
        var runner := MachineAccountUser("cromwell-runner-" + al + "-service-account-user", account, CromwellRunnerAccount);
        infra.Record(runner);
        Appended2(before, self, runner);
        ConcatStep(css, i);
        AppendAssoc(c0, Concat(css[..i]), css[i]);
        i := i + 1;
      }
      ConcatAll(css);
      GcpSetupCromwellOnGcp();
      AppendAssoc(c0, Concat(css), if setting.kind == Gcp then GcpCromwellCalls(setting) else []);
      AccessAllAppend(setting, k0, [CromwellAccounts], if setting.kind == Gcp then [CromwellAccounts] else []);
    }

    /** One iteration of `setup_cromwell_credentials` (driver.py:741-772). */
    method SetupCromwellCredential(al: string, account: string)
      requires Valid() && HailOk(setting)
      modifies infra
      ensures Valid()
      ensures infra.calls == old(infra.calls) + CredentialCalls(setting, al, account)
      ensures infra.resources == old(infra.resources)
    {
      ghost var c0 := infra.calls;
      var secret := infra.CreateSecret(CromwellSecretName(al), Some(AnalysisRunnerProject));
      var credentials := infra.GetCredentialsForMachineAccount(CromwellKeyName(al), account);
      var version := SecretVersion("cromwell-service-account-" + al + "-secret-version", secret, credentials);
      infra.Record(version);
      var accessor := SecretMember("cromwell-service-account-" + al + "-secret-accessor", secret, AnalysisRunnerServiceAccount, Accessor, None);
      infra.Record(accessor);
      assert infra.calls == c0 + [NewSecret(CromwellSecretName(al), Some(AnalysisRunnerProject)), Credentials(CromwellKeyName(al), account), version, accessor];
      if HailAccounts in setting.components {
        var hail := HailAccountsByLevel(setting).value;
        infra.Record(SecretMember("cromwell-service-account-" + al + "-self-accessor", secret, At(hail, al), Accessor, Some(AnalysisRunnerProject)));
      }
    }

    method SetupCromwellCredentials()
      requires Valid() && HailOk(setting)
      modifies this, infra
      ensures Valid()
      ensures infra.calls == old(infra.calls) + CredentialsCalls(setting)
      ensures Snapshot() == AccessAll(setting, old(Snapshot()), [CromwellAccounts])
    {
      AccessAll1(setting, Snapshot(), CromwellAccounts);
      var accounts := GetCromwellAccounts();
      ghost var k1 := Snapshot();
      assert accounts == CromwellList(setting);
      ghost var c0 := infra.calls;
      ghost var css := CredentialsPieces(setting);
      var i := 0;
      while i < |accounts|
        invariant 0 <= i <= |accounts|
        invariant Valid()
        invariant infra.calls == c0 + Concat(css[..i])
        invariant Snapshot() == k1
      {
        SetupCromwellCredential(accounts[i].0, accounts[i].1);
        ConcatStep(css, i);
        AppendAssoc(c0, Concat(css[..i]), css[i]);
        i := i + 1;
      }
      ConcatAll(css);
    }

    method SetupCromwell()
      requires Valid() && HailOk(setting)
      modifies this, infra
      ensures Valid()
      ensures infra.calls == old(infra.calls) + CromwellCalls(setting)
      ensures Snapshot() == AccessAll(setting, old(Snapshot()), CromwellReads(setting))
    {
      if Cromwell !in setting.components {
        return;
      }
      ghost var c0 := infra.calls;
      ghost var k0 := Snapshot();
      SetupCromwellMachineAccounts();
      SetupCromwellCredentials();
      AppendAssoc(c0, CromwellMachineCalls(setting), CredentialsCalls(setting));
      AccessAllAppend(setting, k0, CromwellMachineReads(setting), [CromwellAccounts]);
    }

    // -------------------------------------------------------------------
    // Spark (driver.py:812-857)

    method GcpSetupSpark(spark: seq<(string, string)>)
      requires Valid() && HailOk(setting) && spark == DataprocList(setting)
      modifies infra
      ensures Valid()
      ensures infra.calls == old(infra.calls) + Concat(SparkWorkerPieces(setting)) + Concat(SparkHailPieces(setting))
      ensures infra.resources == old(infra.resources)
    {
      ghost var c0 := infra.calls;
      ghost var css := SparkWorkerPieces(setting);
      var i := 0;
      while i < |spark|
        invariant 0 <= i <= |spark|
        invariant Valid()
        invariant infra.calls == c0 + Concat(css[..i])
        invariant infra.resources == old(infra.resources)
      {
        infra.Record(DataprocRole("dataproc-service-account-" + spark[i].0 + "-dataproc-worker", spark[i].1, "worker"));
        ConcatStep(css, i);
        AppendAssoc(c0, Concat(css[..i]), css[i]);
        i := i + 1;
      }
      ConcatAll(css);
      ghost var c1 := infra.calls;
      var hail := HailAccountsByLevel(setting).value;
      ghost var hss := SparkHailPieces(setting);
      var j := 0;
      while j < |hail|
        invariant 0 <= j <= |hail|
        invariant Valid()
        invariant infra.calls == c1 + Concat(hss[..j])
        invariant infra.resources == old(infra.resources)
      {
        ghost var before := infra.calls;
        var admin := DataprocRole("hail-service-account-" + hail[j].0 + "-dataproc-admin", hail[j].1, "admin");
        infra.Record(admin);
        var worker := DataprocRole("hail-service-account-" + hail[j].0 + "-dataproc-worker", hail[j].1, "worker");
        infra.Record(worker);
        Appended2(before, admin, worker);
        ConcatStep(hss, j);
        AppendAssoc(c1, Concat(hss[..j]), hss[j]);
        j := j + 1;
      }
      ConcatAll(hss);
    }

    /** Each hail account may act as the spark account of its level (driver.py:817-824). */
    method SparkUserGrants(spark: seq<(string, string)>)
      requires Valid() && HailOk(setting) && spark == DataprocList(setting)
      modifies infra
      ensures Valid()
      ensures infra.calls == old(infra.calls) + Concat(SparkUserPieces(setting))
      ensures infra.resources == old(infra.resources)
    {
      var hail := HailAccountsByLevel(setting).value;
      ghost var c0 := infra.calls;
      ghost var css := SparkUserPieces(setting);
      var i := 0;
      while i < |hail|
        invariant 0 <= i <= |hail|
        invariant Valid()
        invariant infra.calls == c0 + Concat(css[..i])
        invariant infra.resources == old(infra.resources)
      {
        infra.Record(MachineAccountUser("hail-service-account-" + hail[i].0 + "-dataproc-service-account-user", At(spark, hail[i].0), hail[i].1));
        ConcatStep(css, i);
        AppendAssoc(c0, Concat(css[..i]), css[i]);
        i := i + 1;
      }
      ConcatAll(css);
    }

    method GcpSetupSparkOnGcp(spark: seq<(string, string)>)
      requires Valid() && HailOk(setting) && spark == DataprocList(setting)
      modifies infra
      ensures Valid()
      ensures infra.resources == old(infra.resources)
      ensures infra.calls == old(infra.calls) + (if setting.kind == Gcp then Concat(SparkWorkerPieces(setting)) + Concat(SparkHailPieces(setting)) else [])
    {
      if setting.kind == Gcp {
        GcpSetupSpark(spark);
      }
    }

    method SetupSpark()
      requires Valid() && HailOk(setting)
      modifies this, infra
      ensures Valid()
      ensures infra.calls == old(infra.calls) + SparkCalls(setting)
      ensures Snapshot() == AccessAll(setting, old(Snapshot()), SparkReads(setting))
    {
      if Spark !in setting.components {
        return;
      }
      ghost var c0 := infra.calls;
      AccessAll1(setting, Snapshot(), DataprocAccounts);
      var spark := GetDataprocAccounts();
      assert spark == DataprocList(setting);
      SparkUserGrants(spark);
      GcpSetupSparkOnGcp(spark);
      AppendAssoc(c0, Concat(SparkUserPieces(setting)),
                  if setting.kind == Gcp then Concat(SparkWorkerPieces(setting)) + Concat(SparkHailPieces(setting)) else []);
    }

    // -------------------------------------------------------------------
    // Sample metadata (driver.py:862-967)

    /** Appends a row per service account, named after it, as the two loops of driver.py:938-953 do. */
    static method AppendExtraRows(table: seq<SmRow>, sas: seq<string>, permissions: seq<string>) returns (r: seq<SmRow>)
      ensures r == table + SmExtraRows(sas, permissions)
    {
      r := table;
      var i := 0;
      while i < |sas|
        invariant 0 <= i <= |sas|
        invariant r == table + SmExtraRows(sas[..i], permissions)
      {
        r := r + [SmRow(NameFromExternalSa(sas[i]), sas[i], permissions)];
        assert SmExtraRows(sas[..i + 1], permissions) == SmExtraRows(sas[..i], permissions) + [SmRow(NameFromExternalSa(sas[i]), sas[i], permissions)];
        i := i + 1;
      }
      assert sas[..i] == sas;
    }

    /** `sm_access_levels`: the five fixed rows, then a row per read-only and per read-write service account. */
    method SmAccessTable() returns (table: seq<SmRow>)
      requires Valid()
      modifies this, infra
      ensures Valid()
      ensures table == SmTable(setting)
      ensures infra.calls == old(infra.calls)
      ensures Snapshot() == AccessAll(setting, old(Snapshot()), [AccessGroup, AccessLevelGroups])
    {
      AccessAll2(setting, Snapshot(), AccessGroup, AccessLevelGroups);
      var ag := GetAccessGroup();
      var groups := GetAccessLevelGroups();
      LevelGroupsAt(setting);
      table := [SmRow("human", ag, [SmMainRead, SmTestRead, SmTestWrite]),
                SmRow("test", At(groups, "test"), [SmMainRead, SmTestRead, SmTestWrite]),
                SmRow("standard", At(groups, "standard"), [SmMainRead, SmMainWrite]),
                SmRow("full", At(groups, "full"), SampleMetadataPermissions),
                SmRow("analysis-runner-logger", AnalysisRunnerLoggerServiceAccount, SampleMetadataPermissions)];
      table := AppendExtraRows(table, setting.config.smReadOnlySas, [SmMainRead]);
      table := AppendExtraRows(table, setting.config.smReadWriteSas, [SmMainRead, SmMainWrite]);
    }

    /** The memberships of one row of the table, one per permission it lists. */
    method GrantSmRow(row: SmRow)
      requires Valid()
      modifies this, infra
      ensures Valid()
      ensures infra.calls == old(infra.calls) + SmRowCalls(setting, row)
      ensures Snapshot() == AccessAll(setting, old(Snapshot()), SmRowReads(row))
    {
      ghost var c0 := infra.calls;
      ghost var k0 := Snapshot();
      if |row.permissions| > 0 {
        AccessAll1(setting, k0, SampleMetadataGroups);
      }
      ghost var css := SmRowPieces(setting, row);
      var j := 0;
      while j < |row.permissions|
        invariant 0 <= j <= |row.permissions|
        invariant Valid()
        invariant infra.calls == c0 + Concat(css[..j])
        invariant Snapshot() == if j == 0 then k0 else Access(setting, k0, SampleMetadataGroups)
      {
        var kind := row.permissions[j];
        var groups := GetSampleMetadataGroups();
        infra.Record(GroupMember("sample-metadata-" + kind + "-" + row.name + "-access-level-group-membership", GroupId(At(groups, kind)), row.member));
        ConcatStep(css, j);
        AppendAssoc(c0, Concat(css[..j]), css[j]);
        j := j + 1;
      }
      ConcatAll(css);
    }

    method SetupSampleMetadataAccessPermissions()
      requires Valid()
      modifies this, infra
      ensures Valid()
      ensures infra.calls == old(infra.calls) + SmAccessCalls(setting)
      ensures Snapshot() == AccessAll(setting, old(Snapshot()), SmAccessReads(setting))
    {
      if SampleMetadata !in setting.components {
        return;
      }
      ghost var k0 := Snapshot();
      var table := SmAccessTable();
      GrantSmRows(table);
      AccessAllAppend(setting, k0, [AccessGroup, AccessLevelGroups], [SampleMetadataGroups]);
      assert [AccessGroup, AccessLevelGroups] + [SampleMetadataGroups] == SmAccessReads(setting);
    }

    /** The memberships of every row of the table, row by row. */
    method GrantSmRows(table: seq<SmRow>)
      requires Valid() && table == SmTable(setting)
      modifies this, infra
      ensures Valid()
      ensures infra.calls == old(infra.calls) + Concat(SmAccessPieces(setting))
      ensures Snapshot() == AccessAll(setting, old(Snapshot()), [SampleMetadataGroups])
    {
      ghost var k1 := Snapshot();
      AccessAll1(setting, k1, SampleMetadataGroups);
      ghost var k2 := Access(setting, k1, SampleMetadataGroups);
      assert SampleMetadataGroups in k2.cached;
      assert |table[0].permissions| > 0 by {
        assert table[0] == SmBaseRows(setting)[0];
      }
      ghost var c0 := infra.calls;
      ghost var css := SmAccessPieces(setting);
      assert |css| == |table|;
      var i := 0;
      while i < |table|
        invariant 0 <= i <= |table|
        invariant Valid()
        invariant infra.calls == c0 + Concat(css[..i])
        invariant Snapshot() == if i == 0 then k1 else k2
      {
        GrantSmRow(table[i]);
        if i == 0 {
          AccessAll1(setting, k1, SampleMetadataGroups);
        } else {
          AccessAllCachedAlready(setting, k2, SmRowReads(table[i]));
        }
        ConcatStep(css, i);
        AppendAssoc(c0, Concat(css[..i]), css[i]);
        i := i + 1;
      }
      assert i == |css|;
      ConcatAll(css);
    }

    method SetupSampleMetadataCloudrunPermissions()
      requires Valid() && setting.kind == Gcp
      modifies this, infra
      ensures Valid()
      ensures infra.calls == old(infra.calls) + SmCloudrunCalls(setting)
      ensures Snapshot() == AccessAll(setting, old(Snapshot()), [SampleMetadataGroups, AccessGroup])
    {
      ghost var k0 := Snapshot();
      InvokeSmGroups();
      AccessAll2(setting, k0, SampleMetadataGroups, AccessGroup);
      AccessAll1(setting, k0, SampleMetadataGroups);
      var ag := GetAccessGroup();
      infra.Record(CloudrunInvoker("sample-metadata-access-group-cloudrun-invoker", SampleMetadataService, SampleMetadataProject, ag));
    }

    /** Each sample-metadata group may invoke the sample-metadata service, group by group. */
    method InvokeSmGroups()
      requires Valid()
      modifies this, infra
      ensures Valid()
      ensures infra.calls == old(infra.calls) + Concat(SmCloudrunPieces(setting))
      ensures Snapshot() == AccessAll(setting, old(Snapshot()), [SampleMetadataGroups])
    {
      AccessAll1(setting, Snapshot(), SampleMetadataGroups);
      var groups := GetSampleMetadataGroups();
      ghost var k1 := Snapshot();
      ghost var c0 := infra.calls;
      ghost var css := SmCloudrunPieces(setting);
      assert |css| == |groups|;
      var i := 0;
      while i < |groups|
        invariant 0 <= i <= |groups|
        invariant Valid()
        invariant infra.calls == c0 + Concat(css[..i])
        invariant Snapshot() == k1
      {
        infra.Record(CloudrunInvoker("sample-metadata-" + groups[i].0 + "-cloudrun-invoker", SampleMetadataService, SampleMetadataProject, groups[i].1));
        ConcatStep(css, i);
        AppendAssoc(c0, Concat(css[..i]), css[i]);
        i := i + 1;
      }
      assert i == |css|;
      ConcatAll(css);
    }

    /** `setup_sample_metadata`: Azure raises NotImplementedError once the memberships are in place. */
    method SetupSampleMetadata() returns (err: Option<DriverError>)
      requires Valid()
      modifies this, infra
      ensures Valid()
      ensures err == SampleMetadataRun(setting).1
      ensures infra.calls == old(infra.calls) + SampleMetadataRun(setting).0
      ensures Snapshot() == AccessAll(setting, old(Snapshot()), SampleMetadataReads(setting))
    {
      if SampleMetadata !in setting.components {
        return None;
      }
      ghost var c0 := infra.calls;
      ghost var k0 := Snapshot();
      SetupSampleMetadataAccessPermissions();
      err := None;
      if setting.kind == Gcp {
        SetupSampleMetadataCloudrunPermissions();
        AppendAssoc(c0, SmAccessCalls(setting), SmCloudrunCalls(setting));
        AccessAllAppend(setting, k0, SmAccessReads(setting), [SampleMetadataGroups, AccessGroup]);
      } else {
        assert SmAccessReads(setting) + [] == SmAccessReads(setting);
        if setting.kind == Azure {
          err := Some(NotImplementedError);
        }
      }
    }

    // -------------------------------------------------------------------
    // Container registry (driver.py:972-1012)

    method SetupRegistryKind(kind: string, account: string)
      modifies infra
      ensures infra.calls == old(infra.calls) + RegistryKindCalls(kind, account)
      ensures infra.resources == old(infra.resources)
    {
      ghost var c0 := infra.calls;
      var ar := RegistryMember(kind + "-images-reader-in-" + AnalysisRunnerProject, AnalysisRunnerRegistry, AnalysisRunnerProject, account, RegistryReader);
      infra.Record(ar);
      var common := RegistryMember(kind + "-images-reader-in-" + CpgCommonProject, CpgCommonRegistry, CpgCommonProject, account, RegistryReader);
      infra.Record(common);
      Appended2(c0, ar, common);
      if kind == "full" || kind == "standard" {
        infra.Record(RegistryMember(kind + "-images-writer-in-cpg-common", CpgCommonRegistry, CpgCommonProject, account, RegistryWriter));
      }
    }

    method SetupContainerRegistry()
      requires Valid()
      modifies this, infra
      ensures Valid()
      ensures infra.calls == old(infra.calls) + RegistryCalls(setting)
      ensures Snapshot() == AccessAll(setting, old(Snapshot()), [AccessGroup, AccessLevelGroups])
    {
      var kinds := KindGroupsInOrder();
      ghost var k1 := Snapshot();
      ghost var c0 := infra.calls;
      ghost var css := RegistryPieces(setting);
      var i := 0;
      while i < |kinds|
        invariant 0 <= i <= |kinds|
        invariant Valid()
        invariant infra.calls == c0 + Concat(css[..i])
        invariant Snapshot() == k1
      {
        SetupRegistryKind(kinds[i].0, kinds[i].1);
        ConcatStep(css, i);
        AppendAssoc(c0, Concat(css[..i]), css[i]);
        i := i + 1;
      }
      ConcatAll(css);
    }

    // -------------------------------------------------------------------
    // Notebooks (driver.py:1017-1048)

    /** `setup_notebook_account`: anything but GCP raises NotImplementedError after the two grants. */
    method SetupNotebookAccount() returns (err: Option<DriverError>)
      requires Valid()
      modifies this, infra
      ensures Valid()
      ensures err == NotebookRun(setting).1
      ensures infra.calls == old(infra.calls) + NotebookRun(setting).0
      ensures Snapshot() == AccessAll(setting, old(Snapshot()), [NotebookAccount, AccessGroup])
    {
      GrantNotebookAccess();
      if setting.kind != Gcp {
        return Some(NotImplementedError);
      }
      var nb := GetNotebookAccount();
      var admin := ProjectRole("notebook-account-compute-admin", nb, "roles/compute.admin", Some(NotebooksProject));
      infra.Record(admin);
      err := None;
    }

    /** The two grants of `setup_notebook_account` that every provider reaches. */
    method GrantNotebookAccess()
      requires Valid()
      modifies this, infra
      ensures Valid()
      ensures infra.calls == old(infra.calls) + NotebookGrants(setting)
      ensures Snapshot() == AccessAll(setting, old(Snapshot()), [NotebookAccount, AccessGroup])
      ensures NotebookAccount in memo
    {
      ghost var c0 := infra.calls;
      AccessAll2(setting, Snapshot(), NotebookAccount, AccessGroup);
      var nb := GetNotebookAccount();
      var ag := GetAccessGroup();
      ghost var k2 := Snapshot();
      assert NotebookAccount in k2.cached && AccessGroup in k2.cached;
      var users := MachineAccountUser("notebook-account-users", nb, ag);
      infra.Record(users);
      var ag2 := GetAccessGroup();
      assert Snapshot() == k2;
      var nb2 := GetNotebookAccount();
      assert Snapshot() == k2;
      var member := GroupMember("notebook-service-account-access-group-member", GroupId(ag2), nb2);
      infra.Record(member);
      Appended2(c0, users, member);
    }

    // -------------------------------------------------------------------
    // Analysis-runner (driver.py:1053-1082)

    /** The config viewers, granting each key's own group (ConfigParser.Intended). */
    method SetupAnalysisRunnerConfigAccess()
      requires Valid() && HailOk(setting)
      modifies this, infra
      ensures Valid()
      ensures infra.calls == old(infra.calls) + ConfigAccessCalls(setting, ConfigParser.Intended)
      ensures Snapshot() == AccessAll(setting, old(Snapshot()), [AccessGroup])
    {
      AccessAll1(setting, Snapshot(), AccessGroup);
      var ag := GetAccessGroup();
      ghost var k1 := Snapshot();
      var keys := [("access-group", ag)] + HailAccountsByLevel(setting).value;
      assert keys == AccessAndHail(setting);
      ghost var c0 := infra.calls;
      ghost var css := ConfigAccessPieces(setting, ConfigParser.Intended);
      var i := 0;
      while i < |keys|
        invariant 0 <= i <= |keys|
        invariant Valid()
        invariant infra.calls == c0 + Concat(css[..i])
        invariant Snapshot() == k1
      {
        infra.Record(BucketMember(keys[i].0 + "-analysis-runner-config-viewer", AnalysisRunnerConfigBucket, keys[i].1, Read));
        ConcatStep(css, i);
        AppendAssoc(c0, Concat(css[..i]), css[i]);
        i := i + 1;
      }
      ConcatAll(css);
    }

    method SetupAnalysisRunnerAccess()
      requires Valid() && setting.kind == Gcp
      modifies this, infra
      ensures Valid()
      ensures infra.calls == old(infra.calls) + [CloudrunInvoker("analysis-runner-access-invoker", AnalysisRunnerCloudRunService, AnalysisRunnerProject, AccessGroupId(setting))]
      ensures Snapshot() == AccessAll(setting, old(Snapshot()), [AccessGroup])
    {
      AccessAll1(setting, Snapshot(), AccessGroup);
      var ag := GetAccessGroup();
      infra.Record(CloudrunInvoker("analysis-runner-access-invoker", AnalysisRunnerCloudRunService, AnalysisRunnerProject, ag));
    }

    method SetupAnalysisRunner()
      requires Valid() && HailOk(setting)
      modifies this, infra
      ensures Valid()
      ensures infra.calls == old(infra.calls) + AnalysisRunnerCalls(setting)
      ensures Snapshot() == AccessAll(setting, old(Snapshot()), AnalysisRunnerReads(setting))
    {
      ghost var c0 := infra.calls;
      ghost var k0 := Snapshot();
      SetupAnalysisRunnerConfigAccess();
      if setting.kind == Gcp {
        SetupAnalysisRunnerAccess();
        AccessAllAppend(setting, k0, [AccessGroup], [AccessGroup]);
      } else {
        assert [AccessGroup] + [] == [AccessGroup];
      }
    }

    // -------------------------------------------------------------------
    // Reference (driver.py:1170-1183)

    method SetupReference()
      requires Valid()
      modifies this, infra
      ensures Valid()
      ensures infra.calls == old(infra.calls) + ReferenceCalls(setting)
      ensures Snapshot() == AccessAll(setting, old(Snapshot()), [AccessGroup, AccessLevelGroups])
    {
      var kinds := KindGroupsInOrder();
      ghost var k1 := Snapshot();
      ghost var c0 := infra.calls;
      ghost var css := ReferencePieces(setting);
      var i := 0;
      while i < |kinds|
        invariant 0 <= i <= |kinds|
        invariant Valid()
        invariant infra.calls == c0 + Concat(css[..i])
        invariant Snapshot() == k1
      {
        infra.Record(BucketMember(kinds[i].0 + "-reference-bucket-viewer", ReferenceBucket, kinds[i].1, Read));
        ConcatStep(css, i);
        AppendAssoc(c0, Concat(css[..i]), css[i]);
        i := i + 1;
      }
      ConcatAll(css);
    }

    // -------------------------------------------------------------------
    // Group caches (driver.py:1087-1165)

    /** `_setup_group_cache_secret`; an empty `secretName` stands for None. */
    method SetupGroupCacheSecret(group: string, key: string, secretName: string) returns (secret: string)
      modifies infra
      ensures secret == SecretHandle(CacheSecretName(key, secretName))
      ensures infra.calls == old(infra.calls) + CacheSecretCalls(group, key, secretName)
      ensures infra.resources == old(infra.resources)
    {
      ghost var c0 := infra.calls;
      var membership := GroupMember(key + "-group-cache-membership", GroupId(group), AccessGroupCacheServiceAccount);
      infra.Record(membership);
      secret := infra.CreateSecret(if secretName == "" then key + "-group-cache-secret" else secretName);
      var manager := SecretMember(key + "-group-cache-secret-version-manager", secret, AccessGroupCacheServiceAccount, Admin, None);
      infra.Record(manager);
      assert infra.calls == c0 + [membership, NewSecret(CacheSecretName(key, secretName), None), manager];
    }

    method SetupAccessGroupCache()
      requires Valid()
      modifies this, infra
      ensures Valid()
      ensures infra.calls == old(infra.calls) + AccessCacheCalls(setting)
      ensures Snapshot() == AccessAll(setting, old(Snapshot()), [AccessGroup, AccessLevelGroups])
    {
      AccessAll2(setting, Snapshot(), AccessGroup, AccessLevelGroups);
      var ag := GetAccessGroup();
      var groups := GetAccessLevelGroups();
      ghost var k2 := Snapshot();
      assert AccessGroup in k2.cached;
      var keys := [("access", ag)] + groups;
      assert keys == OutputKinds(setting);
      ghost var c0 := infra.calls;
      ghost var css := AccessCachePieces(setting);
      assert |css| == |keys|;
      var i := 0;
      while i < |keys|
        invariant 0 <= i <= |keys|
        invariant Valid()
        invariant infra.calls == c0 + Concat(css[..i])
        invariant Snapshot() == k2
      {
        var key := keys[i].0;
        var cacheGroup := GetAccessGroup();
        var secret := SetupGroupCacheSecret(cacheGroup, key, "");
        ghost var mid := infra.calls;
        var accessor := SecretMember("analysis-runner-" + key + "-group-cache-secret-accessor", secret, AnalysisRunnerServiceAccount, Accessor, None);
        infra.Record(accessor);
        AppendAssoc(c0 + Concat(css[..i]), CacheSecretCalls(AccessGroupId(setting), key, ""), [accessor]);
        ConcatStep(css, i);
        AppendAssoc(c0, Concat(css[..i]), css[i]);
        i := i + 1;
      }
      assert i == |css|;
      ConcatAll(css);
    }

    method SetupWebAccessGroupCache()
      requires Valid()
      modifies this, infra
      ensures Valid()
      ensures infra.calls == old(infra.calls) + WebCacheCalls(setting)
      ensures Snapshot() == AccessAll(setting, old(Snapshot()), [WebAccessGroup])
    {
      ghost var c0 := infra.calls;
      AccessAll1(setting, Snapshot(), WebAccessGroup);
      var wag := GetWebAccessGroup();
      var secret := SetupGroupCacheSecret(wag, "web-access", "");
      var accessor := SecretMember("web-server-web-access-group-cache-secret-accessor", secret, WebServerServiceAccount, Accessor, None);
      infra.Record(accessor);
      AppendAssoc(c0, CacheSecretCalls(WebAccessGroupId(setting), "web-access", ""), [accessor]);
    }

    method SetupSampleMetadataAccessSecrets()
      requires Valid()
      modifies this, infra
      ensures Valid()
      ensures infra.calls == old(infra.calls) + SmSecretCalls(setting)
      ensures Snapshot() == AccessAll(setting, old(Snapshot()), [SampleMetadataGroups])
    {
      AccessAll1(setting, Snapshot(), SampleMetadataGroups);
      var groups := GetSampleMetadataGroups();
      ghost var k1 := Snapshot();
      ghost var c0 := infra.calls;
      ghost var css := SmSecretPieces(setting);
      var i := 0;
      while i < |groups|
        invariant 0 <= i <= |groups|
        invariant Valid()
        invariant infra.calls == c0 + Concat(css[..i])
        invariant Snapshot() == k1
      {
        var (key, group) := groups[i];
        var secret := SetupGroupCacheSecret(group, "sample-metadata-" + key, setting.config.dataset + "-sample-metadata-" + key + "-members-cache");
        var accessor := SecretMember("sample-metadata-" + key + "-api-secret-accessor", secret, SampleMetadataApiServiceAccount, Accessor, None);
        infra.Record(accessor);
        AppendAssoc(c0 + Concat(css[..i]), CacheSecretCalls(group, "sample-metadata-" + key, SmSecretName(setting, key)), [accessor]);
        ConcatStep(css, i);
        AppendAssoc(c0, Concat(css[..i]), css[i]);
        i := i + 1;
      }
      ConcatAll(css);
    }

    method SetupGroupCaches()
      requires Valid()
      modifies this, infra
      ensures Valid()
      ensures infra.calls == old(infra.calls) + GroupCacheCalls(setting)
      ensures Snapshot() == AccessAll(setting, old(Snapshot()), GroupCacheReads)
    {
      ghost var c0 := infra.calls;
      ghost var k0 := Snapshot();
      SetupAccessGroupCache();
      SetupWebAccessGroupCache();
      AppendAssoc(c0, AccessCacheCalls(setting), WebCacheCalls(setting));
      AccessAllAppend(setting, k0, [AccessGroup, AccessLevelGroups], [WebAccessGroup]);
      SetupSampleMetadataAccessSecrets();
      AppendAssoc(c0, AccessCacheCalls(setting) + WebCacheCalls(setting), SmSecretCalls(setting));
      AccessAllAppend(setting, k0, [AccessGroup, AccessLevelGroups] + [WebAccessGroup], [SampleMetadataGroups]);
    }

    // -------------------------------------------------------------------
    // main (driver.py:128-155)

    method SetupHailIfEnabled()
      requires Valid() && HailOk(setting)
      modifies this, infra
      ensures Valid()
      ensures infra.calls == old(infra.calls) + (if HailAccounts in setting.components then HailCalls(setting) else [])
      ensures Snapshot() == AccessAll(setting, old(Snapshot()), if HailAccounts in setting.components then [HailBucket, AccessGroup] else [])
    {
      if HailAccounts in setting.components {
        SetupHail();
      }
    }

    method SetupNotebooksIfEnabled() returns (err: Option<DriverError>)
      requires Valid()
      modifies this, infra
      ensures Valid()
      ensures var nb := if Notebooks in setting.components then NotebookRun(setting) else ([], None);
              err == nb.1 && infra.calls == old(infra.calls) + nb.0
      ensures Snapshot() == AccessAll(setting, old(Snapshot()), if Notebooks in setting.components then [NotebookAccount, AccessGroup] else [])
    {
      err := None;
      if Notebooks in setting.components {
        err := SetupNotebookAccount();
      }
    }

    method SetupContainerRegistryIfEnabled()
      requires Valid()
      modifies this, infra
      ensures Valid()
      ensures infra.calls == old(infra.calls) + (if ContainerRegistry in setting.components then RegistryCalls(setting) else [])
      ensures Snapshot() == AccessAll(setting, old(Snapshot()), if ContainerRegistry in setting.components then [AccessGroup, AccessLevelGroups] else [])
    {
      if ContainerRegistry in setting.components {
        SetupContainerRegistry();
      }
    }

    method SetupAnalysisRunnerIfEnabled()
      requires Valid() && HailOk(setting)
      modifies this, infra
      ensures Valid()
      ensures infra.calls == old(infra.calls) + (if AnalysisRunner in setting.components then AnalysisRunnerCalls(setting) else [])
      ensures Snapshot() == AccessAll(setting, old(Snapshot()), if AnalysisRunner in setting.components then AnalysisRunnerReads(setting) else [])
    {
      if AnalysisRunner in setting.components {
        SetupAnalysisRunner();
      }
    }

    method SetupComputeComponents()
      requires Valid() && HailOk(setting)
      modifies this, infra
      ensures Valid()
      ensures infra.calls == old(infra.calls) + ComputeCalls(setting)
      ensures Snapshot() == AccessAll(setting, old(Snapshot()), ComputeReads(setting))
    {
      ghost var c0 := infra.calls;
      ghost var k0 := Snapshot();
      SetupHailIfEnabled();
      ghost var acc := if HailAccounts in setting.components then HailCalls(setting) else [];
      ghost var seen: seq<Property> := if HailAccounts in setting.components then [HailBucket, AccessGroup] else [];
      SetupCromwell();
      AppendAssoc(c0, acc, CromwellCalls(setting));
      AccessAllAppend(setting, k0, seen, CromwellReads(setting));
      acc := acc + CromwellCalls(setting);
      seen := seen + CromwellReads(setting);
      SetupSpark();
      AppendAssoc(c0, acc, SparkCalls(setting));
      AccessAllAppend(setting, k0, seen, SparkReads(setting));
    }

    method SetupSharedAccess()
      requires Valid() && HailOk(setting)
      modifies this, infra
      ensures Valid()
      ensures infra.calls == old(infra.calls) + SharedCalls(setting)
      ensures Snapshot() == AccessAll(setting, old(Snapshot()), SharedReads(setting))
    {
      ghost var c0 := infra.calls;
      ghost var k0 := Snapshot();
      SetupContainerRegistryIfEnabled();
      ghost var acc := if ContainerRegistry in setting.components then RegistryCalls(setting) else [];
      ghost var seen: seq<Property> := if ContainerRegistry in setting.components then [AccessGroup, AccessLevelGroups] else [];
      SetupAnalysisRunnerIfEnabled();
      ghost var ar := if AnalysisRunner in setting.components then AnalysisRunnerCalls(setting) else [];
      ghost var arReads: seq<Property> := if AnalysisRunner in setting.components then AnalysisRunnerReads(setting) else [];
      AppendAssoc(c0, acc, ar);
      AccessAllAppend(setting, k0, seen, arReads);
      acc := acc + ar;
      seen := seen + arReads;
      SetupReference();
      AppendAssoc(c0, acc, ReferenceCalls(setting));
      AccessAllAppend(setting, k0, seen, [AccessGroup, AccessLevelGroups]);
      acc := acc + ReferenceCalls(setting);
      seen := seen + [AccessGroup, AccessLevelGroups];
      SetupGroupCaches();
      AppendAssoc(c0, acc, GroupCacheCalls(setting));
      AccessAllAppend(setting, k0, seen, GroupCacheReads);
    }

    method MainFromNotebooks() returns (err: Option<DriverError>)
      requires Valid() && HailOk(setting)
      modifies this, infra
      ensures Valid()
      ensures err == MainTail(setting).1 && infra.calls == old(infra.calls) + MainTail(setting).0
      ensures Snapshot() == AccessAll(setting, old(Snapshot()), MainTailReads(setting))
    {
      ghost var c0 := infra.calls;
      ghost var k0 := Snapshot();
      err := SetupNotebooksIfEnabled();
      ghost var seen: seq<Property> := if Notebooks in setting.components then [NotebookAccount, AccessGroup] else [];
      if err.Some? {
        assert seen + [] == seen;
        return;
      }
      ghost var nb := if Notebooks in setting.components then NotebookRun(setting) else ([], None);
      SetupSharedAccess();
      AppendAssoc(c0, nb.0, SharedCalls(setting));
      AccessAllAppend(setting, k0, seen, SharedReads(setting));
      assert [] + SharedReads(setting) == SharedReads(setting);
    }

    method MainAfterAccessGroups() returns (err: Option<DriverError>)
      requires Valid() && HailOk(setting)
      modifies this, infra
      ensures Valid()
      ensures err == MainAfterGroups(setting).1 && infra.calls == old(infra.calls) + MainAfterGroups(setting).0
      ensures Snapshot() == AccessAll(setting, old(Snapshot()), MainAfterGroupsReads(setting))
    {
      ghost var c0 := infra.calls;
      ghost var k0 := Snapshot();
      SetupStorage();
      err := SetupSampleMetadata();
      ghost var acc := StorageCalls(setting);
      AppendAssoc(c0, acc, SampleMetadataRun(setting).0);
      AccessAllAppend(setting, k0, StorageReads(setting), SampleMetadataReads(setting));
      acc := acc + SampleMetadataRun(setting).0;
      ghost var seen := StorageReads(setting) + SampleMetadataReads(setting);
      if err.Some? {
        MainAfterGroupsReadsStop(setting);
        return;
      }
      SetupComputeComponents();
      AppendAssoc(c0, acc, ComputeCalls(setting));
      AccessAllAppend(setting, k0, seen, ComputeReads(setting));
      acc := acc + ComputeCalls(setting);
      seen := seen + ComputeReads(setting);
      err := MainFromNotebooks();
      AppendAssoc(c0, acc, MainTail(setting).0);
      AccessAllAppend(setting, k0, seen, MainTailReads(setting));
      MainAfterGroupsReadsGo(setting);
    }

    /** `main`: the access groups, then each enabled component in turn; the first error raised ends the run. */
    method RunMain() returns (err: Option<DriverError>)
      requires Valid()
      modifies this, infra
      ensures Valid()
      ensures err == MainRun(setting).1
      ensures infra.calls == old(infra.calls) + MainRun(setting).0
      ensures Snapshot() == AccessAll(setting, old(Snapshot()), MainReads(setting))
      ensures infra.resources == old(infra.resources) + CreationsOf(setting, FirstReads(old(memo).Keys, MainReads(setting)))
      ensures forall p :: p in memo <==> p in old(memo) || p in MainReads(setting)
      ensures Distinct(FirstReads(old(memo).Keys, MainReads(setting)))
    {
      ghost var c0 := infra.calls;
      ghost var k0 := Snapshot();
      AccessAllFirstReads(setting, k0, MainReads(setting));
      AccessAllCached(setting, k0, MainReads(setting));
      FirstReadsOnce(k0.cached, MainReads(setting));
      err := SetupAccessGroups();
      if err.Some? {
        assert AccessGroupsReads(setting) + [] == AccessGroupsReads(setting);
        return;
      }
      ghost var first := AccessGroupsCalls(setting, WorkingAccounts(setting).value);
      err := MainAfterAccessGroups();
      AppendAssoc(c0, first, MainAfterGroups(setting).0);
      AccessAllAppend(setting, k0, AccessGroupsReads(setting), MainAfterGroupsReads(setting));
    }
  }
}
