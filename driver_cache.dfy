// The per-instance `lru_cache` of `CPGInfrastructure`'s resource properties
// (cpg_infra/driver.py:157-283, 395-420, 680-700, 862-887, 1017-1020): which
// cached properties each setup step reads, and what a run of reads creates.
// A property's body, and with it its creations, runs on its first read only;
// driver.dfy proves that each step leaves the recorder's creations and the
// set of cached properties exactly as `AccessAll` says for that step's reads.
module DriverCache {
  import opened Config
  import opened Base
  import opened Infra
  import opened DriverPlan

  /** What the caches have done so far: the creation calls made, and the properties computed. */
  datatype Cache = Cache(created: seq<Call>, cached: set<Property>)

  /** One read of `p`: its body, and so its creations, runs only when `p` is not cached yet. */
  function Access(s: Setting, c: Cache, p: Property): Cache
  {
    if p in c.cached then c else Cache(c.created + CreationCalls(s, p), c.cached + {p})
  }

  /** A run of reads, in order. */
  function AccessAll(s: Setting, c: Cache, ps: seq<Property>): Cache
  {
    if |ps| == 0 then c else Access(s, AccessAll(s, c, ps[..|ps| - 1]), ps[|ps| - 1])
  }

  lemma AccessAll1(s: Setting, c: Cache, a: Property)
    ensures AccessAll(s, c, [a]) == Access(s, c, a)
  {
    assert [a][..0] == [];
  }

  lemma AccessAll2(s: Setting, c: Cache, a: Property, b: Property)
    ensures AccessAll(s, c, [a, b]) == Access(s, Access(s, c, a), b)
  {
    assert [a, b][..1] == [a];
    AccessAll1(s, c, a);
  }

  lemma AccessAll3(s: Setting, c: Cache, a: Property, b: Property, d: Property)
    ensures AccessAll(s, c, [a, b, d]) == Access(s, Access(s, Access(s, c, a), b), d)
  {
    assert [a, b, d][..2] == [a, b];
    AccessAll2(s, c, a, b);
  }

  lemma AccessAll4(s: Setting, c: Cache, a: Property, b: Property, d: Property, e: Property)
    ensures AccessAll(s, c, [a, b, d, e]) == Access(s, Access(s, Access(s, Access(s, c, a), b), d), e)
  {
    assert [a, b, d, e][..3] == [a, b, d];
    AccessAll3(s, c, a, b, d);
  }

  /** Reading `a` and then `b` is reading `a + b`. */
  lemma {:induction false} AccessAllAppend(s: Setting, c: Cache, a: seq<Property>, b: seq<Property>)
    ensures AccessAll(s, AccessAll(s, c, a), b) == AccessAll(s, c, a + b)
    decreases |b|
  {
    if |b| == 0 {
      assert a + b == a;
    } else {
      AccessAllAppend(s, c, a, b[..|b| - 1]);
      assert (a + b)[..|a + b| - 1] == a + b[..|b| - 1];
    }
  }

  /** Reads of properties that are all cached already change nothing. */
  lemma {:induction false} AccessAllCachedAlready(s: Setting, c: Cache, ps: seq<Property>)
    requires forall p :: p in ps ==> p in c.cached
    ensures AccessAll(s, c, ps) == c
    decreases |ps|
  {
    if |ps| > 0 {
      AccessAllCachedAlready(s, c, ps[..|ps| - 1]);
    }
  }

  /** Running the same reads a second time changes nothing. */
  lemma AccessAllAgain(s: Setting, c: Cache, ps: seq<Property>)
    ensures AccessAll(s, AccessAll(s, c, ps), ps) == AccessAll(s, c, ps)
  {
    AccessAllCached(s, c, ps);
    AccessAllCachedAlready(s, AccessAll(s, c, ps), ps);
  }

  /** The properties of `ps` that are not in `cached`, each at its first read, in order. */
  function FirstReads(cached: set<Property>, ps: seq<Property>): seq<Property>
  {
    if |ps| == 0 then []
    else
      var init, p := ps[..|ps| - 1], ps[|ps| - 1];
      FirstReads(cached, init) + (if p in cached || p in init then [] else [p])
  }

  predicate Distinct(ps: seq<Property>)
  {
    forall i, j :: 0 <= i < j < |ps| ==> ps[i] != ps[j]
  }

  /** The creations of each property of `ps`, in order. */
  function CreationsOf(s: Setting, ps: seq<Property>): seq<Call>
  {
    if |ps| == 0 then [] else CreationsOf(s, ps[..|ps| - 1]) + CreationCalls(s, ps[|ps| - 1])
  }

  lemma CreationsOfSnoc(s: Setting, ps: seq<Property>, p: Property)
    ensures CreationsOf(s, ps + [p]) == CreationsOf(s, ps) + CreationCalls(s, p)
  {
    assert (ps + [p])[..|ps|] == ps;
  }

  /** A run of reads caches exactly what was cached before and every property it reads. */
  lemma {:induction false} AccessAllCached(s: Setting, c: Cache, ps: seq<Property>)
    ensures forall q :: q in AccessAll(s, c, ps).cached <==> q in c.cached || q in ps
    decreases |ps|
  {
    if |ps| > 0 {
      var init, p := ps[..|ps| - 1], ps[|ps| - 1];
      assert ps == init + [p];
      AccessAllCached(s, c, init);
      forall q ensures q in ps <==> q in init || q == p {
      }
    }
  }

  /**
   * A run of reads makes the creations of exactly the properties it reads
   * first that were not cached before, in the order of their first reads.
   */
  lemma {:induction false} AccessAllFirstReads(s: Setting, c: Cache, ps: seq<Property>)
    ensures AccessAll(s, c, ps).created == c.created + CreationsOf(s, FirstReads(c.cached, ps))
    decreases |ps|
  {
    if |ps| > 0 {
      var init, p := ps[..|ps| - 1], ps[|ps| - 1];
      AccessAllFirstReads(s, c, init);
      AccessAllCached(s, c, init);
      var before := AccessAll(s, c, init);
      var fr := FirstReads(c.cached, init);
      assert AccessAll(s, c, ps) == Access(s, before, p);
      if p in c.cached || p in init {
        assert fr + [] == fr;
        assert FirstReads(c.cached, ps) == fr;
        assert AccessAll(s, c, ps) == before;
      } else {
        assert FirstReads(c.cached, ps) == fr + [p];
        assert AccessAll(s, c, ps).created == before.created + CreationCalls(s, p);
        CreationsOfSnoc(s, fr, p);
        AppendAssoc(c.created, CreationsOf(s, fr), CreationCalls(s, p));
      }
    } else {
      assert FirstReads(c.cached, ps) == [] && CreationsOf(s, []) == [];
      assert AccessAll(s, c, ps) == c && c.created + [] == c.created;
    }
  }

  /**
   * Each property is read first at most once, only if it was not cached, and
   * every uncached property the run reads is among its first reads: no
   * property's body, and so no property's creations, runs twice.
   */
  lemma {:induction false} FirstReadsOnce(cached: set<Property>, ps: seq<Property>)
    ensures Distinct(FirstReads(cached, ps))
    ensures forall q :: q in FirstReads(cached, ps) <==> q in ps && q !in cached
    decreases |ps|
  {
    if |ps| > 0 {
      var init, p := ps[..|ps| - 1], ps[|ps| - 1];
      assert ps == init + [p];
      forall q ensures q in ps <==> q in init || q == p {
      }
      FirstReadsOnce(cached, init);
      var fr := FirstReads(cached, init);
      if !(p in cached || p in init) {
        var all := fr + [p];
        assert FirstReads(cached, ps) == all;
        assert p !in fr;
        forall i, j | 0 <= i < j < |all| ensures all[i] != all[j] {
          assert all[i] == fr[i];
          if j == |fr| {
            assert all[j] == p && fr[i] in fr;
          } else {
            assert all[j] == fr[j];
          }
        }
      } else {
        assert FirstReads(cached, ps) == fr;
      }
    }
  }

  /** The additional upload buckets' dict always holds 'main-upload', so it is never empty. */
  lemma {:induction false} UploadBucketsNonEmpty(extras: seq<string>)
    ensures |UploadBuckets(extras)| > 0
  {
    if |extras| > 0 {
      var init := UploadBuckets(extras[..|extras| - 1]);
      PutFacts(init, extras[|extras| - 1], BucketHandle(extras[|extras| - 1]));
    }
  }

  // ---------------------------------------------------------------------
  // The cached properties each step reads, in order. A read repeated within
  // one step's body or loop is listed once; a step that runs sub-steps lists
  // their reads in turn, so a property may appear again there, and reading
  // it again changes nothing.

  /** `working_machine_accounts_by_type` reads nothing when the hail accounts are missing. */
  function WorkingReads(s: Setting): seq<Property>
  {
    if HailAccountsByLevel(s).Err? then [] else [DataprocAccounts, CromwellAccounts]
  }

  /** `setup_access_level_group_memberships` reads the level groups once per working account. */
  function LevelMembershipReads(s: Setting): seq<Property>
  {
    WorkingReads(s) + (if WorkingAccounts(s).Ok? && |WorkingAccounts(s).value| > 0 then [AccessLevelGroups] else [])
  }

  function AccessGroupsReads(s: Setting): seq<Property>
  {
    LevelMembershipReads(s)
      + (if WorkingAccounts(s).Err? then []
         else [AccessLevelGroups] + [AccessGroup, AccessLevelGroups] + (if s.kind == Gcp then [AccessGroup] else []))
  }

  lemma AccessGroupsReadsErr(s: Setting)
    requires WorkingAccounts(s).Err?
    ensures AccessGroupsReads(s) == LevelMembershipReads(s)
  {
    assert LevelMembershipReads(s) + [] == LevelMembershipReads(s);
  }

  lemma AccessGroupsReadsOk(s: Setting)
    requires WorkingAccounts(s).Ok?
    ensures AccessGroupsReads(s) == LevelMembershipReads(s) + [AccessLevelGroups] + [AccessGroup, AccessLevelGroups]
                                    + (if s.kind == Gcp then [AccessGroup] else [])
  {
  }

  const UploadBucketReads: seq<Property> := [MainUploadAccount, AccessLevelGroups, AccessGroup]

  /** `setup_main_upload_buckets_permissions`: the dict, then each bucket's grants. */
  const UploadReads: seq<Property> := [MainUploadBuckets] + UploadBucketReads

  const TestBucketListReads: seq<Property> := [TestBucket, TestAnalysisBucket, TestTmpBucket, TestWebBucket, TestUploadBucket]

  /** The five test buckets, then the groups each bucket's grants read. */
  const TestBucketsReads: seq<Property> := TestBucketListReads + [AccessGroup, AccessLevelGroups]

  const TestReads: seq<Property> := TestBucketsReads + [TestWebBucket]

  const ReleaseReads: seq<Property> := [ReleaseBucket, AccessGroup, ReleaseAccessGroup, AccessLevelGroups]

  /** The bucket grants of `setup_storage`, bucket by bucket. */
  function BucketsReads(s: Setting): seq<Property>
  {
    [AccessGroup] + [ArchiveBucket, AccessLevelGroups] + [MainBucket, AccessGroup, AccessLevelGroups]
      + [MainTmpBucket, AccessLevelGroups] + [MainAnalysisBucket, AccessGroup, AccessLevelGroups]
      + [MainWebBucket, AccessGroup, AccessLevelGroups] + UploadReads + TestReads
  }

  function StorageReads(s: Setting): seq<Property>
  {
    if Storage !in s.components then []
    else
      BucketsReads(s)
        + (if s.config.enableRelease then ReleaseReads else [])
        + (if s.kind == Gcp then [AccessGroup, AccessLevelGroups] else [])
  }

  function CromwellMachineReads(s: Setting): seq<Property>
  {
    [CromwellAccounts] + (if s.kind == Gcp then [CromwellAccounts] else [])
  }

  function CromwellReads(s: Setting): seq<Property>
  {
    if Cromwell !in s.components then [] else CromwellMachineReads(s) + [CromwellAccounts]
  }

  function SparkReads(s: Setting): seq<Property>
  {
    if Spark !in s.components then [] else [DataprocAccounts]
  }

  /** One row of the sample-metadata table reads the groups once per permission it lists. */
  function SmRowReads(row: SmRow): seq<Property>
  {
    if |row.permissions| == 0 then [] else [SampleMetadataGroups]
  }

  function SmAccessReads(s: Setting): seq<Property>
  {
    if SampleMetadata !in s.components then [] else [AccessGroup, AccessLevelGroups, SampleMetadataGroups]
  }

  function SampleMetadataReads(s: Setting): seq<Property>
  {
    if SampleMetadata !in s.components then []
    else SmAccessReads(s) + (if s.kind == Gcp then [SampleMetadataGroups, AccessGroup] else [])
  }

  function AnalysisRunnerReads(s: Setting): seq<Property>
  {
    [AccessGroup] + (if s.kind == Gcp then [AccessGroup] else [])
  }

  const GroupCacheReads: seq<Property> := [AccessGroup, AccessLevelGroups] + [WebAccessGroup] + [SampleMetadataGroups]

  function ComputeReads(s: Setting): seq<Property>
  {
    (if HailAccounts in s.components then [HailBucket, AccessGroup] else []) + CromwellReads(s) + SparkReads(s)
  }

  function SharedReads(s: Setting): seq<Property>
  {
    (if ContainerRegistry in s.components then [AccessGroup, AccessLevelGroups] else [])
      + (if AnalysisRunner in s.components then AnalysisRunnerReads(s) else [])
      + [AccessGroup, AccessLevelGroups] + GroupCacheReads
  }

  /** `main` from the notebooks on: the rest is skipped when the notebooks raise. */
  function MainTailReads(s: Setting): seq<Property>
  {
    if Notebooks !in s.components then SharedReads(s)
    else [NotebookAccount, AccessGroup] + (if s.kind != Gcp then [] else SharedReads(s))
  }

  function MainAfterGroupsReads(s: Setting): seq<Property>
  {
    StorageReads(s) + SampleMetadataReads(s)
      + (if SampleMetadataRun(s).1.Some? then [] else ComputeReads(s) + MainTailReads(s))
  }

  lemma MainAfterGroupsReadsStop(s: Setting)
    requires SampleMetadataRun(s).1.Some?
    ensures MainAfterGroupsReads(s) == StorageReads(s) + SampleMetadataReads(s)
  {
    assert StorageReads(s) + SampleMetadataReads(s) + [] == StorageReads(s) + SampleMetadataReads(s);
  }

  lemma MainAfterGroupsReadsGo(s: Setting)
    requires SampleMetadataRun(s).1.None?
    ensures MainAfterGroupsReads(s) == StorageReads(s) + SampleMetadataReads(s) + ComputeReads(s) + MainTailReads(s)
  {
    var a := StorageReads(s) + SampleMetadataReads(s);
    assert a + (ComputeReads(s) + MainTailReads(s)) == a + ComputeReads(s) + MainTailReads(s);
  }

  /** Every cached property `main` reads, in order, up to the first error. */
  function MainReads(s: Setting): seq<Property>
  {
    AccessGroupsReads(s) + (if WorkingAccounts(s).Err? then [] else MainAfterGroupsReads(s))
  }
}
