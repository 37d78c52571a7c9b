// `storage_visualization/disk_usage.py`: per-folder disk usage counters of
// a dataset's buckets, each blob counted in every folder above it.
module DiskUsage {
  import opened Wrappers
  import opened Strings

  /**
   * `BUCKET_SUFFIXES`. The archive bucket is deliberately not listed:
   * listing it is expensive for its storage class.
   */
  const BucketSuffixes: seq<string> :=
    ["main", "main-analysis", "main-tmp", "main-upload", "main-web",
     "test", "test-analysis", "test-tmp", "test-upload", "test-web"]

  /** The storage classes `STORAGE_COST_MONTHLY_PER_GB_SYDNEY` prices; the prices are left out. */
  const PricedClasses: set<string> := {"STANDARD", "NEARLINE", "COLDLINE", "ARCHIVE"}

  /** A listed blob: its name within the bucket, its size in bytes and its storage class. */
  datatype Blob = Blob(name: string, size: nat, storageClass: string)

  /** What stops `main`: a blob of a storage class with no price. */
  datatype UsageError = KeyError(storageClass: string)

  /**
   * `aggregate_level`: the blob's Hail table ('.ht', looked for first) or
   * matrix table ('.mt') folder, else its folder; '' for a blob at the root.
   */
  function AggregateLevel(name: string): (r: string)
    ensures StartsWith(name, r)
    ensures Find(name, ".ht/").Some? ==> r == name[..Find(name, ".ht/").value + 3]
    ensures Find(name, ".ht/").None? && Find(name, ".mt/").Some? ==> r == name[..Find(name, ".mt/").value + 3]
    ensures Find(name, ".ht/").None? && Find(name, ".mt/").None? ==>
              if '/' in name then r == name[..RFindChar(name, '/').value] else r == ""
  {
    match Find(name, ".ht/")
    case Some(i) => name[..i + 3]
    case None =>
      match Find(name, ".mt/")
      case Some(i) => name[..i + 3]
      case None =>
        match RFindChar(name, '/')
        case Some(i) => name[..i]
        case None => ""
  }

  /** A blob in a plain folder is aggregated at that folder (the 'filename.bam' doctest). */
  lemma AggregateLevelFolder(folder: string, file: string)
    requires '/' !in file
    requires Find(folder + "/" + file, ".ht/").None? && Find(folder + "/" + file, ".mt/").None?
    ensures AggregateLevel(folder + "/" + file) == folder
  {
    RFindLast(folder, '/', file);
  }

  /** A blob inside a Hail table is aggregated at the table (the 'hail_table.ht' doctest). */
  lemma AggregateLevelTable(table: string, rest: string)
    requires SepSafe(table, ".ht/")
    ensures AggregateLevel(table + ".ht/" + rest) == table + ".ht"
  {
    FindAfterSafe(table, ".ht/", rest);
    var name := table + ".ht/" + rest;
    assert name[..|table| + 3] == table + ".ht";
  }

  /** A blob inside a matrix table, with no '.ht/' in its name, is aggregated at the matrix table. */
  lemma AggregateLevelMatrixTable(table: string, rest: string)
    requires SepSafe(table, ".mt/") && Find(table + ".mt/" + rest, ".ht/").None?
    ensures AggregateLevel(table + ".mt/" + rest) == table + ".mt"
  {
    FindAfterSafe(table, ".mt/", rest);
    var name := table + ".mt/" + rest;
    assert name[..|table| + 3] == table + ".mt";
  }

  /** A blob at the root has the empty level (the 'file_in_root.cram' doctest). */
  lemma AggregateLevelRoot(name: string)
    requires '/' !in name
    ensures AggregateLevel(name) == ""
  {
    NotContainsChar(name, ".ht/", 3);
    NotContainsChar(name, ".mt/", 3);
  }

  // ---------------------------------------------------------------------
  // The folder walk

  predicate IsFolder(folder: string)
  {
    folder == "" || folder[0] == '/'
  }

  /** The folders the inner `while True` loop visits from `folder`: each one with its last '/...' cut, down to ''. */
  function Walk(folder: string): (w: seq<string>)
    requires IsFolder(folder)
    ensures |w| >= 1 && w[0] == folder && w[|w| - 1] == ""
    ensures forall j :: 0 <= j < |w| - 1 ==> |w[j]| > 0 && w[j][0] == '/'
    ensures forall j :: 0 <= j < |w| ==> StartsWith(folder, w[j])
    decreases |folder|
  {
    if folder == "" then [""]
    else
      var up := folder[..RFindChar(folder, '/').value];
      var rest := Walk(up);
      assert forall j :: 0 <= j < |rest| ==> StartsWith(folder, rest[j]) by {
        forall j | 0 <= j < |rest| ensures StartsWith(folder, rest[j]) {
          assert StartsWith(up, rest[j]);
          assert folder[..|rest[j]|] == up[..|rest[j]|];
        }
      }
      [folder] + rest
  }

  /** The folder walk visits strictly shorter folders: every folder at most once. */
  lemma {:induction false} WalkShrinks(folder: string)
    requires IsFolder(folder)
    ensures forall i, j :: 0 <= i < j < |Walk(folder)| ==> |Walk(folder)[j]| < |Walk(folder)[i]|
    decreases |folder|
  {
    if folder != "" {
      var up := folder[..RFindChar(folder, '/').value];
      WalkShrinks(up);
      var w := Walk(folder);
      assert w == [folder] + Walk(up);
      forall i, j | 0 <= i < j < |w|
        ensures |w[j]| < |w[i]|
      {
        if i == 0 {
          assert StartsWith(up, w[j]);
        }
      }
    }
  }

  /**
   * A `defaultdict(lambda: defaultdict(int))` of counters per path; a
   * missing path or counter reads as 0.
   */
  type Stats = map<string, map<string, int>>

  function Get(stats: Stats, path: string, key: string): int
  {
    if path in stats && key in stats[path] then stats[path][key] else 0
  }

  /** What one blob adds to a counter of each folder it is in. */
  function Inc(blob: Blob, key: string): int
  {
    (if key == "size" then blob.size else 0) +
    (if key == blob.storageClass + "_bytes" then blob.size else 0) +
    (if key == "num_blobs" then 1 else 0)
  }

  /** The 'size', '{class}_bytes' and 'num_blobs' updates at one path. */
  function Bump(stats: Stats, path: string, blob: Blob): (r: Stats)
    ensures forall p, k :: Get(r, p, k) == Get(stats, p, k) + (if p == path then Inc(blob, k) else 0)
  {
    var c0 := if path in stats then stats[path] else map[];
    var c1 := c0["size" := (if "size" in c0 then c0["size"] else 0) + blob.size];
    var cls := blob.storageClass + "_bytes";
    var c2 := c1[cls := (if cls in c1 then c1[cls] else 0) + blob.size];
    var c3 := c2["num_blobs" := (if "num_blobs" in c2 then c2["num_blobs"] else 0) + 1];
    stats[path := c3]
  }

  function PathOf(bucket: string, folder: string): string
  {
    "gs://" + bucket + folder
  }

  /** The updates at each folder of a walk, in turn. */
  function AddAlong(stats: Stats, bucket: string, folders: seq<string>, blob: Blob): Stats
    decreases |folders|
  {
    if |folders| == 0 then stats
    else AddAlong(Bump(stats, PathOf(bucket, folders[0]), blob), bucket, folders[1..], blob)
  }

  /** The paths of a bucket's folders. */
  function Paths(bucket: string, folders: seq<string>): (r: seq<string>)
    ensures |r| == |folders| && forall j :: 0 <= j < |r| ==> r[j] == PathOf(bucket, folders[j])
    decreases |folders|
  {
    if |folders| == 0 then [] else [PathOf(bucket, folders[0])] + Paths(bucket, folders[1..])
  }

  /** Along folders of strictly decreasing length, each path on the walk gains one blob's worth and every other path nothing. */
  lemma {:induction false} AddAlongOnce(stats: Stats, bucket: string, folders: seq<string>, blob: Blob, p: string, k: string)
    requires forall i, j :: 0 <= i < j < |folders| ==> |folders[j]| < |folders[i]|
    ensures Get(AddAlong(stats, bucket, folders, blob), p, k) ==
            Get(stats, p, k) + (if p in Paths(bucket, folders) then Inc(blob, k) else 0)
    decreases |folders|
  {
    if |folders| > 0 {
      var rest := folders[1..];
      var first := PathOf(bucket, folders[0]);
      AddAlongOnce(Bump(stats, first, blob), bucket, rest, blob, p, k);
      assert Paths(bucket, folders) == [first] + Paths(bucket, rest);
      assert forall j :: 0 <= j < |rest| ==> |Paths(bucket, rest)[j]| < |first|;
    }
  }

  /** One blob: counted in its aggregate folder and every folder above it, up to the bucket itself. */
  function AddBlob(stats: Stats, bucket: string, blob: Blob): Result<Stats, UsageError>
  {
    if blob.storageClass !in PricedClasses then Err(KeyError(blob.storageClass))
    else Ok(AddAlong(stats, bucket, Walk("/" + AggregateLevel(blob.name)), blob))
  }

  /** The blobs of one bucket, in listing order. */
  function AddBlobs(stats: Stats, bucket: string, blobs: seq<Blob>): Result<Stats, UsageError>
    decreases |blobs|
  {
    if |blobs| == 0 then Ok(stats)
    else
      match AddBlobs(stats, bucket, blobs[..|blobs| - 1])
      case Err(e) => Err(e)
      case Ok(s) => AddBlob(s, bucket, blobs[|blobs| - 1])
  }

  /** The buckets `main` lists: 'cpg-{dataset}-{suffix}', only the 'test...' ones at the test access level. */
  function Buckets(dataset: string, accessLevel: string): seq<string>
  {
    BucketsOf(dataset, accessLevel, BucketSuffixes)
  }

  function BucketsOf(dataset: string, accessLevel: string, suffixes: seq<string>): (r: seq<string>)
    ensures forall b :: b in r <==>
              exists s :: s in suffixes && b == "cpg-" + dataset + "-" + s && (accessLevel != "test" || StartsWith(s, "test"))
    decreases |suffixes|
  {
    if |suffixes| == 0 then []
    else
      var s := suffixes[|suffixes| - 1];
      var init := BucketsOf(dataset, accessLevel, suffixes[..|suffixes| - 1]);
      assert forall x :: x in suffixes <==> x in suffixes[..|suffixes| - 1] || x == s;
      if accessLevel == "test" && !StartsWith(s, "test") then init
      else init + ["cpg-" + dataset + "-" + s]
  }

  /** `main`'s counters over all its buckets; `listing` stands for `storage_client.list_blobs`. */
  function Aggregate(buckets: seq<string>, listing: string -> seq<Blob>): Result<Stats, UsageError>
    decreases |buckets|
  {
    if |buckets| == 0 then Ok(map[])
    else
      match Aggregate(buckets[..|buckets| - 1], listing)
      case Err(e) => Err(e)
      case Ok(s) => AddBlobs(s, buckets[|buckets| - 1], listing(buckets[|buckets| - 1]))
  }

  // ---------------------------------------------------------------------
  // Bucket totals

  /**
   * A priced blob adds its size, its class bytes and one blob to every
   * folder path from its aggregate level up to the bucket, once each, and
   * changes no other path.
   */
  lemma AddBlobAncestors(stats: Stats, bucket: string, blob: Blob, p: string, k: string)
    requires blob.storageClass in PricedClasses
    ensures var walk := Walk("/" + AggregateLevel(blob.name));
            AddBlob(stats, bucket, blob).Ok? &&
            Get(AddBlob(stats, bucket, blob).value, p, k) ==
              Get(stats, p, k) + (if p in Paths(bucket, walk) then Inc(blob, k) else 0)
  {
    var walk := Walk("/" + AggregateLevel(blob.name));
    WalkShrinks("/" + AggregateLevel(blob.name));
    AddAlongOnce(stats, bucket, walk, blob, p, k);
  }

  /** The bucket path of `bucket` is reached from a folder of `other` only at the end of its own walk. */
  lemma RootPath(bucket: string, other: string, folder: string)
    requires '/' !in bucket && '/' !in other
    requires folder == "" || folder[0] == '/'
    ensures PathOf(other, folder) == PathOf(bucket, "") <==> folder == "" && other == bucket
  {
    if folder != "" {
      var p := PathOf(other, folder);
      var q := PathOf(bucket, "");
      assert p[5 + |other|] == '/';
      if |p| == |q| {
        assert q[5 + |other|] == bucket[|other|];
      }
    }
    if folder == "" && PathOf(other, folder) == PathOf(bucket, "") {
      assert PathOf(other, folder)[5..] == other;
      assert PathOf(bucket, "")[5..] == bucket;
    }
  }

  /** A walk adds to a counter of `bucket`'s path once, if it is `bucket`'s walk, and not at all otherwise. */
  lemma {:induction false} AddAlongRoot(stats: Stats, bucket: string, other: string, folders: seq<string>, blob: Blob, key: string)
    requires '/' !in bucket && '/' !in other && |folders| >= 1 && folders[|folders| - 1] == ""
    requires forall j :: 0 <= j < |folders| - 1 ==> |folders[j]| > 0 && folders[j][0] == '/'
    ensures Get(AddAlong(stats, other, folders, blob), PathOf(bucket, ""), key) ==
            Get(stats, PathOf(bucket, ""), key) + (if other == bucket then Inc(blob, key) else 0)
    decreases |folders|
  {
    RootPath(bucket, other, folders[0]);
    if |folders| > 1 {
      AddAlongRoot(Bump(stats, PathOf(other, folders[0]), blob), bucket, other, folders[1..], blob, key);
    }
  }

  function SumInc(blobs: seq<Blob>, key: string): int
    decreases |blobs|
  {
    if |blobs| == 0 then 0 else SumInc(blobs[..|blobs| - 1], key) + Inc(blobs[|blobs| - 1], key)
  }

  function TotalSize(blobs: seq<Blob>): nat
    decreases |blobs|
  {
    if |blobs| == 0 then 0 else TotalSize(blobs[..|blobs| - 1]) + blobs[|blobs| - 1].size
  }

  /** A bucket's blobs add their totals to the bucket path's counters; another bucket's add nothing. */
  lemma {:induction false} AddBlobsRoot(stats: Stats, bucket: string, other: string, blobs: seq<Blob>, key: string)
    requires '/' !in bucket && '/' !in other && AddBlobs(stats, other, blobs).Ok?
    ensures Get(AddBlobs(stats, other, blobs).value, PathOf(bucket, ""), key) ==
            Get(stats, PathOf(bucket, ""), key) + (if other == bucket then SumInc(blobs, key) else 0)
    decreases |blobs|
  {
    if |blobs| > 0 {
      var n := |blobs| - 1;
      AddBlobsRoot(stats, bucket, other, blobs[..n], key);
      var s := AddBlobs(stats, other, blobs[..n]).value;
      var folder := "/" + AggregateLevel(blobs[n].name);
      AddAlongRoot(s, bucket, other, Walk(folder), blobs[n], key);
    }
  }

  /** With every blob of a priced class, 'size' adds up the sizes and 'num_blobs' counts the blobs. */
  lemma {:induction false} SumIncMeaning(blobs: seq<Blob>)
    requires forall j :: 0 <= j < |blobs| ==> blobs[j].storageClass in PricedClasses
    ensures SumInc(blobs, "size") == TotalSize(blobs)
    ensures SumInc(blobs, "num_blobs") == |blobs|
    decreases |blobs|
  {
    if |blobs| > 0 {
      var n := |blobs| - 1;
      SumIncMeaning(blobs[..n]);
      var c := blobs[n].storageClass;
      assert |c + "_bytes"| > 9;
    }
  }

  lemma AddBlobsPriced(stats: Stats, bucket: string, blobs: seq<Blob>)
    requires AddBlobs(stats, bucket, blobs).Ok?
    ensures forall j :: 0 <= j < |blobs| ==> blobs[j].storageClass in PricedClasses
  {
    forall j | 0 <= j < |blobs|
      ensures blobs[j].storageClass in PricedClasses
    {
      AddBlobsPricedAt(stats, bucket, blobs, j);
    }
  }

  /** Blob `j` of a listing that counts without error is of a priced class. */
  lemma {:induction false} AddBlobsPricedAt(stats: Stats, bucket: string, blobs: seq<Blob>, j: nat)
    requires j < |blobs| && AddBlobs(stats, bucket, blobs).Ok?
    ensures blobs[j].storageClass in PricedClasses
    decreases |blobs|
  {
    var n := |blobs| - 1;
    if j < n {
      AddBlobsLast(stats, bucket, blobs);
      AddBlobsPricedAt(stats, bucket, blobs[..n], j);
      assert blobs[..n][j] == blobs[j];
    } else {
      AddBlobsLast(stats, bucket, blobs);
      assert j == n;
    }
  }

  /** A listing that counts without error counted its earlier blobs without error and ends in a priced blob. */
  lemma AddBlobsLast(stats: Stats, bucket: string, blobs: seq<Blob>)
    requires |blobs| > 0 && AddBlobs(stats, bucket, blobs).Ok?
    ensures AddBlobs(stats, bucket, blobs[..|blobs| - 1]).Ok?
    ensures blobs[|blobs| - 1].storageClass in PricedClasses
  {
    var init := AddBlobs(stats, bucket, blobs[..|blobs| - 1]);
    assert init.Ok? && AddBlob(init.value, bucket, blobs[|blobs| - 1]).Ok?;
  }

  /** Over distinct buckets without '/', each bucket path's counters add up over that bucket's blobs alone. */
  lemma {:induction false} AggregateRoot(buckets: seq<string>, listing: string -> seq<Blob>, k: nat, key: string)
    requires k < |buckets| && Aggregate(buckets, listing).Ok?
    requires forall j :: 0 <= j < |buckets| ==> '/' !in buckets[j]
    requires forall i, j :: 0 <= i < j < |buckets| ==> buckets[i] != buckets[j]
    ensures Get(Aggregate(buckets, listing).value, PathOf(buckets[k], ""), key) == SumInc(listing(buckets[k]), key)
    decreases |buckets|
  {
    var n := |buckets| - 1;
    var init := buckets[..n];
    var s := if n == 0 then map[] else Aggregate(init, listing).value;
    if n > 0 {
      assert Aggregate(init, listing).Ok?;
    }
    AddBlobsRoot(s, buckets[k], buckets[n], listing(buckets[n]), key);
    if k < n {
      AggregateRoot(init, listing, k, key);
    } else {
      AggregateAbsent(init, listing, buckets[k], key);
    }
  }

  /** A path of a bucket not yet listed has no counters. */
  lemma {:induction false} AggregateAbsent(buckets: seq<string>, listing: string -> seq<Blob>, bucket: string, key: string)
    requires Aggregate(buckets, listing).Ok? && bucket !in buckets && '/' !in bucket
    requires forall j :: 0 <= j < |buckets| ==> '/' !in buckets[j]
    ensures Get(Aggregate(buckets, listing).value, PathOf(bucket, ""), key) == 0
    decreases |buckets|
  {
    if |buckets| > 0 {
      var n := |buckets| - 1;
      AggregateAbsent(buckets[..n], listing, bucket, key);
      AddBlobsRoot(Aggregate(buckets[..n], listing).value, bucket, buckets[n], listing(buckets[n]), key);
    }
  }

  /** The listed buckets are distinct and, for a dataset without '/', have no '/'. */
  lemma BucketsWellFormed(dataset: string, accessLevel: string)
    requires '/' !in dataset
    ensures forall j :: 0 <= j < |Buckets(dataset, accessLevel)| ==> '/' !in Buckets(dataset, accessLevel)[j]
    ensures forall i, j :: 0 <= i < j < |Buckets(dataset, accessLevel)| ==>
              Buckets(dataset, accessLevel)[i] != Buckets(dataset, accessLevel)[j]
  {
    var ss := BucketSuffixes;
    assert forall j :: 0 <= j < |ss| ==> '/' !in ss[j];
    assert forall i, j :: 0 <= i < j < |ss| ==> ss[i] != ss[j];
    BucketsOfWellFormed(dataset, accessLevel, ss);
  }

  lemma {:induction false} BucketsOfWellFormed(dataset: string, accessLevel: string, suffixes: seq<string>)
    requires '/' !in dataset
    requires forall j :: 0 <= j < |suffixes| ==> '/' !in suffixes[j]
    requires forall i, j :: 0 <= i < j < |suffixes| ==> suffixes[i] != suffixes[j]
    ensures forall j :: 0 <= j < |BucketsOf(dataset, accessLevel, suffixes)| ==> '/' !in BucketsOf(dataset, accessLevel, suffixes)[j]
    ensures forall i, j :: 0 <= i < j < |BucketsOf(dataset, accessLevel, suffixes)| ==>
              BucketsOf(dataset, accessLevel, suffixes)[i] != BucketsOf(dataset, accessLevel, suffixes)[j]
    decreases |suffixes|
  {
    if |suffixes| > 0 {
      var n := |suffixes| - 1;
      var s := suffixes[n];
      var init := suffixes[..n];
      BucketsOfWellFormed(dataset, accessLevel, init);
      var b := "cpg-" + dataset + "-" + s;
      var prev := BucketsOf(dataset, accessLevel, init);
      if !(accessLevel == "test" && !StartsWith(s, "test")) {
        var pre := "cpg-" + dataset + "-";
        assert b == pre + s;
        forall x | x in prev ensures x != b {
          var t :| t in init && x == "cpg-" + dataset + "-" + t && (accessLevel != "test" || StartsWith(t, "test"));
          assert x == pre + t;
          assert x[|pre|..] == t && b[|pre|..] == s;
          var k :| 0 <= k < n && init[k] == t;
          assert suffixes[k] == t;
        }
        assert '/' !in b;
        var r := prev + [b];
        assert r == BucketsOf(dataset, accessLevel, suffixes);
        forall i, j | 0 <= i < j < |r| ensures r[i] != r[j] {
          if j == |prev| {
            assert r[i] in prev;
          }
        }
      }
    }
  }

  /**
   * The bucket path 'gs://{bucket}' totals its bucket: its 'size' is the
   * sum of the bucket's blob sizes and its 'num_blobs' their number.
   */
  lemma BucketTotals(dataset: string, accessLevel: string, listing: string -> seq<Blob>, k: nat)
    requires '/' !in dataset
    requires k < |Buckets(dataset, accessLevel)| && Aggregate(Buckets(dataset, accessLevel), listing).Ok?
    ensures var bucket := Buckets(dataset, accessLevel)[k];
            var stats := Aggregate(Buckets(dataset, accessLevel), listing).value;
            Get(stats, "gs://" + bucket, "size") == TotalSize(listing(bucket)) &&
            Get(stats, "gs://" + bucket, "num_blobs") == |listing(bucket)|
  {
    var buckets := Buckets(dataset, accessLevel);
    BucketsWellFormed(dataset, accessLevel);
    AggregateRoot(buckets, listing, k, "size");
    AggregateRoot(buckets, listing, k, "num_blobs");
    AggregateListed(buckets, listing, k);
    SumIncMeaning(listing(buckets[k]));
    assert PathOf(buckets[k], "") == "gs://" + buckets[k];
  }

  /** A successful run met only priced blobs in each listed bucket. */
  lemma {:induction false} AggregateListed(buckets: seq<string>, listing: string -> seq<Blob>, k: nat)
    requires k < |buckets| && Aggregate(buckets, listing).Ok?
    ensures forall j :: 0 <= j < |listing(buckets[k])| ==> listing(buckets[k])[j].storageClass in PricedClasses
    decreases |buckets|
  {
    var n := |buckets| - 1;
    if k < n {
      AggregateListed(buckets[..n], listing, k);
    } else {
      var s := if n == 0 then map[] else Aggregate(buckets[..n], listing).value;
      AddBlobsPriced(s, buckets[n], listing(buckets[n]));
    }
  }

  // ---------------------------------------------------------------------
  // `main`, step by step

  /** One blob, as the inner `while True` loop adds it to every folder above it. */
  method CountBlob(stats: Stats, bucket: string, blob: Blob) returns (r: Result<Stats, UsageError>)
    ensures r == AddBlob(stats, bucket, blob)
  {
    var folder := "/" + AggregateLevel(blob.name);
    ghost var start := folder;
    var acc := stats;
    while true
      invariant IsFolder(folder)
      invariant blob.storageClass in PricedClasses ==>
                  AddAlong(acc, bucket, Walk(folder), blob) == AddAlong(stats, bucket, Walk(start), blob)
      decreases |folder|
    {
      acc := Bump(acc, PathOf(bucket, folder), blob);
      if blob.storageClass !in PricedClasses {
        return Err(KeyError(blob.storageClass));
      }
      if folder == "" {
        break;
      }
      folder := folder[..RFindChar(folder, '/').value];
    }
    return Ok(acc);
  }

  lemma {:induction false} AddBlobsKeepsError(stats: Stats, bucket: string, blobs: seq<Blob>, i: nat)
    requires i <= |blobs| && AddBlobs(stats, bucket, blobs[..i]).Err?
    ensures AddBlobs(stats, bucket, blobs) == AddBlobs(stats, bucket, blobs[..i])
    decreases |blobs| - i
  {
    if i < |blobs| {
      assert blobs[..i + 1][..i] == blobs[..i];
      AddBlobsKeepsError(stats, bucket, blobs, i + 1);
    } else {
      assert blobs[..i] == blobs;
    }
  }

  /** The blobs of one bucket, counted one after another; the first unpriced one stops the run. */
  method CountBucket(stats: Stats, bucket: string, blobs: seq<Blob>) returns (r: Result<Stats, UsageError>)
    ensures r == AddBlobs(stats, bucket, blobs)
  {
    var acc := stats;
    for i := 0 to |blobs|
      invariant AddBlobs(stats, bucket, blobs[..i]) == Ok(acc)
    {
      assert blobs[..i + 1][..i] == blobs[..i];
      var next := CountBlob(acc, bucket, blobs[i]);
      if next.Err? {
        AddBlobsKeepsError(stats, bucket, blobs, i + 1);
        return next;
      }
      acc := next.value;
    }
    assert blobs[..|blobs|] == blobs;
    return Ok(acc);
  }

  lemma {:induction false} BucketsOfPrefix(dataset: string, accessLevel: string, suffixes: seq<string>, i: nat)
    requires i <= |suffixes|
    ensures var pre := BucketsOf(dataset, accessLevel, suffixes[..i]);
            var all := BucketsOf(dataset, accessLevel, suffixes);
            |pre| <= |all| && all[..|pre|] == pre
    decreases |suffixes|
  {
    if i < |suffixes| {
      var n := |suffixes| - 1;
      assert suffixes[..n][..i] == suffixes[..i];
      BucketsOfPrefix(dataset, accessLevel, suffixes[..n], i);
    } else {
      assert suffixes[..i] == suffixes;
    }
  }

  lemma {:induction false} AggregateKeepsError(buckets: seq<string>, listing: string -> seq<Blob>, k: nat)
    requires k <= |buckets| && Aggregate(buckets[..k], listing).Err?
    ensures Aggregate(buckets, listing) == Aggregate(buckets[..k], listing)
    decreases |buckets| - k
  {
    if k < |buckets| {
      assert buckets[..k + 1][..k] == buckets[..k];
      AggregateKeepsError(buckets, listing, k + 1);
    } else {
      assert buckets[..k] == buckets;
    }
  }

  /** `main`'s loop over the bucket suffixes, with `listing` standing for the storage client. */
  method DiskUsage(dataset: string, accessLevel: string, listing: string -> seq<Blob>) returns (r: Result<Stats, UsageError>)
    ensures r == Aggregate(Buckets(dataset, accessLevel), listing)
  {
    var suffixes := BucketSuffixes;
    var acc: Stats := map[];
    for i := 0 to |suffixes|
      invariant Aggregate(BucketsOf(dataset, accessLevel, suffixes[..i]), listing) == Ok(acc)
    {
      var suffix := suffixes[i];
      DiskUsageStep(dataset, accessLevel, suffixes, i, listing, acc);
      if accessLevel == "test" && !StartsWith(suffix, "test") {
        continue;
      }
      var bucketName := "cpg-" + dataset + "-" + suffix;
      var next := CountBucket(acc, bucketName, listing(bucketName));
      if next.Err? {
        DiskUsageStopsAtError(dataset, accessLevel, suffixes, i + 1, listing);
        return next;
      }
      acc := next.value;
    }
    assert suffixes[..|suffixes|] == suffixes;
    return Ok(acc);
  }

  /** One more suffix: skipped for a test run that it does not match, otherwise its bucket is counted next. */
  lemma DiskUsageStep(dataset: string, accessLevel: string, suffixes: seq<string>, i: nat,
                      listing: string -> seq<Blob>, acc: Stats)
    requires i < |suffixes|
    requires Aggregate(BucketsOf(dataset, accessLevel, suffixes[..i]), listing) == Ok(acc)
    ensures var b := "cpg-" + dataset + "-" + suffixes[i];
            Aggregate(BucketsOf(dataset, accessLevel, suffixes[..i + 1]), listing) ==
              if accessLevel == "test" && !StartsWith(suffixes[i], "test") then Ok(acc)
              else AddBlobs(acc, b, listing(b))
  {
    assert suffixes[..i + 1][..i] == suffixes[..i];
  }

  /** A bucket that fails to count ends the whole run with its error. */
  lemma DiskUsageStopsAtError(dataset: string, accessLevel: string, suffixes: seq<string>, i: nat,
                              listing: string -> seq<Blob>)
    requires suffixes == BucketSuffixes && i <= |suffixes|
    requires Aggregate(BucketsOf(dataset, accessLevel, suffixes[..i]), listing).Err?
    ensures Aggregate(Buckets(dataset, accessLevel), listing) == Aggregate(BucketsOf(dataset, accessLevel, suffixes[..i]), listing)
  {
    var done := BucketsOf(dataset, accessLevel, suffixes[..i]);
    BucketsOfPrefix(dataset, accessLevel, suffixes, i);
    AggregateKeepsError(Buckets(dataset, accessLevel), listing, |done|);
  }
}
