// `storage_visualization/treemap.py`: the treemap rows built from the
// per-folder counters that the disk usage scan writes, one file per dataset.
module Treemap {
  import opened Wrappers
  import opened Strings

  const RootNode: string := "<root>"

  const BatchBase: string := "https://batch.hail" + ".populationgenomics" + ".org.au/batches/"

  /** `_get_hail_batch_url`: no URL without a (non-empty) batch id; the job page when a job id is given. */
  function HailBatchUrl(batchId: Option<string>, jobId: Option<string>): (r: Option<string>)
    ensures r.Some? <==> batchId.Some? && batchId.value != ""
    ensures r.Some? ==> StartsWith(r.value, BatchBase + batchId.value)
    ensures r.Some? && jobId.None? ==> r.value == BatchBase + batchId.value
  {
    match batchId
    case None => None
    case Some(b) =>
      if b == "" then None
      else
        var base := BatchBase + b;
        match jobId
        case None => Some(base)
        case Some(j) => Some(base + "/jobs/" + j)
  }

  /** The job URL is the batch URL followed by '/jobs/{job}' — an empty job id included, as only the batch id is checked for emptiness. */
  lemma JobUrlExtendsBatchUrl(batchId: string, jobId: string)
    requires batchId != ""
    ensures HailBatchUrl(Some(batchId), Some(jobId)) == Some(HailBatchUrl(Some(batchId), None).value + "/jobs/" + jobId)
    ensures HailBatchUrl(Some(batchId), Some("")).value != HailBatchUrl(Some(batchId), None).value
  {
  }

  // ---------------------------------------------------------------------
  // Input entries

  /** `os.path.basename(path).removesuffix('.json.gz')`: the dataset a missing input stands for. */
  function MissingName(path: string): (r: string)
    ensures '/' !in r
  {
    var base := match RFindChar(path, '/') case Some(i) => path[i + 1..] case None => path;
    if EndsWith(base, ".json.gz") then base[..|base| - 8] else base
  }

  /** An input 'dir/{dataset}.json.gz' stands for the dataset. */
  lemma MissingNameOfPath(dir: string, dataset: string)
    requires '/' !in dataset
    ensures MissingName(dir + "/" + dataset + ".json.gz") == dataset
  {
    var file := dataset + ".json.gz";
    assert '/' !in ".json.gz";
    assert '/' !in file;
    assert dir + "/" + dataset + ".json.gz" == dir + ['/'] + file;
    RFindLast(dir, '/', file);
    var path := dir + ['/'] + file;
    assert path[|dir| + 1..] == file;
    assert file[..|file| - 8] == dataset;
  }

  /** `[A-z0-9-]`: note that 'A'..'z' also takes in the six punctuation characters between 'Z' and 'a'. */
  predicate DatasetChar(c: char)
  {
    'A' <= c <= 'z' || '0' <= c <= '9' || c == '-'
  }

  predicate AllDatasetChars(s: string)
  {
    forall i :: 0 <= i < |s| ==> DatasetChar(s[i])
  }

  /** The group can end before `k` characters: its text is dataset characters, followed by '-main' or '-test'. */
  predicate GroupEndsAt(rest: string, k: int)
  {
    1 <= k <= |rest| && AllDatasetChars(rest[..k]) && (StartsWith(rest[k..], "-main") || StartsWith(rest[k..], "-test"))
  }

  /** The greedy group `([A-z0-9-]+)` before '-(main|test)': the longest one, backtracking from `k` characters. */
  function GreedyGroup(rest: string, k: nat): (r: Option<string>)
    requires k <= |rest|
    ensures r.Some? ==> exists j :: GroupEndsAt(rest, j) && j <= k && r.value == rest[..j] && forall i :: j < i <= k ==> !GroupEndsAt(rest, i)
    ensures r.None? ==> forall i :: 0 <= i <= k ==> !GroupEndsAt(rest, i)
    decreases k
  {
    if k == 0 then None
    else if GroupEndsAt(rest, k) then Some(rest[..k])
    else GreedyGroup(rest, k - 1)
  }

  /**
   * `DATASET_REGEX.search(name).groups()[0]`: at the leftmost position
   * where 'gs://cpg-' begins a match, the greedy group.
   */
  function DatasetOf(name: string, from: nat): (r: Option<string>)
    ensures r.Some? ==> |r.value| >= 1
    decreases |name| - from
  {
    if from + 9 > |name| then None
    else if OccursAt(name, "gs://cpg-", from) && GreedyGroup(name[from + 9..], |name| - from - 9).Some? then
      GreedyGroup(name[from + 9..], |name| - from - 9)
    else DatasetOf(name, from + 1)
  }

  /** `to_path(name).bucket`; a name that is not a 'gs://' path has no bucket. */
  function BucketOf(name: string): (r: Result<string, TreemapError>)
    ensures r.Ok? <==> StartsWith(name, "gs://")
    ensures r.Ok? ==> '/' !in r.value && StartsWith(name, "gs://" + r.value)
  {
    if !StartsWith(name, "gs://") then Err(NotCloudPath(name))
    else
      var rest := name[5..];
      match Find(rest, "/")
      case None =>
        assert '/' !in rest by {
          forall i | 0 <= i < |rest| ensures rest[i] != '/' {
            assert !OccursAt(rest, "/", i);
          }
        }
        assert name == "gs://" + rest;
        Ok(rest)
      case Some(i) =>
        assert '/' !in rest[..i] by {
          forall j | 0 <= j < i ensures rest[j] != '/' {
            assert !OccursAt(rest, "/", j);
          }
        }
        assert name[..5 + i] == "gs://" + rest[..i];
        Ok(rest[..i])
  }

  datatype TreemapError = KeyError(key: string) | ZeroDivision | NotCloudPath(name: string)

  /** The run's options; `accessLevel` is what `get_access_level()` returns. */
  datatype Options = Options(maxDepth: int, groupByDataset: bool, bucketType: Option<string>, accessLevel: string)

  function AccessLevel(options: Options): string
  {
    if options.accessLevel == "test" then "test" else "main"
  }

  /** `name.count('/') - 1`: the slashes of 'gs://' count as one level. */
  function Depth(name: string): int
  {
    CountChar(name, '/') - 1
  }

  /** The three filters, in the order applied: bucket type, depth, then a zero size; `true` keeps the entry. */
  function Kept(name: string, vals: map<string, int>, options: Options): (r: Result<bool, TreemapError>)
    ensures r == Ok(true) ==> Depth(name) <= options.maxDepth && "size" in vals && vals["size"] != 0
    ensures r == Ok(true) && options.bucketType.Some? ==>
              BucketOf(name).Ok? && EndsWith(BucketOf(name).value, "-" + AccessLevel(options) + "-" + options.bucketType.value)
  {
    var bucketOk: Result<bool, TreemapError> :=
      match options.bucketType
      case None => Ok(true)
      case Some(bt) =>
        match BucketOf(name)
        case Err(e) => Err(e)
        case Ok(b) => Ok(EndsWith(b, "-" + AccessLevel(options) + "-" + bt));
    match bucketOk
    case Err(e) => Err(e)
    case Ok(false) => Ok(false)
    case Ok(true) =>
      if Depth(name) > options.maxDepth then Ok(false)
      else if "size" !in vals then Err(KeyError("size"))
      else Ok(vals["size"] != 0)
  }

  /** The name up to its last '/', when that '/' lies beyond 'gs://'. */
  function FolderParent(name: string): (r: Option<string>)
    ensures r.Some? ==> StartsWith(name, r.value) && |r.value| > 5 && CountChar(r.value, '/') + 1 == CountChar(name, '/')
    ensures r.None? ==> RFindChar(name, '/').None? || RFindChar(name, '/').value <= 5
  {
    match RFindChar(name, '/')
    case None => None
    case Some(i) =>
      if i > 5 then
        assert name == name[..i] + ['/'] + name[i + 1..];
        CountCharAppend(name[..i] + ['/'], name[i + 1..], '/');
        CountCharAppend(name[..i], ['/'], '/');
        assert CountChar(name[i + 1..], '/') == 0 by { CountCharAbsent(name[i + 1..], '/'); }
        Some(name[..i])
      else None
  }

  lemma {:induction false} CountCharAppend(a: string, b: string, c: char)
    ensures CountChar(a + b, c) == CountChar(a, c) + CountChar(b, c)
    decreases |a|
  {
    if |a| > 0 {
      assert (a + b)[1..] == a[1..] + b;
      CountCharAppend(a[1..], b, c);
    } else {
      assert a + b == b;
    }
  }

  lemma {:induction false} CountCharAbsent(s: string, c: char)
    requires c !in s
    ensures CountChar(s, c) == 0
    decreases |s|
  {
    if |s| > 0 {
      assert c !in s[1..];
      CountCharAbsent(s[1..], c);
    }
  }

  /** A top-level entry's parent: its dataset when grouping by dataset and the regex finds one, else the root node. */
  function TopParent(name: string, options: Options): (r: string)
    ensures r != RootNode ==> options.groupByDataset && DatasetOf(name, 0) == Some(r)
  {
    var dataset := DatasetOf(name, 0);
    if dataset.Some? && dataset.value != "" && options.groupByDataset then dataset.value else RootNode
  }

  /** A row's numbers before formatting: cost, total size, bytes per storage class, blob count. */
  datatype Row = Row(name: string, parent: string, cost: int, size: int,
                     standard: int, nearline: int, coldline: int, archive: int, numBlobs: int)

  function Val(m: map<string, int>, k: string): int
  {
    if k in m then m[k] else 0
  }

  /**
   * `form_row`: the reads in order — 'size', the hotness division by it,
   * 'monthly_storage_cost', 'num_blobs'; the class byte counts default to 0.
   */
  function FormRow(name: string, parent: string, vals: map<string, int>): (r: Result<Row, TreemapError>)
    ensures r.Ok? <==> "size" in vals && vals["size"] != 0 && "monthly_storage_cost" in vals && "num_blobs" in vals
    ensures r.Ok? ==> r.value.name == name && r.value.parent == parent && r.value.size == vals["size"] &&
                      r.value.numBlobs == vals["num_blobs"] && r.value.standard == Val(vals, "STANDARD_bytes")
    ensures "size" in vals && vals["size"] == 0 ==> r == Err(ZeroDivision)
  {
    if "size" !in vals then Err(KeyError("size"))
    else if vals["size"] == 0 then Err(ZeroDivision)
    else if "monthly_storage_cost" !in vals then Err(KeyError("monthly_storage_cost"))
    else if "num_blobs" !in vals then Err(KeyError("num_blobs"))
    else Ok(Row(name, parent, vals["monthly_storage_cost"], vals["size"], Val(vals, "STANDARD_bytes"),
                Val(vals, "NEARLINE_bytes"), Val(vals, "COLDLINE_bytes"), Val(vals, "ARCHIVE_bytes"), vals["num_blobs"]))
  }

  /** A `defaultdict(int)` once `form_row` has read it: the counters it reads are there, as 0 if never added. */
  function Defaulted(m: map<string, int>): (r: map<string, int>)
    ensures forall k :: Val(r, k) == Val(m, k)
    ensures "size" in r && "monthly_storage_cost" in r && "num_blobs" in r
  {
    m["size" := Val(m, "size")]["monthly_storage_cost" := Val(m, "monthly_storage_cost")]["num_blobs" := Val(m, "num_blobs")]
  }

  /** `acc[k] += v` for each counter of `vals`. */
  function AddValues(acc: map<string, int>, vals: map<string, int>): (r: map<string, int>)
    ensures forall k :: Val(r, k) == Val(acc, k) + Val(vals, k)
  {
    map k | k in acc.Keys + vals.Keys :: Val(acc, k) + Val(vals, k)
  }

  // ---------------------------------------------------------------------
  // The row accumulation

  /** What `prepare_rows_from_input_paths` has built so far; `order` is the datasets' insertion order. */
  datatype Acc = Acc(rows: seq<Row>, root: map<string, int>, order: seq<string>,
                     datasets: map<string, map<string, int>>, missing: seq<string>)

  const Start: Acc := Acc([], map[], [], map[], [])

  function DatasetVals(datasets: map<string, map<string, int>>, d: string): map<string, int>
  {
    if d in datasets then datasets[d] else map[]
  }

  /** One `(name, vals)` entry of an input file. */
  function StepEntry(acc: Acc, name: string, vals: map<string, int>, options: Options): Result<Acc, TreemapError>
  {
    match Kept(name, vals, options)
    case Err(e) => Err(e)
    case Ok(keep) =>
      if !keep then Ok(acc)
      else
        match FolderParent(name)
        case Some(parent) =>
          (match FormRow(name, parent, vals)
           case Err(e) => Err(e)
           case Ok(row) => Ok(acc.(rows := acc.rows + [row])))
        case None =>
          var root := AddValues(acc.root, vals);
          var parent := TopParent(name, options);
          var acc1 :=
            if parent == RootNode then acc.(root := root)
            else
              acc.(root := root,
                   order := if parent in acc.datasets then acc.order else acc.order + [parent],
                   datasets := acc.datasets[parent := AddValues(DatasetVals(acc.datasets, parent), vals)]);
          match FormRow(name, parent, vals)
          case Err(e) => Err(e)
          case Ok(row) => Ok(acc1.(rows := acc.rows + [row]))
  }

  /** The entries of one input file, in the file's order. */
  function StepEntries(acc: Acc, entries: seq<(string, map<string, int>)>, options: Options): Result<Acc, TreemapError>
  {
    FoldEntries(acc, entries, (a: Acc, name: string, vals: map<string, int>) => StepEntry(a, name, vals, options))
  }

  /** Entries folded left to right with `f`; the first error stops the fold. */
  function FoldEntries(acc: Acc, entries: seq<(string, map<string, int>)>, f: (Acc, string, map<string, int>) -> Result<Acc, TreemapError>): Result<Acc, TreemapError>
    decreases |entries|
  {
    if |entries| == 0 then Ok(acc)
    else
      match FoldEntries(acc, entries[..|entries| - 1], f)
      case Err(e) => Err(e)
      case Ok(a) => f(a, entries[|entries| - 1].0, entries[|entries| - 1].1)
  }

  /** One input path; `load` stands for reading the gzipped JSON, `None` when the file does not exist. */
  function StepInput(acc: Acc, path: string, load: string -> Option<seq<(string, map<string, int>)>>, options: Options): Result<Acc, TreemapError>
  {
    match load(path)
    case None => Ok(acc.(missing := acc.missing + [MissingName(path)]))
    case Some(entries) => StepEntries(acc, entries, options)
  }

  function StepInputs(paths: seq<string>, load: string -> Option<seq<(string, map<string, int>)>>, options: Options): Result<Acc, TreemapError>
    decreases |paths|
  {
    if |paths| == 0 then Ok(Start)
    else
      match StepInputs(paths[..|paths| - 1], load, options)
      case Err(e) => Err(e)
      case Ok(a) => StepInput(a, paths[|paths| - 1], load, options)
  }

  /** The per-dataset rows, in the order the datasets were first seen. */
  function DatasetRows(order: seq<string>, datasets: map<string, map<string, int>>): Result<seq<Row>, TreemapError>
  {
    RowsWith(order, (d: string) => FormRow(d, RootNode, Defaulted(DatasetVals(datasets, d))))
  }

  /** One row per name, in order, made by `f`; the first error stops. */
  function RowsWith(order: seq<string>, f: string -> Result<Row, TreemapError>): Result<seq<Row>, TreemapError>
    decreases |order|
  {
    if |order| == 0 then Ok([])
    else
      match RowsWith(order[..|order| - 1], f)
      case Err(e) => Err(e)
      case Ok(rows) =>
        match f(order[|order| - 1])
        case Err(e) => Err(e)
        case Ok(row) => Ok(rows + [row])
  }

  /** `prepare_rows_from_input_paths`: the entry rows, the dataset rows and the root row last; and the missing datasets. */
  function PrepareRows(paths: seq<string>, load: string -> Option<seq<(string, map<string, int>)>>, options: Options): Result<(seq<Row>, seq<string>), TreemapError>
  {
    match StepInputs(paths, load, options)
    case Err(e) => Err(e)
    case Ok(acc) =>
      match DatasetRows(acc.order, acc.datasets)
      case Err(e) => Err(e)
      case Ok(dsRows) =>
        match FormRow(RootNode, "", Defaulted(acc.root))
        case Err(e) => Err(e)
        case Ok(rootRow) => Ok((acc.rows + dsRows + [rootRow], acc.missing))
  }

  // ---------------------------------------------------------------------
  // Reference definitions and what the accumulation means

  /** The entry is kept and has no folder parent: a bucket entry rolled up into the root. */
  predicate TopLevel(name: string, vals: map<string, int>, options: Options)
  {
    Kept(name, vals, options) == Ok(true) && FolderParent(name).None?
  }

  /** The counters of the kept bucket entries, in order. */
  function TopValues(entries: seq<(string, map<string, int>)>, options: Options): seq<map<string, int>>
    decreases |entries|
  {
    if |entries| == 0 then []
    else
      var last := entries[|entries| - 1];
      var init := TopValues(entries[..|entries| - 1], options);
      if TopLevel(last.0, last.1, options) then init + [last.1] else init
  }

  /** The counters of the kept bucket entries grouped under dataset `d`. */
  function DatasetValues(entries: seq<(string, map<string, int>)>, options: Options, d: string): seq<map<string, int>>
    decreases |entries|
  {
    if |entries| == 0 then []
    else
      var last := entries[|entries| - 1];
      var init := DatasetValues(entries[..|entries| - 1], options, d);
      if TopLevel(last.0, last.1, options) && TopParent(last.0, options) == d && d != RootNode then init + [last.1] else init
  }

  /** The names of the kept entries, in order. */
  function KeptNames(entries: seq<(string, map<string, int>)>, options: Options): seq<string>
    decreases |entries|
  {
    if |entries| == 0 then []
    else
      var last := entries[|entries| - 1];
      var init := KeptNames(entries[..|entries| - 1], options);
      if Kept(last.0, last.1, options) == Ok(true) then init + [last.0] else init
  }

  function SumKey(values: seq<map<string, int>>, k: string): int
    decreases |values|
  {
    if |values| == 0 then 0 else SumKey(values[..|values| - 1], k) + Val(values[|values| - 1], k)
  }

  function Names(rows: seq<Row>): (r: seq<string>)
    ensures |r| == |rows| && forall i :: 0 <= i < |rows| ==> r[i] == rows[i].name
    decreases |rows|
  {
    if |rows| == 0 then [] else Names(rows[..|rows| - 1]) + [rows[|rows| - 1].name]
  }

  /** The dataset order lists each dataset with counters once. */
  ghost predicate OrderOk(acc: Acc)
  {
    (forall i, j :: 0 <= i < j < |acc.order| ==> acc.order[i] != acc.order[j]) &&
    (forall d :: d in acc.order <==> d in acc.datasets)
  }

  /** The parent rule: a folder's parent is the folder above; a bucket's is its dataset or the root. */
  predicate ParentRule(row: Row, options: Options)
  {
    match FolderParent(row.name)
    case Some(p) => row.parent == p
    case None => row.parent == TopParent(row.name, options)
  }

  predicate RowsFollowParentRule(rows: seq<Row>, options: Options)
  {
    forall i :: 0 <= i < |rows| ==> ParentRule(rows[i], options)
  }

  /** What one entry does to the rows: nothing when dropped, else one row for it, under the parent rule. */
  predicate RowsStepAt(acc: Acc, name: string, vals: map<string, int>, r: Acc, options: Options)
  {
    Kept(name, vals, options).Ok? &&
    r.missing == acc.missing &&
    (Kept(name, vals, options) == Ok(false) ==> r == acc) &&
    (Kept(name, vals, options) == Ok(true) ==>
       |r.rows| == |acc.rows| + 1 && r.rows[..|acc.rows|] == acc.rows &&
       r.rows[|acc.rows|].name == name && ParentRule(r.rows[|acc.rows|], options))
  }

  /** What one entry adds to counter `k` of the root: its own value when it is a bucket entry. */
  predicate RootStepAt(acc: Acc, name: string, vals: map<string, int>, r: Acc, options: Options, k: string)
  {
    Val(r.root, k) == Val(acc.root, k) + (if TopLevel(name, vals, options) then Val(vals, k) else 0)
  }

  /** What one entry adds to counter `k` of dataset `d`: its own value when it is a bucket entry grouped under `d`. */
  predicate DatasetStepAt(acc: Acc, name: string, vals: map<string, int>, r: Acc, options: Options, d: string, k: string)
  {
    Val(DatasetVals(r.datasets, d), k) ==
    Val(DatasetVals(acc.datasets, d), k) +
    (if TopLevel(name, vals, options) && TopParent(name, options) == d && d != RootNode then Val(vals, k) else 0)
  }

  /** One entry: dropped unchanged, or one row for it, following the parent rule. */
  lemma StepEntryRows(acc: Acc, name: string, vals: map<string, int>, options: Options)
    requires StepEntry(acc, name, vals, options).Ok?
    ensures RowsStepAt(acc, name, vals, StepEntry(acc, name, vals, options).value, options)
  {
  }

  /** A bucket entry's counters are added to the root's; nothing else adds to them. */
  lemma StepEntryRoot(acc: Acc, name: string, vals: map<string, int>, options: Options, k: string)
    requires StepEntry(acc, name, vals, options).Ok?
    ensures RootStepAt(acc, name, vals, StepEntry(acc, name, vals, options).value, options, k)
  {
  }

  /** A bucket entry grouped under a dataset adds its counters to that dataset's. */
  lemma StepEntryDatasets(acc: Acc, name: string, vals: map<string, int>, options: Options, d: string, k: string)
    requires StepEntry(acc, name, vals, options).Ok?
    ensures DatasetStepAt(acc, name, vals, StepEntry(acc, name, vals, options).value, options, d, k)
  {
  }

  /** The dataset order stays the datasets' keys, each once. */
  lemma StepEntryOrder(acc: Acc, name: string, vals: map<string, int>, options: Options)
    requires OrderOk(acc) && StepEntry(acc, name, vals, options).Ok?
    ensures OrderOk(StepEntry(acc, name, vals, options).value)
  {
  }

  /** A fold whose steps each add at most one row under the parent rule: rows for exactly the kept entries, in order. */
  lemma {:induction false} FoldEntriesRows(acc: Acc, entries: seq<(string, map<string, int>)>,
                                           f: (Acc, string, map<string, int>) -> Result<Acc, TreemapError>, options: Options)
    requires forall a, name, vals :: f(a, name, vals).Ok? ==> RowsStepAt(a, name, vals, f(a, name, vals).value, options)
    requires FoldEntries(acc, entries, f).Ok?
    ensures var r := FoldEntries(acc, entries, f).value;
            r.missing == acc.missing &&
            |acc.rows| <= |r.rows| && r.rows[..|acc.rows|] == acc.rows &&
            Names(r.rows[|acc.rows|..]) == KeptNames(entries, options) &&
            RowsFollowParentRule(r.rows[|acc.rows|..], options)
    decreases |entries|
  {
    if |entries| > 0 {
      var n := |entries| - 1;
      FoldEntriesRows(acc, entries[..n], f, options);
      var a := FoldEntries(acc, entries[..n], f).value;
      var r := FoldEntries(acc, entries, f).value;
      assert r == f(a, entries[n].0, entries[n].1).value;
      assert RowsStepAt(a, entries[n].0, entries[n].1, r, options);
      assert KeptNames(entries, options) ==
             KeptNames(entries[..n], options) + (if Kept(entries[n].0, entries[n].1, options) == Ok(true) then [entries[n].0] else []);
      if Kept(entries[n].0, entries[n].1, options) == Ok(true) {
        RowsAppended(acc.rows, a.rows, r.rows, options);
      }
    }
  }

  /** One more row after `a`, which extends `base`: the new part gains that row. */
  lemma RowsAppended(base: seq<Row>, a: seq<Row>, r: seq<Row>, options: Options)
    requires |base| <= |a| && a[..|base|] == base
    requires |r| == |a| + 1 && r[..|a|] == a
    requires RowsFollowParentRule(a[|base|..], options) && ParentRule(r[|a|], options)
    ensures r[..|base|] == base
    ensures Names(r[|base|..]) == Names(a[|base|..]) + [r[|a|].name]
    ensures RowsFollowParentRule(r[|base|..], options)
  {
    assert r[|base|..] == a[|base|..] + [r[|a|]];
    assert r[..|base|] == a[..|base|];
    var part := r[|base|..];
    assert part[..|part| - 1] == a[|base|..];
  }

  /** A fold whose steps add bucket entries to the root: the root's counter grows by their sum. */
  lemma {:induction false} FoldEntriesRoot(acc: Acc, entries: seq<(string, map<string, int>)>,
                                           f: (Acc, string, map<string, int>) -> Result<Acc, TreemapError>, options: Options, k: string)
    requires forall a, name, vals :: f(a, name, vals).Ok? ==> RootStepAt(a, name, vals, f(a, name, vals).value, options, k)
    requires FoldEntries(acc, entries, f).Ok?
    ensures Val(FoldEntries(acc, entries, f).value.root, k) == Val(acc.root, k) + SumKey(TopValues(entries, options), k)
    decreases |entries|
  {
    if |entries| > 0 {
      var n := |entries| - 1;
      FoldEntriesRoot(acc, entries[..n], f, options, k);
      var a := FoldEntries(acc, entries[..n], f).value;
      assert RootStepAt(a, entries[n].0, entries[n].1, f(a, entries[n].0, entries[n].1).value, options, k);
    }
  }

  /** A fold whose steps add grouped bucket entries to their dataset: the dataset's counter grows by their sum. */
  lemma {:induction false} FoldEntriesDatasets(acc: Acc, entries: seq<(string, map<string, int>)>,
                                               f: (Acc, string, map<string, int>) -> Result<Acc, TreemapError>,
                                               options: Options, d: string, k: string)
    requires forall a, name, vals :: f(a, name, vals).Ok? ==> DatasetStepAt(a, name, vals, f(a, name, vals).value, options, d, k)
    requires FoldEntries(acc, entries, f).Ok?
    ensures Val(DatasetVals(FoldEntries(acc, entries, f).value.datasets, d), k) ==
            Val(DatasetVals(acc.datasets, d), k) + SumKey(DatasetValues(entries, options, d), k)
    decreases |entries|
  {
    if |entries| > 0 {
      var n := |entries| - 1;
      FoldEntriesDatasets(acc, entries[..n], f, options, d, k);
      var a := FoldEntries(acc, entries[..n], f).value;
      assert DatasetStepAt(a, entries[n].0, entries[n].1, f(a, entries[n].0, entries[n].1).value, options, d, k);
    }
  }

  /** A fold whose steps keep the dataset order well formed keeps it well formed. */
  lemma {:induction false} FoldEntriesOrder(acc: Acc, entries: seq<(string, map<string, int>)>,
                                            f: (Acc, string, map<string, int>) -> Result<Acc, TreemapError>)
    requires forall a, name, vals :: OrderOk(a) && f(a, name, vals).Ok? ==> OrderOk(f(a, name, vals).value)
    requires OrderOk(acc) && FoldEntries(acc, entries, f).Ok?
    ensures OrderOk(FoldEntries(acc, entries, f).value)
    decreases |entries|
  {
    if |entries| > 0 {
      FoldEntriesOrder(acc, entries[..|entries| - 1], f);
    }
  }

  /** A file's entries: rows for exactly the kept entries, in order, each under the parent rule. */
  lemma StepEntriesRows(acc: Acc, entries: seq<(string, map<string, int>)>, options: Options)
    requires StepEntries(acc, entries, options).Ok?
    ensures var r := StepEntries(acc, entries, options).value;
            r.missing == acc.missing &&
            |acc.rows| <= |r.rows| && r.rows[..|acc.rows|] == acc.rows &&
            Names(r.rows[|acc.rows|..]) == KeptNames(entries, options) &&
            RowsFollowParentRule(r.rows[|acc.rows|..], options)
  {
    var f := (a: Acc, name: string, vals: map<string, int>) => StepEntry(a, name, vals, options);
    forall a, name, vals | f(a, name, vals).Ok?
      ensures RowsStepAt(a, name, vals, f(a, name, vals).value, options)
    {
      StepEntryRows(a, name, vals, options);
    }
    FoldEntriesRows(acc, entries, f, options);
  }

  /** A file's bucket entries are summed into the root's counters. */
  lemma StepEntriesRoot(acc: Acc, entries: seq<(string, map<string, int>)>, options: Options, k: string)
    requires StepEntries(acc, entries, options).Ok?
    ensures Val(StepEntries(acc, entries, options).value.root, k) == Val(acc.root, k) + SumKey(TopValues(entries, options), k)
  {
    var f := (a: Acc, name: string, vals: map<string, int>) => StepEntry(a, name, vals, options);
    forall a, name, vals | f(a, name, vals).Ok?
      ensures RootStepAt(a, name, vals, f(a, name, vals).value, options, k)
    {
      StepEntryRoot(a, name, vals, options, k);
    }
    FoldEntriesRoot(acc, entries, f, options, k);
  }

  /** A file's bucket entries grouped under a dataset are summed into its counters. */
  lemma StepEntriesDatasets(acc: Acc, entries: seq<(string, map<string, int>)>, options: Options, d: string, k: string)
    requires StepEntries(acc, entries, options).Ok?
    ensures Val(DatasetVals(StepEntries(acc, entries, options).value.datasets, d), k) ==
            Val(DatasetVals(acc.datasets, d), k) + SumKey(DatasetValues(entries, options, d), k)
  {
    var f := (a: Acc, name: string, vals: map<string, int>) => StepEntry(a, name, vals, options);
    forall a, name, vals | f(a, name, vals).Ok?
      ensures DatasetStepAt(a, name, vals, f(a, name, vals).value, options, d, k)
    {
      StepEntryDatasets(a, name, vals, options, d, k);
    }
    FoldEntriesDatasets(acc, entries, f, options, d, k);
  }

  lemma StepEntriesOrder(acc: Acc, entries: seq<(string, map<string, int>)>, options: Options)
    requires OrderOk(acc) && StepEntries(acc, entries, options).Ok?
    ensures OrderOk(StepEntries(acc, entries, options).value)
  {
    var f := (a: Acc, name: string, vals: map<string, int>) => StepEntry(a, name, vals, options);
    forall a, name, vals | OrderOk(a) && f(a, name, vals).Ok?
      ensures OrderOk(f(a, name, vals).value)
    {
      StepEntryOrder(a, name, vals, options);
    }
    FoldEntriesOrder(acc, entries, f);
  }

  // ---------------------------------------------------------------------
  // Over all inputs

  /** The datasets of the missing inputs, in order. */
  function MissingRef(paths: seq<string>, load: string -> Option<seq<(string, map<string, int>)>>): seq<string>
    decreases |paths|
  {
    if |paths| == 0 then []
    else
      var init := MissingRef(paths[..|paths| - 1], load);
      if load(paths[|paths| - 1]).None? then init + [MissingName(paths[|paths| - 1])] else init
  }

  /** The kept entries' names over every present input, in order. */
  function AllKeptNames(paths: seq<string>, load: string -> Option<seq<(string, map<string, int>)>>, options: Options): seq<string>
    decreases |paths|
  {
    if |paths| == 0 then []
    else
      var init := AllKeptNames(paths[..|paths| - 1], load, options);
      match load(paths[|paths| - 1])
      case None => init
      case Some(entries) => init + KeptNames(entries, options)
  }

  /** A counter summed over every present input's kept bucket entries. */
  function RootSum(paths: seq<string>, load: string -> Option<seq<(string, map<string, int>)>>, options: Options, k: string): int
    decreases |paths|
  {
    if |paths| == 0 then 0
    else
      var init := RootSum(paths[..|paths| - 1], load, options, k);
      match load(paths[|paths| - 1])
      case None => init
      case Some(entries) => init + SumKey(TopValues(entries, options), k)
  }

  /** A counter summed over the kept bucket entries grouped under dataset `d`. */
  function DatasetSum(paths: seq<string>, load: string -> Option<seq<(string, map<string, int>)>>, options: Options, d: string, k: string): int
    decreases |paths|
  {
    if |paths| == 0 then 0
    else
      var init := DatasetSum(paths[..|paths| - 1], load, options, d, k);
      match load(paths[|paths| - 1])
      case None => init
      case Some(entries) => init + SumKey(DatasetValues(entries, options, d), k)
  }

  /** Over all inputs: the missing datasets reported in order, a row for each kept entry in order, each under the parent rule. */
  lemma {:induction false} StepInputsRows(paths: seq<string>, load: string -> Option<seq<(string, map<string, int>)>>, options: Options)
    requires StepInputs(paths, load, options).Ok?
    ensures var acc := StepInputs(paths, load, options).value;
            acc.missing == MissingRef(paths, load) && Names(acc.rows) == AllKeptNames(paths, load, options) &&
            RowsFollowParentRule(acc.rows, options)
    decreases |paths|
  {
    if |paths| > 0 {
      var n := |paths| - 1;
      StepInputsRows(paths[..n], load, options);
      var a := StepInputs(paths[..n], load, options).value;
      var r := StepInputs(paths, load, options).value;
      match load(paths[n])
      case None =>
      case Some(entries) =>
        StepEntriesRows(a, entries, options);
        assert r.rows == a.rows + r.rows[|a.rows|..];
        assert Names(r.rows) == Names(a.rows) + Names(r.rows[|a.rows|..]) by {
          NamesAppend(a.rows, r.rows[|a.rows|..]);
        }
    }
  }

  lemma {:induction false} NamesAppend(a: seq<Row>, b: seq<Row>)
    ensures Names(a + b) == Names(a) + Names(b)
  {
  }

  /** Over all inputs: the root's counters and each dataset's are the sums over the kept bucket entries. */
  lemma {:induction false} StepInputsSums(paths: seq<string>, load: string -> Option<seq<(string, map<string, int>)>>, options: Options, d: string, k: string)
    requires StepInputs(paths, load, options).Ok?
    ensures var acc := StepInputs(paths, load, options).value;
            Val(acc.root, k) == RootSum(paths, load, options, k) &&
            Val(DatasetVals(acc.datasets, d), k) == DatasetSum(paths, load, options, d, k) &&
            OrderOk(acc)
    decreases |paths|
  {
    if |paths| > 0 {
      var n := |paths| - 1;
      StepInputsSums(paths[..n], load, options, d, k);
      var a := StepInputs(paths[..n], load, options).value;
      match load(paths[n])
      case None =>
      case Some(entries) =>
        StepEntriesRoot(a, entries, options, k);
        StepEntriesDatasets(a, entries, options, d, k);
        StepEntriesOrder(a, entries, options);
    }
  }

  /** `RowsWith` makes exactly one row per name, in order, each the one `f` makes for it. */
  lemma {:induction false} RowsWithMeaning(order: seq<string>, f: string -> Result<Row, TreemapError>)
    requires RowsWith(order, f).Ok?
    ensures |RowsWith(order, f).value| == |order|
    ensures forall i :: 0 <= i < |order| ==> f(order[i]) == Ok(RowsWith(order, f).value[i])
    decreases |order|
  {
    if |order| > 0 {
      var n := |order| - 1;
      RowsWithMeaning(order[..n], f);
      assert forall i :: 0 <= i < n ==> order[..n][i] == order[i];
    }
  }

  /** A row per dataset, in order, under the root node, with the dataset's counters. */
  lemma DatasetRowsMeaning(order: seq<string>, datasets: map<string, map<string, int>>)
    requires DatasetRows(order, datasets).Ok?
    ensures var rows := DatasetRows(order, datasets).value;
            Names(rows) == order &&
            forall i :: 0 <= i < |rows| ==>
              (rows[i].parent == RootNode &&
               rows[i].size == Val(DatasetVals(datasets, order[i]), "size") &&
               rows[i].numBlobs == Val(DatasetVals(datasets, order[i]), "num_blobs"))
  {
    var f := (d: string) => FormRow(d, RootNode, Defaulted(DatasetVals(datasets, d)));
    RowsWithMeaning(order, f);
    var rows := DatasetRows(order, datasets).value;
    forall i | 0 <= i < |rows|
      ensures rows[i].name == order[i] && rows[i].parent == RootNode
      ensures rows[i].size == Val(DatasetVals(datasets, order[i]), "size")
      ensures rows[i].numBlobs == Val(DatasetVals(datasets, order[i]), "num_blobs")
    {
      var vals := Defaulted(DatasetVals(datasets, order[i]));
      assert FormRow(order[i], RootNode, vals) == Ok(rows[i]);
      assert Val(vals, "size") == vals["size"] && Val(vals, "num_blobs") == vals["num_blobs"];
    }
  }

  /** The rows of a run begin with one per kept entry, in input order and under the parent rule; the missing datasets are reported in order. */
  lemma PrepareRowsEntries(paths: seq<string>, load: string -> Option<seq<(string, map<string, int>)>>, options: Options)
    requires PrepareRows(paths, load, options).Ok?
    ensures var (rows, missing) := PrepareRows(paths, load, options).value;
            var entryCount := |AllKeptNames(paths, load, options)|;
            missing == MissingRef(paths, load) &&
            entryCount < |rows| &&
            Names(rows[..entryCount]) == AllKeptNames(paths, load, options) &&
            RowsFollowParentRule(rows[..entryCount], options)
  {
    var acc := StepInputs(paths, load, options).value;
    StepInputsRows(paths, load, options);
    var rows := PrepareRows(paths, load, options).value.0;
    assert rows[..|acc.rows|] == acc.rows;
  }

  /** The last row is the root node, holding the sums over all kept bucket entries. */
  lemma PrepareRowsRoot(paths: seq<string>, load: string -> Option<seq<(string, map<string, int>)>>, options: Options)
    requires PrepareRows(paths, load, options).Ok?
    ensures var rows := PrepareRows(paths, load, options).value.0;
            |rows| > 0 && rows[|rows| - 1].name == RootNode && rows[|rows| - 1].parent == "" &&
            rows[|rows| - 1].size == RootSum(paths, load, options, "size") &&
            rows[|rows| - 1].numBlobs == RootSum(paths, load, options, "num_blobs")
  {
    StepInputsSums(paths, load, options, "", "size");
    StepInputsSums(paths, load, options, "", "num_blobs");
  }

  /** A dataset row: under the root node, with the sums over the bucket entries grouped under it. */
  predicate DatasetRowOk(row: Row, paths: seq<string>, load: string -> Option<seq<(string, map<string, int>)>>, options: Options)
  {
    row.parent == RootNode &&
    row.size == DatasetSum(paths, load, options, row.name, "size") &&
    row.numBlobs == DatasetSum(paths, load, options, row.name, "num_blobs")
  }

  /** The dataset rows of a run's accumulation: each dataset once, each holding its sums. */
  lemma DatasetRowsOfRun(paths: seq<string>, load: string -> Option<seq<(string, map<string, int>)>>, options: Options)
    requires StepInputs(paths, load, options).Ok?
    requires DatasetRows(StepInputs(paths, load, options).value.order, StepInputs(paths, load, options).value.datasets).Ok?
    ensures var acc := StepInputs(paths, load, options).value;
            var dsRows := DatasetRows(acc.order, acc.datasets).value;
            (forall i, j :: 0 <= i < j < |dsRows| ==> dsRows[i].name != dsRows[j].name) &&
            (forall i :: 0 <= i < |dsRows| ==> DatasetRowOk(dsRows[i], paths, load, options))
  {
    var acc := StepInputs(paths, load, options).value;
    StepInputsSums(paths, load, options, "", "");
    var dsRows := DatasetRows(acc.order, acc.datasets).value;
    DatasetRowsMeaning(acc.order, acc.datasets);
    forall i | 0 <= i < |dsRows|
      ensures DatasetRowOk(dsRows[i], paths, load, options)
    {
      assert dsRows[i].name == acc.order[i];
      StepInputsSums(paths, load, options, dsRows[i].name, "size");
      StepInputsSums(paths, load, options, dsRows[i].name, "num_blobs");
    }
    forall i, j | 0 <= i < j < |dsRows|
      ensures dsRows[i].name != dsRows[j].name
    {
      assert dsRows[i].name == acc.order[i] && dsRows[j].name == acc.order[j];
    }
  }

  /** Between the entry rows and the root row: one row per dataset, each dataset once. */
  lemma PrepareRowsDatasets(paths: seq<string>, load: string -> Option<seq<(string, map<string, int>)>>, options: Options)
    requires PrepareRows(paths, load, options).Ok?
    ensures var rows := PrepareRows(paths, load, options).value.0;
            var entryCount := |AllKeptNames(paths, load, options)|;
            entryCount < |rows| &&
            (forall i, j :: entryCount <= i < j < |rows| - 1 ==> rows[i].name != rows[j].name) &&
            (forall i :: entryCount <= i < |rows| - 1 ==> DatasetRowOk(rows[i], paths, load, options))
  {
    var acc := PrepareRowsShape(paths, load, options);
    DatasetRowsOfRun(paths, load, options);
    var dsRows := DatasetRows(acc.order, acc.datasets).value;
    var rows := PrepareRows(paths, load, options).value.0;
    MiddleDistinct(acc.rows, dsRows, rows[|rows| - 1], rows);
    MiddleAll(acc.rows, dsRows, rows[|rows| - 1], rows, (row: Row) => DatasetRowOk(row, paths, load, options));
  }

  /** A run's rows: the accumulated entry rows, then the dataset rows, then the root row. */
  lemma PrepareRowsShape(paths: seq<string>, load: string -> Option<seq<(string, map<string, int>)>>, options: Options)
    returns (acc: Acc)
    requires PrepareRows(paths, load, options).Ok?
    ensures StepInputs(paths, load, options) == Ok(acc)
    ensures DatasetRows(acc.order, acc.datasets).Ok?
    ensures |acc.rows| == |AllKeptNames(paths, load, options)|
    ensures var rows := PrepareRows(paths, load, options).value.0;
            |rows| > 0 && rows == acc.rows + DatasetRows(acc.order, acc.datasets).value + [rows[|rows| - 1]]
  {
    acc := StepInputs(paths, load, options).value;
    StepInputsRows(paths, load, options);
  }

  /** A property of every middle row holds of the rows between the front and the last one. */
  lemma MiddleAll(front: seq<Row>, middle: seq<Row>, last: Row, rows: seq<Row>, p: Row -> bool)
    requires |rows| > 0 && rows == front + middle + [last]
    requires forall i :: 0 <= i < |middle| ==> p(middle[i])
    ensures forall i :: |front| <= i < |rows| - 1 ==> p(rows[i])
  {
    MiddleRows(front, middle, last, rows);
    forall i | |front| <= i < |rows| - 1
      ensures p(rows[i])
    {
      assert rows[i] == middle[i - |front|];
    }
  }

  lemma MiddleRows(front: seq<Row>, middle: seq<Row>, last: Row, rows: seq<Row>)
    requires |rows| > 0 && rows == front + middle + [last]
    ensures |rows| == |front| + |middle| + 1
    ensures forall i :: |front| <= i < |rows| - 1 ==> rows[i] == middle[i - |front|]
  {
  }

  /** Distinct names in the middle part stay distinct once it is placed between other rows. */
  lemma MiddleDistinct(front: seq<Row>, middle: seq<Row>, last: Row, rows: seq<Row>)
    requires |rows| > 0 && rows == front + middle + [last]
    requires forall i, j :: 0 <= i < j < |middle| ==> middle[i].name != middle[j].name
    ensures forall i, j :: |front| <= i < j < |rows| - 1 ==> rows[i].name != rows[j].name
  {
    MiddleRows(front, middle, last, rows);
    forall i, j | |front| <= i < j < |rows| - 1
      ensures rows[i].name != rows[j].name
    {
      assert rows[i] == middle[i - |front|] && rows[j] == middle[j - |front|];
    }
  }

  /** With every input missing, the root row has size 0 and the run fails dividing by it. */
  lemma AllMissingFails(paths: seq<string>, load: string -> Option<seq<(string, map<string, int>)>>, options: Options)
    requires forall i :: 0 <= i < |paths| ==> load(paths[i]).None?
    ensures PrepareRows(paths, load, options) == Err(ZeroDivision)
  {
    AllMissingInputs(paths, load, options);
  }

  lemma {:induction false} AllMissingInputs(paths: seq<string>, load: string -> Option<seq<(string, map<string, int>)>>, options: Options)
    requires forall i :: 0 <= i < |paths| ==> load(paths[i]).None?
    ensures StepInputs(paths, load, options) == Ok(Start.(missing := MissingRef(paths, load)))
    decreases |paths|
  {
    if |paths| > 0 {
      AllMissingInputs(paths[..|paths| - 1], load, options);
    }
  }

  /** The filters drop exactly the entries outside the bucket type, deeper than the maximum depth, or of size 0. */
  lemma DroppedEntries(name: string, vals: map<string, int>, options: Options)
    requires options.bucketType.None? || BucketOf(name).Ok?
    ensures Kept(name, vals, options) == Ok(false) <==>
              (options.bucketType.Some? && !EndsWith(BucketOf(name).value, "-" + AccessLevel(options) + "-" + options.bucketType.value)) ||
              Depth(name) > options.maxDepth ||
              ("size" in vals && vals["size"] == 0)
  {
  }

  /**
   * The dataset regex on a bucket name 'gs://cpg-{dataset}-{main|test}{tail}'
   * finds the dataset, as long as the tail holds no further '-main' or '-test'.
   */
  lemma DatasetOfBucket(dataset: string, level: string, tail: string)
    requires level == "main" || level == "test"
    requires |dataset| >= 1 && AllDatasetChars(dataset)
    requires !Contains(tail, "-main") && !Contains(tail, "-test")
    ensures DatasetOf("gs://cpg-" + dataset + "-" + level + tail, 0) == Some(dataset)
  {
    var rest := dataset + "-" + level + tail;
    assert "gs://cpg-" + dataset + "-" + level + tail == "gs://cpg-" + rest;
    GroupAtDataset(dataset, level, tail);
    GreedyGroupLongest(rest, |dataset|);
    assert rest[..|dataset|] == dataset;
    DatasetOfPrefixed(rest);
  }

  /** When a group can end at `n` and nowhere later, the greedy group ends at `n`. */
  lemma GreedyGroupLongest(rest: string, n: nat)
    requires GroupEndsAt(rest, n)
    requires forall i :: n < i <= |rest| ==> !GroupEndsAt(rest, i)
    ensures GreedyGroup(rest, |rest|) == Some(rest[..n])
  {
    assert GroupEndsAt(rest, n);
    var g := GreedyGroup(rest, |rest|);
    assert g.Some?;
    var j :| GroupEndsAt(rest, j) && j <= |rest| && g.value == rest[..j] &&
             forall i :: j < i <= |rest| ==> !GroupEndsAt(rest, i);
    assert j == n;
  }

  /** On a name that starts with the bucket prefix, the regex looks at what follows it first. */
  lemma DatasetOfPrefixed(rest: string)
    requires GreedyGroup(rest, |rest|).Some?
    ensures DatasetOf("gs://cpg-" + rest, 0) == GreedyGroup(rest, |rest|)
  {
    var name := "gs://cpg-" + rest;
    assert name[9..] == rest;
    assert name[..9] == "gs://cpg-";
    assert OccursAt(name, "gs://cpg-", 0);
  }

  /** In 'dataset-{level}{tail}' the group can end after the dataset and nowhere later. */
  lemma GroupAtDataset(dataset: string, level: string, tail: string)
    requires level == "main" || level == "test"
    requires |dataset| >= 1 && AllDatasetChars(dataset)
    requires !Contains(tail, "-main") && !Contains(tail, "-test")
    ensures GroupEndsAt(dataset + "-" + level + tail, |dataset|)
    ensures forall i :: |dataset| < i <= |dataset + "-" + level + tail| ==> !GroupEndsAt(dataset + "-" + level + tail, i)
  {
    var rest := dataset + "-" + level + tail;
    var n := |dataset|;
    assert rest[..n] == dataset && rest[n..] == "-" + level + tail;
    forall i | n < i <= |rest|
      ensures !GroupEndsAt(rest, i)
    {
      if i <= n + 4 {
        assert rest[i] == level[i - n - 1];
      } else {
        NoGroupInTail(rest, dataset + "-" + level, tail, i);
      }
    }
  }

  lemma NoGroupInTail(rest: string, head: string, tail: string, i: nat)
    requires rest == head + tail && |head| <= i <= |rest|
    requires !Contains(tail, "-main") && !Contains(tail, "-test")
    ensures !StartsWith(rest[i..], "-main") && !StartsWith(rest[i..], "-test")
  {
    var j := i - |head|;
    assert rest[i..] == tail[j..];
    assert StartsWith(tail[j..], "-main") ==> OccursAt(tail, "-main", j);
    assert StartsWith(tail[j..], "-test") ==> OccursAt(tail, "-test", j);
  }

  /** Once a prefix of the entries fails, the whole fold fails with the same error. */
  lemma {:induction false} FoldEntriesKeepsError(acc: Acc, entries: seq<(string, map<string, int>)>,
                                                 f: (Acc, string, map<string, int>) -> Result<Acc, TreemapError>, i: nat)
    requires i <= |entries| && FoldEntries(acc, entries[..i], f).Err?
    ensures FoldEntries(acc, entries, f) == FoldEntries(acc, entries[..i], f)
    decreases |entries| - i
  {
    if i < |entries| {
      assert entries[..i + 1][..i] == entries[..i];
      FoldEntriesKeepsError(acc, entries, f, i + 1);
    } else {
      assert entries[..i] == entries;
    }
  }

  lemma {:induction false} StepInputsKeepsError(paths: seq<string>, load: string -> Option<seq<(string, map<string, int>)>>, options: Options, i: nat)
    requires i <= |paths| && StepInputs(paths[..i], load, options).Err?
    ensures StepInputs(paths, load, options) == StepInputs(paths[..i], load, options)
    decreases |paths| - i
  {
    if i < |paths| {
      assert paths[..i + 1][..i] == paths[..i];
      StepInputsKeepsError(paths, load, options, i + 1);
    } else {
      assert paths[..i] == paths;
    }
  }

  /** Once a prefix of the names fails, making the rows fails with the same error. */
  lemma {:induction false} RowsWithKeepsError(order: seq<string>, f: string -> Result<Row, TreemapError>, i: nat)
    requires i <= |order| && RowsWith(order[..i], f).Err?
    ensures RowsWith(order, f) == RowsWith(order[..i], f)
    decreases |order| - i
  {
    if i < |order| {
      assert order[..i + 1][..i] == order[..i];
      RowsWithKeepsError(order, f, i + 1);
    } else {
      assert order[..i] == order;
    }
  }

  /** The entries of one input file: the loop body of `prepare_rows_from_input_paths`. */
  method ProcessEntries(start: Acc, entries: seq<(string, map<string, int>)>, options: Options) returns (r: Result<Acc, TreemapError>)
    ensures r == StepEntries(start, entries, options)
  {
    var acc := start;
    for j := 0 to |entries|
      invariant StepEntries(start, entries[..j], options) == Ok(acc)
    {
      assert entries[..j + 1][..j] == entries[..j];
      var (name, vals) := entries[j];
      var keep := Kept(name, vals, options);
      if keep.Err? {
        FoldEntriesKeepsError(start, entries, (a: Acc, name: string, vals: map<string, int>) => StepEntry(a, name, vals, options), j + 1);
        return Err(keep.error);
      }
      if !keep.value {
        continue;
      }
      var parent: string;
      var next := acc;
      var folder := FolderParent(name);
      if folder.Some? {
        parent := folder.value;
      } else {
        next := next.(root := AddValues(next.root, vals));
        parent := TopParent(name, options);
        if parent != RootNode {
          if parent !in next.datasets {
            next := next.(order := next.order + [parent]);
          }
          next := next.(datasets := next.datasets[parent := AddValues(DatasetVals(next.datasets, parent), vals)]);
        }
      }
      var row := FormRow(name, parent, vals);
      if row.Err? {
        FoldEntriesKeepsError(start, entries, (a: Acc, name: string, vals: map<string, int>) => StepEntry(a, name, vals, options), j + 1);
        return Err(row.error);
      }
      acc := next.(rows := acc.rows + [row.value]);
    }
    assert entries[..|entries|] == entries;
    return Ok(acc);
  }

  /** `prepare_rows_from_input_paths`, loop by loop. */
  method PrepareRowsFromInputPaths(paths: seq<string>, load: string -> Option<seq<(string, map<string, int>)>>, options: Options)
    returns (r: Result<(seq<Row>, seq<string>), TreemapError>)
    ensures r == PrepareRows(paths, load, options)
  {
    var acc := Start;
    for i := 0 to |paths|
      invariant StepInputs(paths[..i], load, options) == Ok(acc)
    {
      assert paths[..i + 1][..i] == paths[..i];
      var loaded := load(paths[i]);
      if loaded.None? {
        acc := acc.(missing := acc.missing + [MissingName(paths[i])]);
        continue;
      }
      var next := ProcessEntries(acc, loaded.value, options);
      if next.Err? {
        StepInputsKeepsError(paths, load, options, i + 1);
        return Err(next.error);
      }
      acc := next.value;
    }
    assert paths[..|paths|] == paths;
    var dsRows := MakeDatasetRows(acc.order, acc.datasets);
    if dsRows.Err? {
      return Err(dsRows.error);
    }
    var rootRow := FormRow(RootNode, "", Defaulted(acc.root));
    if rootRow.Err? {
      return Err(rootRow.error);
    }
    return Ok((acc.rows + dsRows.value + [rootRow.value], acc.missing));
  }

  /** The loop making a row per dataset, in the order they were first seen. */
  method MakeDatasetRows(order: seq<string>, datasets: map<string, map<string, int>>) returns (r: Result<seq<Row>, TreemapError>)
    ensures r == DatasetRows(order, datasets)
  {
    var dsRows: seq<Row> := [];
    for i := 0 to |order|
      invariant DatasetRows(order[..i], datasets) == Ok(dsRows)
    {
      assert order[..i + 1][..i] == order[..i];
      var row := FormRow(order[i], RootNode, Defaulted(DatasetVals(datasets, order[i])));
      if row.Err? {
        RowsWithKeepsError(order, (d: string) => FormRow(d, RootNode, Defaulted(DatasetVals(datasets, d))), i + 1);
        return Err(row.error);
      }
      dsRows := dsRows + [row.value];
    }
    assert order[..|order|] == order;
    return Ok(dsRows);
  }
}
