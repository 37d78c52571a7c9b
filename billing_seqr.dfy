// The seqr billing function: the rows of a seqr Hail batch, charged either
// to the dataset a job names or spread over the datasets loaded in seqr.
module BillingSeqr {
  import opened Wrappers
  import opened Strings
  import opened Calendar
  import opened BillingUtils

  const ServiceId := "seqr"
  /** Batches created before this day charge everything to seqr itself. */
  const SeqrFirstLoad: CalendarDate := Date(2021, 9, 1)
  const ResourceKeyCutoff: CalendarDate := Date(2023, 1, 1)
  const JobAttributesIgnore: set<string> := {"dataset", "samples"}
  const CreditTopic := "hail"
  const DirectDescription := "Seqr compute"
  const DistributedDescription := "Seqr compute (distributed)"

  /** A dataset's share of the seqr cost, and the size the share was derived from. */
  datatype Share = Share(fraction: real, datasetSize: int)

  /** The proportion map: the dataset shares in force from each date on, by ascending date. */
  type ProportionMap = seq<(CalendarDate, seq<(string, Share)>)>

  /** `a <= b` on dates. */
  predicate NotAfter(a: Date, b: Date)
  {
    !Before(b, a)
  }

  // ---------------------------------------------------------------------
  // Ratios

  /** The index of the last entry of the map dated on or before `dt`. */
  function LastNotAfter(m: ProportionMap, dt: CalendarDate): (r: Option<nat>)
    ensures r.Some? ==> r.value < |m| && NotAfter(m[r.value].0, dt)
    ensures r.Some? ==> forall j :: r.value < j < |m| ==> !NotAfter(m[j].0, dt)
    ensures r.None? ==> forall j :: 0 <= j < |m| ==> !NotAfter(m[j].0, dt)
    decreases |m|
  {
    if |m| == 0 then None
    else if NotAfter(m[|m| - 1].0, dt) then Some(|m| - 1)
    else LastNotAfter(m[..|m| - 1], dt)
  }

  /**
   * `get_ratios_from_date`: a scan from the end of the map for the first
   * entry dated on or before `dt`; AssertionError when there is none.
   */
  method GetRatiosFromDate(dt: CalendarDate, m: ProportionMap)
    returns (r: Result<(CalendarDate, seq<(string, Share)>), BillingError>)
    ensures LastNotAfter(m, dt).Some? ==> r == Ok(m[LastNotAfter(m, dt).value])
    ensures LastNotAfter(m, dt).None? ==> r == Err(AssertionError("No ratio found for date " + IsoFormat(dt)))
  {
    var i := |m|;
    while i > 0
      invariant 0 <= i <= |m|
      invariant LastNotAfter(m, dt) == LastNotAfter(m[..i], dt)
    {
      if NotAfter(m[i - 1].0, dt) {
        assert m[..i][i - 1] == m[i - 1];
        return Ok(m[i - 1]);
      }
      assert m[..i][..i - 1] == m[..i - 1];
      i := i - 1;
    }
    r := Err(AssertionError("No ratio found for date " + IsoFormat(dt)));
  }

  /** The first doctest: a single earlier entry applies. */
  lemma RatiosSingleEarlier()
    ensures LastNotAfter([(Date(2020, 12, 31), [("d1", Share(1.0, 1))])], Date(2023, 1, 1)) == Some(0)
  {
  }

  /** The second doctest: of two earlier entries the later one applies. */
  lemma RatiosLaterOfTwo()
    ensures LastNotAfter([(Date(2022, 12, 31), [("d1", Share(1.0, 1))]),
                          (Date(2023, 1, 12), [("d1", Share(1.0, 2))])], Date(2023, 1, 13)) == Some(1)
  {
  }

  /** The last doctest: no entry on or before the date. */
  lemma RatiosNoneBefore()
    ensures LastNotAfter([(Date(2020, 12, 31), [("d1", Share(1.0, 1))])], Date(2020, 1, 1)).None?
  {
  }

  /** The shares of a batch created on `start`: all to seqr before the first load. */
  function SharesFor(start: CalendarDate, m: ProportionMap): (r: Result<seq<(string, Share)>, BillingError>)
    ensures Before(start, SeqrFirstLoad) ==> r == Ok([("seqr", Share(1.0, 1))])
    ensures !Before(start, SeqrFirstLoad) && LastNotAfter(m, start).Some? ==> r == Ok(m[LastNotAfter(m, start).value].1)
    ensures !Before(start, SeqrFirstLoad) && LastNotAfter(m, start).None? ==>
              r == Err(AssertionError("No ratio found for date " + IsoFormat(start)))
  {
    if Before(start, SeqrFirstLoad) then Ok([("seqr", Share(1.0, 1))])
    else
      match LastNotAfter(m, start)
      case None => Err(AssertionError("No ratio found for date " + IsoFormat(start)))
      case Some(i) => Ok(m[i].1)
  }

  // ---------------------------------------------------------------------
  // Row context

  /**
   * The float arithmetic, left abstract: the converted gross cost of a raw
   * cost, a cost times a fraction, `round(usage * fraction)`, and
   * `str(round(100 * fraction) / 100)`.
   */
  datatype CostArithmetic = CostArithmetic(
    totalCost: int -> int,
    scaleCost: (int, real) -> int,
    scaleUsage: (int, real) -> int,
    renderFraction: real -> string)

  /** What every row of one batch shares. */
  datatype SeqrContext = SeqrContext(
    batchId: int,
    batchName: Option<string>,
    namespace: Option<string>,
    arGuid: Option<string>,
    arGuidName: string,
    url: string,
    start: CalendarDate,
    end: CalendarDate,
    shares: seq<(string, Share)>,
    arith: CostArithmetic)

  function Get(m: map<string, string>, k: string): Option<string>
  {
    if k in m then Some(m[k]) else None
  }

  /** The batch's analysis-runner guid, under its current name or the old 'ar_guid'. */
  function ArGuidOf(attributes: map<string, string>, arGuidName: string): Option<string>
  {
    if arGuidName in attributes then Some(attributes[arGuidName]) else Get(attributes, "ar_guid")
  }

  /** A job's dataset: its 'dataset' attribute without '-test', or '' when it has none. */
  function DatasetOfJob(job: Job): string
  {
    Replace(if "dataset" in job.attributes then job.attributes["dataset"] else "", "-test", "")
  }

  /** The job attributes copied into labels, with the ignored ones left out. */
  function CopiedAttributes(job: Job, renameGuid: bool): map<string, Option<string>>
  {
    var kept := map k | k in job.attributes && k !in JobAttributesIgnore && (!renameGuid || k != "ar_guid")
                 :: Some(job.attributes[k]);
    if renameGuid && "ar_guid" in job.attributes then kept["ar-guid" := Some(job.attributes["ar_guid"])] else kept
  }

  /** The guid label, when the batch has a truthy one. */
  function GuidLabel(ctx: SeqrContext): map<string, Option<string>>
  {
    if Truthy(ctx.arGuid) then map[ctx.arGuidName := ctx.arGuid] else map[]
  }

  // ---------------------------------------------------------------------
  // Jobs with a dataset

  /** The labels of a dataset job, before the resource and url are added. */
  function DirectLabels(ctx: SeqrContext, job: Job, dataset: string): map<string, string>
  {
    var base: map<string, Option<string>> := map[
      "dataset" := Some(dataset),
      "job_name" := Get(job.attributes, "name"),
      "batch_name" := ctx.batchName,
      "batch_id" := Some(IntToString(ctx.batchId)),
      "job_id" := Some(IntToString(job.jobId)),
      "namespace" := ctx.namespace
    ];
    DropFalsy(base + GuidLabel(ctx) + CopiedAttributes(job, false))
  }

  /** The key of a dataset job's rows: 'seqr-{dataset}-batch-{b}-job-{j}'. */
  function DirectKey(ctx: SeqrContext, job: Job, dataset: string): string
  {
    Join([ServiceId, dataset, "batch", IntToString(ctx.batchId), "job", IntToString(job.jobId)], "-")
  }

  lemma DirectKeyShape(ctx: SeqrContext, job: Job, dataset: string)
    ensures DirectKey(ctx, job, dataset) ==
            "seqr-" + dataset + "-batch-" + IntToString(ctx.batchId) + "-job-" + IntToString(job.jobId)
  {
    var b, j := IntToString(ctx.batchId), IntToString(job.jobId);
    JoinSix(ServiceId, dataset, "batch", b, "job", j, "-");
    assert "seqr" + "-" + (dataset + "-" + ("batch" + "-" + (b + "-" + ("job" + "-" + j)))) ==
           "seqr-" + dataset + "-batch-" + b + "-job-" + j;
  }

  lemma JoinSix(a: string, b: string, c: string, d: string, e: string, f: string, sep: string)
    ensures Join([a, b, c, d, e, f], sep) == a + sep + (b + sep + (c + sep + (d + sep + (e + sep + f))))
  {
    var parts := [a, b, c, d, e, f];
    assert parts[1..] == [b, c, d, e, f] && parts[2..] == [c, d, e, f] && parts[3..] == [d, e, f];
    assert parts[4..] == [e, f] && parts[5..] == [f];
    assert Join([f], sep) == f;
    assert Join([e, f], sep) == e + sep + f;
    assert Join([d, e, f], sep) == d + sep + (e + sep + f);
    assert Join([c, d, e, f], sep) == c + sep + (d + sep + (e + sep + f));
    assert Join([b, c, d, e, f], sep) == b + sep + (c + sep + (d + sep + (e + sep + f)));
  }

  /** The entry of one resource of a dataset job, then its credit. */
  function DirectResourceRows(ctx: SeqrContext, job: Job, dataset: string, resource: string, raw: int): seq<Row>
  {
    var labels := DirectLabels(ctx, job, dataset)["batch_resource" := resource]["url" := ctx.url];
    var entry := GetHailEntry(
      DirectKey(ctx, job, dataset), dataset, ServiceId, DirectDescription, ctx.arith.totalCost(raw),
      if resource in job.resources then job.resources[resource] else 0,
      resource, ctx.start, ctx.end, labels);
    [entry, GetCredit(entry, CreditTopic, SeqrProjectField)]
  }

  function DirectCostRows(ctx: SeqrContext, job: Job, dataset: string, costs: seq<(string, int)>): seq<Row>
    decreases |costs|
  {
    if |costs| == 0 then []
    else
      var (resource, raw) := costs[|costs| - 1];
      DirectCostRows(ctx, job, dataset, costs[..|costs| - 1]) +
      (if StartsWith(resource, "service-fee") then [] else DirectResourceRows(ctx, job, dataset, resource, raw))
  }

  /** The rows of the jobs that name a dataset, job by job. */
  function DirectRows(ctx: SeqrContext, jobs: seq<Job>): seq<Row>
    decreases |jobs|
  {
    if |jobs| == 0 then []
    else
      var job := jobs[|jobs| - 1];
      DirectRows(ctx, jobs[..|jobs| - 1]) +
      (if DatasetOfJob(job) == "" then [] else DirectCostRows(ctx, job, DatasetOfJob(job), job.cost))
  }

  /** The jobs that name no dataset, in order. */
  function NoDatasetJobs(jobs: seq<Job>): (r: seq<Job>)
    ensures forall i :: 0 <= i < |r| ==> DatasetOfJob(r[i]) == "" && r[i] in jobs
    decreases |jobs|
  {
    if |jobs| == 0 then []
    else NoDatasetJobs(jobs[..|jobs| - 1]) + (if DatasetOfJob(jobs[|jobs| - 1]) == "" then [jobs[|jobs| - 1]] else [])
  }

  // ---------------------------------------------------------------------
  // Jobs without a dataset

  /** The labels of a resource of a job without a dataset, shared by all its datasets' rows. */
  function DistributedLabels(ctx: SeqrContext, job: Job, resource: string): map<string, string>
  {
    var base: map<string, Option<string>> := map[
      "batch_name" := ctx.batchName,
      "batch_id" := Some(IntToString(ctx.batchId)),
      "batch_resource" := Some(resource),
      "url" := Some(ctx.url),
      "job_id" := Some(IntToString(job.jobId)),
      "namespace" := ctx.namespace
    ];
    DropFalsy(base + GuidLabel(ctx) + CopiedAttributes(job, true))
  }

  function DistributedKeyParts(ctx: SeqrContext, job: Job, dataset: string, resource: string): seq<string>
  {
    var common := [ServiceId, "distributed", dataset, "batch", IntToString(ctx.batchId), "job", IntToString(job.jobId)];
    if Before(ctx.start, ResourceKeyCutoff) then common else common + [resource]
  }

  /** 'seqr-distributed-{dataset}-batch-{b}-job-{j}[-{resource}]', with '/' turned into '-'. */
  function DistributedKey(ctx: SeqrContext, job: Job, dataset: string, resource: string): string
  {
    Replace(Join(DistributedKeyParts(ctx, job, dataset, resource), "-"), "/", "-")
  }

  /** The entry for one dataset's share of a resource, then its credit. */
  function ShareRows(ctx: SeqrContext, job: Job, resource: string, raw: int, dataset: string, share: Share): seq<Row>
  {
    var labels := DistributedLabels(ctx, job, resource)["dataset" := dataset]
                    ["fraction" := ctx.arith.renderFraction(share.fraction)]
                    ["dataset_size" := IntToString(share.datasetSize)];
    var usage := if resource in job.resources then job.resources[resource] else 0;
    var entry := GetHailEntry(
      DistributedKey(ctx, job, dataset, resource), dataset, ServiceId, DistributedDescription,
      ctx.arith.scaleCost(ctx.arith.totalCost(raw), share.fraction), ctx.arith.scaleUsage(usage, share.fraction),
      resource, ctx.start, ctx.end, labels);
    [entry, GetCredit(entry, CreditTopic, SeqrProjectField)]
  }

  /** A resource's rows, one pair per dataset of the shares. */
  function SharesRows(ctx: SeqrContext, job: Job, resource: string, raw: int, shares: seq<(string, Share)>): seq<Row>
    decreases |shares|
  {
    if |shares| == 0 then []
    else
      SharesRows(ctx, job, resource, raw, shares[..|shares| - 1]) +
      ShareRows(ctx, job, resource, raw, shares[|shares| - 1].0, shares[|shares| - 1].1)
  }

  function DistributedCostRows(ctx: SeqrContext, job: Job, costs: seq<(string, int)>): seq<Row>
    decreases |costs|
  {
    if |costs| == 0 then []
    else
      var (resource, raw) := costs[|costs| - 1];
      DistributedCostRows(ctx, job, costs[..|costs| - 1]) +
      (if StartsWith(resource, "service-fee") then [] else SharesRows(ctx, job, resource, raw, ctx.shares))
  }

  /** The rows of the jobs without a dataset; jobs without cost give none. */
  function DistributedRows(ctx: SeqrContext, jobs: seq<Job>): seq<Row>
    decreases |jobs|
  {
    if |jobs| == 0 then []
    else
      var job := jobs[|jobs| - 1];
      DistributedRows(ctx, jobs[..|jobs| - 1]) +
      (if |job.cost| == 0 then [] else DistributedCostRows(ctx, job, job.cost))
  }

  /** All rows of a batch: those of the dataset jobs first, then the distributed ones. */
  function BatchRows(ctx: SeqrContext, jobs: seq<Job>): seq<Row>
  {
    DirectRows(ctx, jobs) + DistributedRows(ctx, NoDatasetJobs(jobs))
  }

  /** The context of a batch whose times are both present, given its shares. */
  function ContextOf(b: Batch, arGuidName: string, shares: seq<(string, Share)>, arith: CostArithmetic): SeqrContext
    requires b.timeCreated.Some? && b.timeCompleted.Some?
  {
    SeqrContext(b.id, Get(b.attributes, "name"), InferBatchNamespace(b), ArGuidOf(b.attributes, arGuidName), arGuidName,
                Replace(HailUiUrl, "{batch_id}", IntToString(b.id)), b.timeCreated.value, b.timeCompleted.value,
                shares, arith)
  }

  /**
   * `get_finalised_entries_for_batch`: the time parser's ValueError when a
   * time is missing, the ratio lookup's AssertionError when no shares apply,
   * else the rows of the dataset jobs followed by the distributed rows.
   */
  method GetFinalisedEntriesForBatch(b: Batch, jobs: seq<Job>, m: ProportionMap, arGuidName: string,
                                     arith: CostArithmetic)
    returns (r: Result<seq<Row>, BillingError>)
    ensures (b.timeCreated.None? || b.timeCompleted.None?) ==> r == Err(ValueError(NoTimeMessage))
    ensures b.timeCreated.Some? && b.timeCompleted.Some? && SharesFor(b.timeCreated.value, m).Err? ==>
              r == Err(SharesFor(b.timeCreated.value, m).error)
    ensures b.timeCreated.Some? && b.timeCompleted.Some? && SharesFor(b.timeCreated.value, m).Ok? ==>
              r == Ok(BatchRows(ContextOf(b, arGuidName, SharesFor(b.timeCreated.value, m).value, arith), jobs))
  {
    if b.timeCreated.None? || b.timeCompleted.None? {
      return Err(ValueError(NoTimeMessage));
    }
    var shares: seq<(string, Share)>;
    if Before(b.timeCreated.value, SeqrFirstLoad) {
      shares := [("seqr", Share(1.0, 1))];
    } else {
      var found := GetRatiosFromDate(b.timeCreated.value, m);
      if found.Err? {
        return Err(found.error);
      }
      shares := found.value.1;
    }
    var ctx := ContextOf(b, arGuidName, shares, arith);
    var rows: seq<Row> := [];
    var noDataset: seq<Job> := [];
    var i := 0;
    while i < |jobs|
      invariant 0 <= i <= |jobs|
      invariant rows == DirectRows(ctx, jobs[..i])
      invariant noDataset == NoDatasetJobs(jobs[..i])
    {
      assert jobs[..i + 1][..i] == jobs[..i];
      var dataset := DatasetOfJob(jobs[i]);
      if dataset == "" {
        noDataset := noDataset + [jobs[i]];
      } else {
        var jobRows := DirectJobRows(ctx, jobs[i], dataset);
        rows := rows + jobRows;
      }
      i := i + 1;
    }
    assert jobs[..i] == jobs;
    var distributed := AllDistributedRows(ctx, noDataset);
    r := Ok(rows + distributed);
  }

  /** The loop over a dataset job's cost items. */
  method DirectJobRows(ctx: SeqrContext, job: Job, dataset: string) returns (rows: seq<Row>)
    ensures rows == DirectCostRows(ctx, job, dataset, job.cost)
  {
    rows := [];
    var k := 0;
    while k < |job.cost|
      invariant 0 <= k <= |job.cost|
      invariant rows == DirectCostRows(ctx, job, dataset, job.cost[..k])
    {
      var (resource, raw) := job.cost[k];
      assert job.cost[..k + 1][..k] == job.cost[..k];
      if !StartsWith(resource, "service-fee") {
        rows := rows + DirectResourceRows(ctx, job, dataset, resource, raw);
      }
      k := k + 1;
    }
    assert job.cost[..k] == job.cost;
  }

  /** The loop over the jobs without a dataset. */
  method AllDistributedRows(ctx: SeqrContext, jobs: seq<Job>) returns (rows: seq<Row>)
    ensures rows == DistributedRows(ctx, jobs)
  {
    rows := [];
    var i := 0;
    while i < |jobs|
      invariant 0 <= i <= |jobs|
      invariant rows == DistributedRows(ctx, jobs[..i])
    {
      assert jobs[..i + 1][..i] == jobs[..i];
      if |jobs[i].cost| > 0 {
        var jobRows := DistributedJobRows(ctx, jobs[i]);
        rows := rows + jobRows;
      }
      i := i + 1;
    }
    assert jobs[..i] == jobs;
  }

  /** The loops over a job's cost items and, within each, over the shares. */
  method DistributedJobRows(ctx: SeqrContext, job: Job) returns (rows: seq<Row>)
    ensures rows == DistributedCostRows(ctx, job, job.cost)
  {
    rows := [];
    var k := 0;
    while k < |job.cost|
      invariant 0 <= k <= |job.cost|
      invariant rows == DistributedCostRows(ctx, job, job.cost[..k])
    {
      var (resource, raw) := job.cost[k];
      assert job.cost[..k + 1][..k] == job.cost[..k];
      if !StartsWith(resource, "service-fee") {
        var shareRows := AllSharesRows(ctx, job, resource, raw);
        rows := rows + shareRows;
      }
      k := k + 1;
    }
    assert job.cost[..k] == job.cost;
  }

  /** The inner loop: one cost item split over the shares, in order. */
  method AllSharesRows(ctx: SeqrContext, job: Job, resource: string, raw: int) returns (shareRows: seq<Row>)
    ensures shareRows == SharesRows(ctx, job, resource, raw, ctx.shares)
  {
    shareRows := [];
    var d := 0;
    while d < |ctx.shares|
      invariant 0 <= d <= |ctx.shares|
      invariant shareRows == SharesRows(ctx, job, resource, raw, ctx.shares[..d])
    {
      assert ctx.shares[..d + 1][..d] == ctx.shares[..d];
      shareRows := shareRows + ShareRows(ctx, job, resource, raw, ctx.shares[d].0, ctx.shares[d].1);
      d := d + 1;
    }
    assert ctx.shares[..d] == ctx.shares;
  }

  // ---------------------------------------------------------------------
  // Properties of the rows

  /** What each entry row of a dataset job satisfies. */
  predicate DirectEntry(ctx: SeqrContext, row: Row)
  {
    row.topic != "" && row.service == Service(ServiceId, DirectDescription) &&
    !StartsWith(row.sku.description, "service-fee") && row.project.None? &&
    StartsWith(row.id, "seqr-" + row.topic + "-batch-" + IntToString(ctx.batchId) + "-job-")
  }

  /** What each distributed entry row satisfies: its topic is one of the shares' datasets. */
  predicate DistributedEntry(ctx: SeqrContext, row: Row)
  {
    (exists i :: 0 <= i < |ctx.shares| && row.topic == ctx.shares[i].0) &&
    row.service == Service(ServiceId, DistributedDescription) &&
    !StartsWith(row.sku.description, "service-fee") && row.project.None? && '/' !in row.id
  }

  lemma {:induction false} DirectCostRowsShape(ctx: SeqrContext, job: Job, dataset: string, costs: seq<(string, int)>)
    requires dataset != ""
    ensures var rows := DirectCostRows(ctx, job, dataset, costs);
            PairedWithCredits(rows, CreditTopic, SeqrProjectField) && EntriesSatisfy(rows, r => DirectEntry(ctx, r))
    decreases |costs|
  {
    if |costs| > 0 {
      var (resource, raw) := costs[|costs| - 1];
      DirectCostRowsShape(ctx, job, dataset, costs[..|costs| - 1]);
      var tail := if StartsWith(resource, "service-fee") then [] else DirectResourceRows(ctx, job, dataset, resource, raw);
      DirectKeyShape(ctx, job, dataset);
      var prefix := "seqr-" + dataset + "-batch-" + IntToString(ctx.batchId) + "-job-";
      assert (prefix + IntToString(job.jobId))[..|prefix|] == prefix;
      PairedAppend(DirectCostRows(ctx, job, dataset, costs[..|costs| - 1]), tail, CreditTopic, SeqrProjectField,
                   r => DirectEntry(ctx, r));
    }
  }

  lemma {:induction false} DirectRowsShape(ctx: SeqrContext, jobs: seq<Job>)
    ensures var rows := DirectRows(ctx, jobs);
            PairedWithCredits(rows, CreditTopic, SeqrProjectField) && EntriesSatisfy(rows, r => DirectEntry(ctx, r))
    decreases |jobs|
  {
    if |jobs| > 0 {
      var job := jobs[|jobs| - 1];
      DirectRowsShape(ctx, jobs[..|jobs| - 1]);
      var tail := if DatasetOfJob(job) == "" then [] else DirectCostRows(ctx, job, DatasetOfJob(job), job.cost);
      if DatasetOfJob(job) != "" {
        DirectCostRowsShape(ctx, job, DatasetOfJob(job), job.cost);
      }
      PairedAppend(DirectRows(ctx, jobs[..|jobs| - 1]), tail, CreditTopic, SeqrProjectField, r => DirectEntry(ctx, r));
    }
  }

  lemma {:induction false} SharesRowsShape(ctx: SeqrContext, job: Job, resource: string, raw: int, shares: seq<(string, Share)>)
    requires !StartsWith(resource, "service-fee")
    requires forall i :: 0 <= i < |shares| ==> shares[i] in ctx.shares
    ensures var rows := SharesRows(ctx, job, resource, raw, shares);
            PairedWithCredits(rows, CreditTopic, SeqrProjectField) && EntriesSatisfy(rows, r => DistributedEntry(ctx, r))
    decreases |shares|
  {
    if |shares| > 0 {
      SharesRowsShape(ctx, job, resource, raw, shares[..|shares| - 1]);
      var (dataset, share) := shares[|shares| - 1];
      var k :| 0 <= k < |ctx.shares| && ctx.shares[k] == shares[|shares| - 1];
      ShareRowsShape(ctx, job, resource, raw, k);
      PairedAppend(SharesRows(ctx, job, resource, raw, shares[..|shares| - 1]), ShareRows(ctx, job, resource, raw, dataset, share),
                   CreditTopic, SeqrProjectField, r => DistributedEntry(ctx, r));
    }
  }

  /** The pair of rows for one share: an entry under that share's dataset, then its credit. */
  lemma ShareRowsShape(ctx: SeqrContext, job: Job, resource: string, raw: int, k: nat)
    requires !StartsWith(resource, "service-fee") && k < |ctx.shares|
    ensures var rows := ShareRows(ctx, job, resource, raw, ctx.shares[k].0, ctx.shares[k].1);
            PairedWithCredits(rows, CreditTopic, SeqrProjectField) && EntriesSatisfy(rows, r => DistributedEntry(ctx, r))
  {
    ReplaceRemovesChar(Join(DistributedKeyParts(ctx, job, ctx.shares[k].0, resource), "-"), '/', "-");
  }

  lemma {:induction false} DistributedCostRowsShape(ctx: SeqrContext, job: Job, costs: seq<(string, int)>)
    ensures var rows := DistributedCostRows(ctx, job, costs);
            PairedWithCredits(rows, CreditTopic, SeqrProjectField) && EntriesSatisfy(rows, r => DistributedEntry(ctx, r))
    decreases |costs|
  {
    if |costs| > 0 {
      var (resource, raw) := costs[|costs| - 1];
      DistributedCostRowsShape(ctx, job, costs[..|costs| - 1]);
      var tail := if StartsWith(resource, "service-fee") then [] else SharesRows(ctx, job, resource, raw, ctx.shares);
      if !StartsWith(resource, "service-fee") {
        SharesRowsShape(ctx, job, resource, raw, ctx.shares);
      }
      PairedAppend(DistributedCostRows(ctx, job, costs[..|costs| - 1]), tail, CreditTopic, SeqrProjectField,
                   r => DistributedEntry(ctx, r));
    }
  }

  lemma {:induction false} DistributedRowsShape(ctx: SeqrContext, jobs: seq<Job>)
    ensures var rows := DistributedRows(ctx, jobs);
            PairedWithCredits(rows, CreditTopic, SeqrProjectField) && EntriesSatisfy(rows, r => DistributedEntry(ctx, r))
    decreases |jobs|
  {
    if |jobs| > 0 {
      var job := jobs[|jobs| - 1];
      DistributedRowsShape(ctx, jobs[..|jobs| - 1]);
      var tail := if |job.cost| == 0 then [] else DistributedCostRows(ctx, job, job.cost);
      if |job.cost| > 0 {
        DistributedCostRowsShape(ctx, job, job.cost);
      }
      PairedAppend(DistributedRows(ctx, jobs[..|jobs| - 1]), tail, CreditTopic, SeqrProjectField,
                   r => DistributedEntry(ctx, r));
    }
  }

  /**
   * Every row of a seqr batch is an entry immediately followed by its credit
   * to the Hail topic under the seqr project. Dataset jobs' entries are keyed
   * by dataset, batch and job; distributed entries go to a dataset of the
   * shares, and no entry is a service fee.
   */
  lemma BatchRowsShape(ctx: SeqrContext, jobs: seq<Job>)
    ensures PairedWithCredits(BatchRows(ctx, jobs), CreditTopic, SeqrProjectField)
    ensures var d := DirectRows(ctx, jobs);
            EntriesSatisfy(d, r => DirectEntry(ctx, r)) &&
            BatchRows(ctx, jobs)[..|d|] == d &&
            EntriesSatisfy(BatchRows(ctx, jobs)[|d|..], r => DistributedEntry(ctx, r))
  {
    var d := DirectRows(ctx, jobs);
    var s := DistributedRows(ctx, NoDatasetJobs(jobs));
    DirectRowsShape(ctx, jobs);
    DistributedRowsShape(ctx, NoDatasetJobs(jobs));
    PairedAppend(d, s, CreditTopic, SeqrProjectField, r => true);
    assert (d + s)[..|d|] == d && (d + s)[|d|..] == s;
  }

  /** Before the first load, every distributed entry is charged to seqr. */
  lemma BeforeFirstLoadAllToSeqr(ctx: SeqrContext, jobs: seq<Job>, m: ProportionMap, i: nat)
    requires SharesFor(ctx.start, m) == Ok(ctx.shares) && Before(ctx.start, SeqrFirstLoad)
    requires i < |DistributedRows(ctx, NoDatasetJobs(jobs))| / 2
    ensures DistributedRows(ctx, NoDatasetJobs(jobs))[2 * i].topic == "seqr"
  {
    DistributedRowsShape(ctx, NoDatasetJobs(jobs));
    assert DistributedEntry(ctx, DistributedRows(ctx, NoDatasetJobs(jobs))[2 * i]);
  }
}
