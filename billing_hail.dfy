// The Hail Batch billing function: the aggregate-table rows (and their
// credits) for the jobs of one finished batch.
module BillingHail {
  import opened Wrappers
  import opened Strings
  import opened Calendar
  import opened BillingUtils

  const ServiceId := "hail"
  const ExcludedBatchProjects: set<string> := {"hail", "seqr"}
  /** Batches created from this day on get the resource in their row keys. */
  const ResourceKeyCutoff: CalendarDate := Date(2023, 1, 1)
  const EntryDescription := "Hail compute"
  const CreditTopic := "hail"

  /**
   * `get_billing_projects`: the keys of the server configuration (`None`
   * where the secret is empty), without the excluded projects.
   */
  function GetBillingProjects(serverConfig: Option<set<string>>): (r: set<string>)
    ensures serverConfig.None? ==> r == {}
    ensures serverConfig.Some? ==> forall p :: p in r <==> p in serverConfig.value && p != "hail" && p != "seqr"
  {
    if serverConfig.None? then {} else serverConfig.value - ExcludedBatchProjects
  }

  /** The topic a batch's billing project is charged to: 'ci' batches stay with Hail. */
  function DatasetOf(billingProject: string): (r: string)
    ensures Lower(billingProject) == "ci" ==> r == "hail"
    ensures Lower(billingProject) != "ci" ==> r == billingProject
  {
    if Lower(billingProject) == "ci" then "hail" else billingProject
  }

  /** The batch attributes with 'ar_guid' moved to `arGuidName`. */
  function RenameArGuid(attributes: map<string, string>, arGuidName: string): (r: map<string, string>)
    ensures "ar_guid" in attributes ==>
              arGuidName in r && r[arGuidName] == attributes["ar_guid"] &&
              (arGuidName != "ar_guid" ==> "ar_guid" !in r)
    ensures "ar_guid" !in attributes ==> r == attributes
    ensures forall k :: k in attributes && k != "ar_guid" && k != arGuidName ==> k in r && r[k] == attributes[k]
  {
    if "ar_guid" in attributes then (attributes - {"ar_guid"})[arGuidName := attributes["ar_guid"]]
    else attributes
  }

  /** What every row of one batch shares. */
  datatype BatchContext = BatchContext(
    dataset: string,
    batchId: int,
    url: string,
    namespace: Option<string>,
    attributes: map<string, string>,
    start: CalendarDate,
    end: CalendarDate)

  /** The labels every row starts from, before the attributes are merged in. */
  function BaseLabels(ctx: BatchContext, jobId: int, resource: string): map<string, Option<string>>
  {
    map[
      "dataset" := Some(ctx.dataset),
      "batch_id" := Some(IntToString(ctx.batchId)),
      "job_id" := Some(IntToString(jobId)),
      "batch_resource" := Some(resource),
      "batch_name" := (if "name" in ctx.attributes then Some(ctx.attributes["name"]) else None),
      "url" := Some(ctx.url),
      "namespace" := ctx.namespace
    ]
  }

  /** A truthy 'name' label becomes 'job_name'. */
  function RenameName(labels: map<string, Option<string>>): map<string, Option<string>>
  {
    if "name" in labels && Truthy(labels["name"]) then (labels - {"name"})["job_name" := labels["name"]]
    else labels
  }

  /** 'sequencing_groups_gzip' is removed, and its truthy value decoded into 'sequencing_groups'. */
  function ExpandSequencingGroups(labels: map<string, Option<string>>, decode: string -> string): map<string, Option<string>>
  {
    if "sequencing_groups_gzip" in labels then
      var v := labels["sequencing_groups_gzip"];
      var rest := labels - {"sequencing_groups_gzip"};
      if Truthy(v) then rest["sequencing_groups" := Some(decode(v.value))] else rest
    else labels
  }

  /** The labels of the row of one job resource. */
  function JobLabels(ctx: BatchContext, job: Job, resource: string, decode: string -> string): map<string, string>
  {
    var merged := BaseLabels(ctx, job.jobId, resource) + Lift(ctx.attributes) + Lift(job.attributes);
    DropFalsy(ExpandSequencingGroups(RenameName(merged), decode))
  }

  /** The labels the renaming and decoding steps touch. */
  predicate Reserved(k: string)
  {
    k == "name" || k == "job_name" || k == "sequencing_groups_gzip" || k == "sequencing_groups"
  }

  /** The renaming and decoding steps leave the other labels alone. */
  lemma RenamingKeepsOthers(labels: map<string, Option<string>>, decode: string -> string, k: string)
    requires !Reserved(k)
    ensures var out := ExpandSequencingGroups(RenameName(labels), decode);
            (k in out <==> k in labels) && (k in labels ==> out[k] == labels[k])
  {
  }

  /** Job attributes override batch attributes, which override the base labels; falsy values are dropped. */
  lemma JobLabelsPrecedence(ctx: BatchContext, job: Job, resource: string, decode: string -> string, k: string)
    requires !Reserved(k)
    ensures var labels := JobLabels(ctx, job, resource, decode);
            var base := BaseLabels(ctx, job.jobId, resource);
            (k in job.attributes ==>
               (k in labels <==> job.attributes[k] != "") && (k in labels ==> labels[k] == job.attributes[k])) &&
            (k !in job.attributes && k in ctx.attributes ==>
               (k in labels <==> ctx.attributes[k] != "") && (k in labels ==> labels[k] == ctx.attributes[k])) &&
            (k !in job.attributes && k !in ctx.attributes ==>
               (k in labels <==> k in base && Truthy(base[k])) && (k in labels ==> Some(labels[k]) == base[k]))
  {
    var merged := BaseLabels(ctx, job.jobId, resource) + Lift(ctx.attributes) + Lift(job.attributes);
    RenamingKeepsOthers(merged, decode, k);
  }

  /** A truthy job 'name' attribute is reported as 'job_name' and 'name' itself is not kept. */
  lemma JobLabelsJobName(ctx: BatchContext, job: Job, resource: string, decode: string -> string)
    requires "name" in job.attributes && job.attributes["name"] != ""
    ensures "job_name" in JobLabels(ctx, job, resource, decode)
    ensures JobLabels(ctx, job, resource, decode)["job_name"] == job.attributes["name"]
    ensures "name" !in JobLabels(ctx, job, resource, decode)
  {
  }

  /** No label of a row has an empty value. */
  lemma JobLabelsTruthy(ctx: BatchContext, job: Job, resource: string, decode: string -> string)
    ensures forall k :: k in JobLabels(ctx, job, resource, decode) ==> JobLabels(ctx, job, resource, decode)[k] != ""
  {
  }

  /** The components of a row key: the resource is one only for batches created on or after the cutoff. */
  function KeyParts(ctx: BatchContext, jobId: int, resource: string): seq<string>
  {
    if Before(ctx.start, ResourceKeyCutoff) then
      [ServiceId, ctx.dataset, "batch", IntToString(ctx.batchId), "job", IntToString(jobId)]
    else
      [ServiceId, ctx.dataset, "batch", IntToString(ctx.batchId), "job", IntToString(jobId), resource]
  }

  /** The row key: its components joined by '-', with every '/' turned into '-'. */
  function EntryKey(ctx: BatchContext, jobId: int, resource: string): string
  {
    Replace(Join(KeyParts(ctx, jobId, resource), "-"), "/", "-")
  }

  /** Row keys never contain '/'. */
  lemma EntryKeyHasNoSlash(ctx: BatchContext, jobId: int, resource: string)
    ensures '/' !in EntryKey(ctx, jobId, resource)
  {
    ReplaceRemovesChar(Join(KeyParts(ctx, jobId, resource), "-"), '/', "-");
  }

  /** Before the cutoff the key is 'hail-{dataset}-batch-{b}-job-{j}'. */
  lemma EntryKeyBeforeCutoff(ctx: BatchContext, jobId: int, resource: string)
    requires Before(ctx.start, ResourceKeyCutoff)
    requires '/' !in ctx.dataset
    ensures EntryKey(ctx, jobId, resource) ==
            "hail-" + ctx.dataset + "-batch-" + IntToString(ctx.batchId) + "-job-" + IntToString(jobId)
  {
    var b, j := IntToString(ctx.batchId), IntToString(jobId);
    assert KeyParts(ctx, jobId, resource) == [ServiceId, ctx.dataset, "batch", b, "job", j];
    var key := DashedKey(ctx.dataset, b, j);
    NoSlashInNumbers(ctx.batchId, jobId);
    NoSlashNotContained(key);
    ReplaceAbsent(key, "/", "-");
  }

  /** The six components of a pre-cutoff key joined by '-'. */
  lemma DashedKey(d: string, b: string, j: string) returns (key: string)
    ensures key == Join([ServiceId, d, "batch", b, "job", j], "-")
    ensures key == "hail-" + d + "-batch-" + b + "-job-" + j
  {
    var parts := [ServiceId, d, "batch", b, "job", j];
    assert Join(parts[5..], "-") == j;
    assert Join(parts[4..], "-") == "job-" + j;
    assert Join(parts[3..], "-") == b + "-job-" + j;
    assert Join(parts[2..], "-") == "batch-" + b + "-job-" + j;
    assert Join(parts[1..], "-") == d + "-batch-" + b + "-job-" + j;
    key := "hail-" + d + "-batch-" + b + "-job-" + j;
  }

  lemma NoSlashNotContained(key: string)
    requires '/' !in key
    ensures !Contains(key, "/")
  {
    forall j | 0 <= j < |key|
      ensures !OccursAt(key, "/", j)
    {
      assert key[j..j + 1] == [key[j]];
    }
  }

  lemma NoSlashInNumbers(b: int, j: int)
    ensures '/' !in IntToString(b) && '/' !in IntToString(j)
  {
    var sb, sj := NatToString(if b < 0 then -b else b), NatToString(if j < 0 then -j else j);
    assert forall i :: 0 <= i < |sb| ==> IsDigit(sb[i]);
    assert forall i :: 0 <= i < |sj| ==> IsDigit(sj[i]);
  }

  /** The row of one job resource followed by its credit to the Hail topic. */
  function ResourceEntries(ctx: BatchContext, job: Job, resource: string, rawCost: int,
                           decode: string -> string, totalCost: int -> int): seq<Row>
  {
    var entry := GetHailEntry(
      EntryKey(ctx, job.jobId, resource), ctx.dataset, ServiceId, EntryDescription, totalCost(rawCost),
      if resource in job.resources then job.resources[resource] else 0,
      resource, ctx.start, ctx.end, JobLabels(ctx, job, resource, decode));
    [entry, GetCredit(entry, CreditTopic, HailProjectField)]
  }

  /** The rows of the cost items of a job, leaving out service fees. */
  function CostEntries(ctx: BatchContext, job: Job, costs: seq<(string, int)>,
                       decode: string -> string, totalCost: int -> int): seq<Row>
    decreases |costs|
  {
    if |costs| == 0 then []
    else
      var (resource, raw) := costs[|costs| - 1];
      CostEntries(ctx, job, costs[..|costs| - 1], decode, totalCost) +
      (if StartsWith(resource, "service-fee") then [] else ResourceEntries(ctx, job, resource, raw, decode, totalCost))
  }

  /** The rows of a list of jobs, job by job. */
  function JobsEntries(ctx: BatchContext, jobs: seq<Job>, decode: string -> string, totalCost: int -> int): seq<Row>
    decreases |jobs|
  {
    if |jobs| == 0 then []
    else
      JobsEntries(ctx, jobs[..|jobs| - 1], decode, totalCost) +
      CostEntries(ctx, jobs[|jobs| - 1], jobs[|jobs| - 1].cost, decode, totalCost)
  }

  // ---------------------------------------------------------------------
  // Properties of the rows

  /** What each entry row of a batch satisfies. */
  predicate WellFormedEntry(ctx: BatchContext, row: Row)
  {
    row.topic == ctx.dataset && row.service == Service(ServiceId, EntryDescription) &&
    !StartsWith(row.sku.description, "service-fee") && row.project.None? && '/' !in row.id
  }

  lemma {:induction false} CostEntriesShape(ctx: BatchContext, job: Job, costs: seq<(string, int)>,
                                            decode: string -> string, totalCost: int -> int)
    ensures var rows := CostEntries(ctx, job, costs, decode, totalCost);
            PairedWithCredits(rows, CreditTopic, HailProjectField) && EntriesSatisfy(rows, r => WellFormedEntry(ctx, r))
    decreases |costs|
  {
    if |costs| > 0 {
      var (resource, raw) := costs[|costs| - 1];
      CostEntriesShape(ctx, job, costs[..|costs| - 1], decode, totalCost);
      var tail := if StartsWith(resource, "service-fee") then [] else ResourceEntries(ctx, job, resource, raw, decode, totalCost);
      if !StartsWith(resource, "service-fee") {
        EntryKeyHasNoSlash(ctx, job.jobId, resource);
      }
      PairedAppend(CostEntries(ctx, job, costs[..|costs| - 1], decode, totalCost), tail, CreditTopic, HailProjectField, r => WellFormedEntry(ctx, r));
    }
  }

  /**
   * Every row of a batch is an entry for the batch's dataset immediately
   * followed by its credit under the Hail topic; no entry is a service fee
   * and no key contains '/'.
   */
  lemma {:induction false} JobsEntriesShape(ctx: BatchContext, jobs: seq<Job>, decode: string -> string, totalCost: int -> int)
    ensures var rows := JobsEntries(ctx, jobs, decode, totalCost);
            PairedWithCredits(rows, CreditTopic, HailProjectField) && EntriesSatisfy(rows, r => WellFormedEntry(ctx, r))
    decreases |jobs|
  {
    if |jobs| > 0 {
      JobsEntriesShape(ctx, jobs[..|jobs| - 1], decode, totalCost);
      CostEntriesShape(ctx, jobs[|jobs| - 1], jobs[|jobs| - 1].cost, decode, totalCost);
      PairedAppend(JobsEntries(ctx, jobs[..|jobs| - 1], decode, totalCost),
                   CostEntries(ctx, jobs[|jobs| - 1], jobs[|jobs| - 1].cost, decode, totalCost),
                   CreditTopic, HailProjectField, r => WellFormedEntry(ctx, r));
    }
  }

  // ---------------------------------------------------------------------
  // The batch generator

  /** A batch dict the generator reads and, for the guid rename, updates. */
  class BatchRecord {
    const id: int
    const billingProject: string
    const timeCreated: Option<CalendarDate>
    const timeCompleted: Option<CalendarDate>
    const user: Option<string>
    var attributes: map<string, string>

    constructor(b: Batch)
      ensures Value() == b
    {
      id, billingProject, timeCreated, timeCompleted, user := b.id, b.billingProject, b.timeCreated, b.timeCompleted, b.user;
      attributes := b.attributes;
    }

    function Value(): Batch
      reads this
    {
      Batch(id, billingProject, timeCreated, timeCompleted, attributes, user)
    }
  }

  /** The shared row fields of a batch with both times, once the guid is renamed. */
  function ContextOf(b: Batch, arGuidName: string): BatchContext
    requires b.timeCreated.Some? && b.timeCompleted.Some?
  {
    BatchContext(DatasetOf(b.billingProject), b.id, Replace(HailUiUrl, "{batch_id}", IntToString(b.id)),
                 InferBatchNamespace(b), RenameArGuid(b.attributes, arGuidName),
                 b.timeCreated.value, b.timeCompleted.value)
  }

  /**
   * `get_finalised_entries_for_batch`: nothing for the excluded projects, the
   * time parser's ValueError when the batch lacks its creation or completion
   * time, else the rows of every job; the batch's own attributes get the guid
   * rename.
   */
  method GetFinalisedEntriesForBatch(batch: BatchRecord, jobs: seq<Job>, arGuidName: string,
                                     decode: string -> string, totalCost: int -> int)
    returns (r: Result<seq<Row>, BillingError>)
    modifies batch
    ensures batch.billingProject in ExcludedBatchProjects ==> r == Ok([]) && batch.attributes == old(batch.attributes)
    ensures batch.billingProject !in ExcludedBatchProjects && (batch.timeCreated.None? || batch.timeCompleted.None?) ==>
              r == Err(ValueError(NoTimeMessage)) && batch.attributes == old(batch.attributes)
    ensures batch.billingProject !in ExcludedBatchProjects && batch.timeCreated.Some? && batch.timeCompleted.Some? ==>
              r == Ok(JobsEntries(ContextOf(old(batch.Value()), arGuidName), jobs, decode, totalCost)) &&
              batch.attributes == RenameArGuid(old(batch.attributes), arGuidName)
  {
    if batch.billingProject in ExcludedBatchProjects {
      return Ok([]);
    }
    if batch.timeCreated.None? || batch.timeCompleted.None? {
      return Err(ValueError(NoTimeMessage));
    }
    var ctx := ContextOf(batch.Value(), arGuidName);
    batch.attributes := RenameArGuid(batch.attributes, arGuidName);
    var rows := AllJobRows(ctx, jobs, decode, totalCost);
    r := Ok(rows);
  }

  /** The outer loop over the jobs of a batch. */
  method AllJobRows(ctx: BatchContext, jobs: seq<Job>, decode: string -> string, totalCost: int -> int)
    returns (rows: seq<Row>)
    ensures rows == JobsEntries(ctx, jobs, decode, totalCost)
  {
    rows := [];
    var i := 0;
    while i < |jobs|
      invariant 0 <= i <= |jobs|
      invariant rows == JobsEntries(ctx, jobs[..i], decode, totalCost)
    {
      var jobRows := JobRows(ctx, jobs[i], decode, totalCost);
      assert jobs[..i + 1][..i] == jobs[..i];
      rows := rows + jobRows;
      i := i + 1;
    }
    assert jobs[..i] == jobs;
  }

  /** The inner loop over one job's cost items. */
  method JobRows(ctx: BatchContext, job: Job, decode: string -> string, totalCost: int -> int) returns (rows: seq<Row>)
    ensures rows == CostEntries(ctx, job, job.cost, decode, totalCost)
  {
    rows := [];
    var k := 0;
    while k < |job.cost|
      invariant 0 <= k <= |job.cost|
      invariant rows == CostEntries(ctx, job, job.cost[..k], decode, totalCost)
    {
      var (resource, raw) := job.cost[k];
      assert job.cost[..k + 1][..k] == job.cost[..k];
      if !StartsWith(resource, "service-fee") {
        rows := rows + ResourceEntries(ctx, job, resource, raw, decode, totalCost);
      }
      k := k + 1;
    }
    assert job.cost[..k] == job.cost;
  }

  /** A project listed for aggregation is never one whose batches are skipped. */
  lemma ListedProjectsAreAggregated(serverConfig: Option<set<string>>, p: string)
    requires p in GetBillingProjects(serverConfig)
    ensures p !in ExcludedBatchProjects
  {
  }
}
