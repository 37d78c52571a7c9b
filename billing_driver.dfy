// The billing aggregator deployment: the aggregator cloud functions, their
// schedules and alert policies, and the destination table name check.
module BillingDriver {
  import opened Wrappers
  import opened Strings

  datatype DeployError = ValueError(message: string)

  /** The billing project, and the billing export the aggregators read. */
  datatype BillingGcp = BillingGcp(projectId: string, accountId: string, sourceBqTable: string)

  datatype AggregatorConfig = AggregatorConfig(
    destinationBqTable: string,
    functions: seq<string>,
    intervalHours: int)

  datatype BillingConfig = BillingConfig(
    coordinatorMachineAccount: string,
    gcp: BillingGcp,
    aggregator: Option<AggregatorConfig>)

  /** A cloud function and the alert policy created beside it. */
  datatype CloudFunction = CloudFunction(
    resourceName: string,
    name: string,
    memory: string,
    cpu: int,
    env: map<string, string>,
    buildEnv: map<string, string>,
    alertPolicyName: string,
    alertDisplayName: string)

  datatype SchedulerJob = SchedulerJob(resourceName: string, schedule: string, timeZone: string)

  /** What the aggregator setup creates, and whether it prints the uneven-interval warning. */
  datatype AggregatorSetup = AggregatorSetup(warning: bool, functions: seq<CloudFunction>, jobs: seq<SchedulerJob>)

  const TimeZone := "Australia/Sydney"
  const CostReportingSchedule := "0 9 * * *"

  // ---------------------------------------------------------------------
  // Names

  /** Python `s.capitalize()` on ASCII text: the first letter upper case, the rest lower case. */
  function Capitalize(s: string): (r: string)
    ensures |r| == |s|
    ensures |s| > 0 ==> r[0] == UpperChar(s[0]) && r[1..] == Lower(s[1..])
  {
    if |s| == 0 then "" else [UpperChar(s[0])] + Lower(s[1..])
  }

  /** The alert policy of a function named `name`: lower case, spaces turned into dashes. */
  function AlertPolicyName(name: string): string
  {
    "billing-" + Replace(Lower(name), " ", "-") + "-alert"
  }

  lemma AlertPolicyNameShape(name: string)
    ensures var a := AlertPolicyName(name);
            StartsWith(a, "billing-") && EndsWith(a, "-alert") && ' ' !in a
  {
    var mid := Replace(Lower(name), " ", "-");
    ReplaceRemovesChar(Lower(name), ' ', "-");
    var a := AlertPolicyName(name);
    assert a == "billing-" + mid + "-alert";
    assert a[..8] == "billing-";
    assert a[|a| - 6..] == "-alert";
    forall i | 0 <= i < |a| ensures a[i] != ' ' {
      if 8 <= i < 8 + |mid| {
        assert a[i] == mid[i - 8];
      }
    }
  }

  function FunctionResourceName(fn: string): string
  {
    "billing-aggregator-" + fn + "-billing-function"
  }

  function SchedulerJobName(fn: string): string
  {
    "billing-aggregator-scheduler-job-" + fn
  }

  /** The function name can be read back from its resource name. */
  lemma FunctionResourceNameInverse(fn: string)
    ensures var a := FunctionResourceName(fn); |a| == |fn| + 36 && a[19..|a| - 17] == fn
  {
  }

  /** The function name can be read back from its scheduler job's name. */
  lemma SchedulerJobNameInverse(fn: string)
    ensures var a := SchedulerJobName(fn); |a| == |fn| + 33 && a[33..] == fn
  {
  }

  /** Different functions get different function and scheduler-job resources. */
  lemma ResourceNamesInjective(f: string, g: string)
    requires f != g
    ensures FunctionResourceName(f) != FunctionResourceName(g)
    ensures SchedulerJobName(f) != SchedulerJobName(g)
  {
    FunctionResourceNameInverse(f);
    FunctionResourceNameInverse(g);
    SchedulerJobNameInverse(f);
    SchedulerJobNameInverse(g);
  }

  // ---------------------------------------------------------------------
  // Per-function values

  /** Memory by function: more for hail, most for seqr. */
  function Memory(fn: string): (r: string)
    ensures fn == "hail" ==> r == "2048M"
    ensures fn == "seqr" ==> r == "3072M"
    ensures fn != "hail" && fn != "seqr" ==> r == "1024M"
  {
    if fn == "seqr" then "3072M" else if fn == "hail" then "2048M" else "1024M"
  }

  /** The cron schedule: minute 0 of every `h`-th hour. */
  function Schedule(h: int): string
  {
    "0 */" + IntToString(h) + " * * *"
  }

  /** The environment each aggregator function runs with; the look-back is two intervals. */
  function AggregatorEnv(gcp: BillingGcp, agg: AggregatorConfig): (env: map<string, string>)
    ensures env.Keys == {"GCP_AGGREGATE_DEST_TABLE", "GCP_BILLING_SOURCE_TABLE", "DEFAULT_INTERVAL_HOURS", "BILLING_PROJECT_ID"}
    ensures env["DEFAULT_INTERVAL_HOURS"] == IntToString(2 * agg.intervalHours)
    ensures env["GCP_AGGREGATE_DEST_TABLE"] == agg.destinationBqTable
    ensures env["GCP_BILLING_SOURCE_TABLE"] == gcp.sourceBqTable && env["BILLING_PROJECT_ID"] == gcp.projectId
  {
    map[
      "GCP_AGGREGATE_DEST_TABLE" := agg.destinationBqTable,
      "GCP_BILLING_SOURCE_TABLE" := gcp.sourceBqTable,
      "DEFAULT_INTERVAL_HOURS" := IntToString(2 * agg.intervalHours),
      "BILLING_PROJECT_ID" := gcp.projectId
    ]
  }

  /** The look-back the functions are given reads back as twice the interval. */
  lemma DefaultIntervalIsTwice(gcp: BillingGcp, agg: AggregatorConfig)
    ensures ParseInt(AggregatorEnv(gcp, agg)["DEFAULT_INTERVAL_HOURS"]) == Some(2 * agg.intervalHours)
  {
    ParseIntOfIntToString(2 * agg.intervalHours);
  }

  /**
   * `create_cloud_function`: the build names its source file when there is
   * one; the alert policy is named after the function.
   */
  function CreateCloudFunction(resourceName: string, name: string, sourceFile: Option<string>, memory: string,
                               cpu: int, env: map<string, string>): (r: CloudFunction)
    ensures "GOOGLE_FUNCTION_SOURCE" in r.buildEnv <==> sourceFile.Some? && sourceFile.value != ""
    ensures "GOOGLE_FUNCTION_SOURCE" in r.buildEnv ==> r.buildEnv == map["GOOGLE_FUNCTION_SOURCE" := sourceFile.value]
    ensures r.alertPolicyName == AlertPolicyName(name)
    ensures r.alertDisplayName == Capitalize(name) + " Billing Function Error Alert"
  {
    var buildEnv := if sourceFile.Some? && sourceFile.value != "" then map["GOOGLE_FUNCTION_SOURCE" := sourceFile.value] else map[];
    CloudFunction(resourceName, name, memory, cpu, env, buildEnv, AlertPolicyName(name),
                  Capitalize(name) + " Billing Function Error Alert")
  }

  /** The cloud function of one aggregator. */
  function AggregatorFunction(gcp: BillingGcp, agg: AggregatorConfig, fn: string): CloudFunction
  {
    CreateCloudFunction(FunctionResourceName(fn), "Aggregator " + Capitalize(fn), Some(fn + ".py"),
                        Memory(fn), 1, AggregatorEnv(gcp, agg))
  }

  /** The scheduler job that triggers one aggregator. */
  function AggregatorJob(agg: AggregatorConfig, fn: string): SchedulerJob
  {
    SchedulerJob(SchedulerJobName(fn), Schedule(agg.intervalHours), TimeZone)
  }

  // ---------------------------------------------------------------------
  // Setup

  function IntervalMessage(h: int): string
  {
    "Invalid aggregator interval, " + IntToString(h) + " hours (0, 24]"
  }

  /** The interval check: ValueError outside (0, 24]; else whether to warn that it does not divide a day. */
  function CheckInterval(h: int): (r: Result<bool, DeployError>)
    ensures r.Err? <==> !(0 < h <= 24)
    ensures r.Err? ==> r.error == ValueError(IntervalMessage(h))
    ensures r.Ok? ==> (r.value <==> 24 % h != 0)
  {
    if !(0 < h <= 24) then Err(ValueError(IntervalMessage(h))) else Ok(24 % h != 0)
  }

  /** The cloud functions of a sequence of aggregators, one each, in order. */
  function AggregatorFunctions(gcp: BillingGcp, agg: AggregatorConfig, fns: seq<string>): (r: seq<CloudFunction>)
    ensures |r| == |fns|
    ensures forall i :: 0 <= i < |fns| ==> r[i] == AggregatorFunction(gcp, agg, fns[i])
    decreases |fns|
  {
    seq(|fns|, i requires 0 <= i < |fns| => AggregatorFunction(gcp, agg, fns[i]))
  }

  /** The scheduler jobs of a sequence of aggregators, one each, in order. */
  function AggregatorJobs(agg: AggregatorConfig, fns: seq<string>): (r: seq<SchedulerJob>)
    ensures |r| == |fns|
    ensures forall i :: 0 <= i < |fns| ==> r[i] == AggregatorJob(agg, fns[i])
    decreases |fns|
  {
    seq(|fns|, i requires 0 <= i < |fns| => AggregatorJob(agg, fns[i]))
  }

  /** The cloud function and scheduler job of every configured aggregator, in order. */
  method BuildAggregators(gcp: BillingGcp, agg: AggregatorConfig) returns (functions: seq<CloudFunction>, jobs: seq<SchedulerJob>)
    ensures functions == AggregatorFunctions(gcp, agg, agg.functions)
    ensures jobs == AggregatorJobs(agg, agg.functions)
  {
    functions := [];
    jobs := [];
    var fns := agg.functions;
    var i := 0;
    while i < |fns|
      invariant 0 <= i <= |fns|
      invariant functions == AggregatorFunctions(gcp, agg, fns[..i])
      invariant jobs == AggregatorJobs(agg, fns[..i])
    {
      var fn := fns[i];
      AggregatorsStep(gcp, agg, fns, i);
      functions := functions + [AggregatorFunction(gcp, agg, fn)];
      jobs := jobs + [AggregatorJob(agg, fn)];
      i := i + 1;
    }
    assert fns[..i] == fns;
  }

  lemma AggregatorsStep(gcp: BillingGcp, agg: AggregatorConfig, fns: seq<string>, i: nat)
    requires i < |fns|
    ensures AggregatorFunctions(gcp, agg, fns[..i + 1]) == AggregatorFunctions(gcp, agg, fns[..i]) + [AggregatorFunction(gcp, agg, fns[i])]
    ensures AggregatorJobs(agg, fns[..i + 1]) == AggregatorJobs(agg, fns[..i]) + [AggregatorJob(agg, fns[i])]
  {
    assert fns[..i + 1] == fns[..i] + [fns[i]];
  }

  /**
   * `setup_aggregator_functions`: after the interval check, one cloud
   * function and one scheduler job per configured function, in order.
   */
  method SetupAggregatorFunctions(gcp: BillingGcp, agg: AggregatorConfig) returns (r: Result<AggregatorSetup, DeployError>)
    ensures r.Err? <==> !(0 < agg.intervalHours <= 24)
    ensures r.Err? ==> r.error == ValueError(IntervalMessage(agg.intervalHours))
    ensures r.Ok? ==> (r.value.warning <==> 24 % agg.intervalHours != 0)
    ensures r.Ok? ==> r.value.functions == AggregatorFunctions(gcp, agg, agg.functions)
    ensures r.Ok? ==> r.value.jobs == AggregatorJobs(agg, agg.functions)
  {
    var check := CheckInterval(agg.intervalHours);
    if check.Err? {
      return Err(check.error);
    }
    var functions, jobs := BuildAggregators(gcp, agg);
    r := Ok(AggregatorSetup(check.value, functions, jobs));
  }

  /**
   * `main`'s aggregator step: skipped (`None`) unless billing and its
   * aggregator are both configured, else the aggregator setup.
   */
  method MainAggregators(billing: Option<BillingConfig>) returns (r: Option<Result<AggregatorSetup, DeployError>>)
    ensures r.None? <==> billing.None? || billing.value.aggregator.None?
    ensures r.Some? ==> var agg := billing.value.aggregator.value;
                        (r.value.Err? <==> !(0 < agg.intervalHours <= 24)) &&
                        (r.value.Ok? ==> r.value.value.functions == AggregatorFunctions(billing.value.gcp, agg, agg.functions) &&
                                         r.value.value.jobs == AggregatorJobs(agg, agg.functions))
  {
    if billing.None? || billing.value.aggregator.None? {
      return None;
    }
    var setup := SetupAggregatorFunctions(billing.value.gcp, billing.value.aggregator.value);
    r := Some(setup);
  }

  // ---------------------------------------------------------------------
  // Destination table

  const TableFormatMessage := "Invalid destination_bq_table, should be in the format: project_id.dataset_id.table_id"
  const TableProjectMessage := "Invalid destination_bq_table, project_id does not match the billing project_id"

  /** `extract_dataset_table`: exactly three '.'-parts, the first of them the billing project. */
  function ExtractDatasetTable(table: string, projectId: string): (r: Result<(string, string, string), DeployError>)
    ensures |Split(table, ".")| != 3 ==> r == Err(ValueError(TableFormatMessage))
    ensures |Split(table, ".")| == 3 && Split(table, ".")[0] != projectId ==> r == Err(ValueError(TableProjectMessage))
    ensures r.Ok? ==> r.value.0 == projectId && table == r.value.0 + "." + r.value.1 + "." + r.value.2
  {
    var parts := Split(table, ".");
    if |parts| != 3 then Err(ValueError(TableFormatMessage))
    else if parts[0] != projectId then Err(ValueError(TableProjectMessage))
    else
      SplitJoinInverse(table, ".");
      JoinCons(parts[0], parts[1..], ".");
      JoinCons(parts[1], parts[2..], ".");
      assert parts == [parts[0]] + parts[1..] && parts[1..] == [parts[1]] + parts[2..];
      Ok((parts[0], parts[1], parts[2]))
  }

  /** Any project, dataset and table without a '.' pass the check when the project is the billing one. */
  lemma ExtractDatasetTableOfParts(p: string, d: string, t: string)
    requires '.' !in p && '.' !in d && '.' !in t
    ensures ExtractDatasetTable(p + "." + d + "." + t, p) == Ok((p, d, t))
  {
    SepSafeChar(p, '.');
    SepSafeChar(d, '.');
    SepSafeChar(t, '.');
    var parts := [p, d, t];
    JoinCons(p, [d, t], ".");
    JoinCons(d, [t], ".");
    assert [p] + [d, t] == parts && [d] + [t] == [d, t];
    assert Join([t], ".") == t;
    assert Join(parts, ".") == p + "." + d + "." + t;
    SplitJoin(parts, ".");
    assert Split(p + "." + d + "." + t, ".") == parts;
  }
}
