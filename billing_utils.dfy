// The shared helpers of the billing aggregator: the aggregate-table row,
// credits, topics, chunking, date windows, label reshaping and the upsert count.
module BillingUtils {
  import opened Wrappers
  import opened Strings
  import opened Calendar

  const DefaultTopic := "admin"
  const InvoiceDayDiff := 3
  const DefaultInsertChunkSize := 200000
  const MaxChunkSizeMb := 6
  const SeqrProjectId := "seqr-308602"
  const HailProjectId := "hail-295901"
  const HailBase := "https://batch.hail.populationgenomics.org.au"
  const HailUiUrl := HailBase + "/batches/{batch_id}"

  datatype Service = Service(id: string, description: string)
  datatype Sku = Sku(id: string, description: string)
  datatype ProjectField = ProjectField(id: string, name: string)

  const HailProjectField := ProjectField(HailProjectId, HailProjectId)
  const SeqrProjectField := ProjectField(SeqrProjectId, SeqrProjectId)

  /**
   * One row of the aggregate billing table. Amounts (`cost`, `usage`) are
   * whole numbers; `labels` is `None` where the row carries no labels.
   */
  datatype Row = Row(
    id: string,
    topic: string,
    service: Service,
    sku: Sku,
    usageStart: CalendarDate,
    usageEnd: CalendarDate,
    project: Option<ProjectField>,
    labels: Option<map<string, string>>,
    cost: int,
    usage: int,
    currency: string,
    invoiceMonth: string,
    costType: string)

  /** A Hail batch as the batch API describes it. */
  datatype Batch = Batch(
    id: int,
    billingProject: string,
    timeCreated: Option<CalendarDate>,
    timeCompleted: Option<CalendarDate>,
    attributes: map<string, string>,
    user: Option<string>)

  /** A job of a batch: its cost and usage per resource, and its attributes. */
  datatype Job = Job(
    jobId: int,
    cost: seq<(string, int)>,
    resources: map<string, int>,
    attributes: map<string, string>)

  /** The exceptions the billing functions raise. */
  datatype BillingError = ValueError(message: string) | AssertionError(message: string)

  /** What `parse_hail_time` raises for a missing time: the message ends in the repr of `None`. */
  const NoTimeMessage := "Could not convert date, time_str has no value: None"

  /** A Python string is truthy iff it is not empty; `None` is falsy. */
  predicate Truthy(v: Option<string>)
  {
    v.Some? && v.value != ""
  }

  // ---------------------------------------------------------------------
  // Label maps

  /** A string-valued dict seen as one whose values may be `None`. */
  function Lift(m: map<string, string>): (r: map<string, Option<string>>)
    ensures r.Keys == m.Keys && forall k :: k in m ==> r[k] == Some(m[k])
  {
    map k | k in m :: Some(m[k])
  }

  /** `dict(filter(lambda lbl: lbl[1], labels.items()))`: the labels with a truthy value. */
  function DropFalsy(labels: map<string, Option<string>>): (r: map<string, string>)
    ensures forall k :: k in r <==> k in labels && Truthy(labels[k])
    ensures forall k :: k in r ==> Some(r[k]) == labels[k] && r[k] != ""
  {
    map k | k in labels && Truthy(labels[k]) :: labels[k].value
  }

  /**
   * `get_hail_entry`: the row of one batch resource. The SKU is named after
   * the resource, the row has no project, and labels are absent when empty.
   */
  function GetHailEntry(
    key: string, topic: string, serviceId: string, description: string, cost: int, usage: int,
    batchResource: string, start: CalendarDate, end: CalendarDate, labels: map<string, string>): (r: Row)
    ensures r.id == key && r.topic == topic && r.service == Service(serviceId, description)
    ensures r.sku == Sku("hail-" + batchResource, batchResource) && r.project.None?
    ensures r.labels.None? <==> |labels| == 0
    ensures r.labels.Some? ==> r.labels.value == labels
    ensures r.cost == cost && r.usage == usage && r.usageStart == start && r.usageEnd == end
    ensures r.invoiceMonth == InvoiceMonthOf(start) && r.currency == "AUD" && r.costType == "regular"
  {
    Row(key, topic, Service(serviceId, description), Sku("hail-" + batchResource, batchResource),
        start, end, None, if |labels| == 0 then None else Some(labels), cost, usage, "AUD",
        InvoiceMonthOf(start), "regular")
  }

  // ---------------------------------------------------------------------
  // Credits

  /**
   * The credit row that balances `entry` under another topic and project.
   * Every field the credit does not name is copied from the entry.
   */
  function GetCredit(entry: Row, topic: string, project: ProjectField): (r: Row)
    ensures r.id == entry.id + "-credit" && r.topic == topic && r.cost == -entry.cost
    ensures r.service == Service(entry.service.id, entry.service.description + " Credit")
    ensures r.sku == Sku(entry.sku.id + "-credit", entry.sku.description + "-credit")
    ensures r.project == Some(project)
    ensures r.(id := entry.id, topic := entry.topic, service := entry.service, sku := entry.sku,
               project := entry.project, cost := entry.cost) == entry
  {
    entry.(
      topic := topic,
      id := entry.id + "-credit",
      cost := -entry.cost,
      service := entry.service.(description := entry.service.description + " Credit"),
      sku := Sku(entry.sku.id + "-credit", entry.sku.description + "-credit"),
      project := Some(project))
  }

  /** An entry and its credit cancel out, and the credit never reuses the entry's id. */
  lemma CreditBalances(entry: Row, topic: string, project: ProjectField)
    ensures entry.cost + GetCredit(entry, topic, project).cost == 0
    ensures GetCredit(entry, topic, project).id != entry.id
    ensures GetCredit(entry, topic, project).usageStart == entry.usageStart
    ensures GetCredit(entry, topic, project).labels == entry.labels
  {
    assert |GetCredit(entry, topic, project).id| == |entry.id| + 7;
  }

  /** Rows come in pairs: an entry, then its credit under `topic` and `project`. */
  predicate PairedWithCredits(rows: seq<Row>, topic: string, project: ProjectField)
  {
    |rows| % 2 == 0 &&
    forall i :: 0 <= i < |rows| / 2 ==> rows[2 * i + 1] == GetCredit(rows[2 * i], topic, project)
  }

  /** The entries (the even rows) satisfy `P`. */
  predicate EntriesSatisfy(rows: seq<Row>, P: Row -> bool)
  {
    forall i :: 0 <= i < |rows| / 2 ==> P(rows[2 * i])
  }

  lemma PairedAppend(a: seq<Row>, b: seq<Row>, topic: string, project: ProjectField, P: Row -> bool)
    requires PairedWithCredits(a, topic, project) && PairedWithCredits(b, topic, project)
    requires EntriesSatisfy(a, P) && EntriesSatisfy(b, P)
    ensures PairedWithCredits(a + b, topic, project) && EntriesSatisfy(a + b, P)
  {
    var ab := a + b;
    forall i | 0 <= i < |ab| / 2
      ensures ab[2 * i + 1] == GetCredit(ab[2 * i], topic, project) && P(ab[2 * i])
    {
      if i < |a| / 2 {
        assert ab[2 * i] == a[2 * i] && ab[2 * i + 1] == a[2 * i + 1];
      } else {
        var j := i - |a| / 2;
        assert ab[2 * i] == b[2 * j] && ab[2 * i + 1] == b[2 * j + 1];
      }
    }
  }

  // ---------------------------------------------------------------------
  // Topics

  /** The number of decimal digits at the end of `s`. */
  function TrailingDigits(s: string): (n: nat)
    ensures n <= |s|
    ensures forall i :: |s| - n <= i < |s| ==> IsDigit(s[i])
    ensures n < |s| ==> !IsDigit(s[|s| - n - 1])
    decreases |s|
  {
    if |s| > 0 && IsDigit(s[|s| - 1]) then TrailingDigits(s[..|s| - 1]) + 1 else 0
  }

  /** Removes a final '-' followed by one or more digits, the regex `-\d+$` on a line without a newline. */
  function DropDashDigits(s: string): (r: string)
    ensures r == s || (|r| + 1 < |s| && s[..|r|] == r && s[|r|] == '-' &&
                       forall i :: |r| < i < |s| ==> IsDigit(s[i]))
  {
    var n := TrailingDigits(s);
    if 0 < n < |s| && s[|s| - n - 1] == '-' then s[..|s| - n - 1] else s
  }

  /**
   * `re.sub(r'-\d+$', '', s)`: Python's `$` also matches just before a final
   * newline, which is kept.
   */
  function StripDashDigits(s: string): string
  {
    if |s| > 0 && s[|s| - 1] == '\n' then DropDashDigits(s[..|s| - 1]) + "\n" else DropDashDigits(s)
  }

  lemma {:induction false} TrailingDigitsOfDigits(p: string, d: string)
    requires forall i :: 0 <= i < |d| ==> IsDigit(d[i])
    requires |p| > 0 && !IsDigit(p[|p| - 1])
    ensures TrailingDigits(p + d) == |d|
    decreases |d|
  {
    if |d| == 0 {
      assert p + d == p;
    } else {
      var d' := d[..|d| - 1];
      assert (p + d)[..|p + d| - 1] == p + d';
      TrailingDigitsOfDigits(p, d');
    }
  }

  /** A topic ending in '-' and digits loses exactly that suffix. */
  lemma StripDashDigitsRemovesSuffix(p: string, d: string)
    requires |d| > 0 && forall i :: 0 <= i < |d| ==> IsDigit(d[i])
    ensures StripDashDigits(p + "-" + d) == p
  {
    var s := p + "-" + d;
    assert s[|s| - 1] == d[|d| - 1];
    TrailingDigitsOfDigits(p + "-", d);
    assert s[..|s| - |d| - 1] == p;
  }

  /** A topic not ending in a digit is left as it is. */
  lemma StripDashDigitsKeeps(s: string)
    requires |s| == 0 || (!IsDigit(s[|s| - 1]) && s[|s| - 1] != '\n')
    ensures StripDashDigits(s) == s
  {
  }

  /**
   * The topic of a billing row: the row's project id mapped through
   * `gcpToDataset` (ids with no entry map to themselves), the default topic
   * when that gives nothing, and a trailing '-digits' removed.
   */
  function BillingRowToTopic(row: Row, gcpToDataset: map<string, string>): (r: string)
    ensures row.project.None? ==> r == DefaultTopic
    ensures row.project.Some? && row.project.value.id !in gcpToDataset && row.project.value.id != "" ==>
              r == StripDashDigits(row.project.value.id)
    ensures row.project.Some? && row.project.value.id in gcpToDataset ==>
              r == (if gcpToDataset[row.project.value.id] == "" then DefaultTopic
                    else StripDashDigits(gcpToDataset[row.project.value.id]))
  {
    var projectId: Option<string> := if row.project.Some? then Some(row.project.value.id) else None;
    var topic: Option<string> :=
      match projectId
      case None => None
      case Some(p) => Some(if p in gcpToDataset then gcpToDataset[p] else p);
    if !Truthy(topic) then DefaultTopic else StripDashDigits(topic.value)
  }

  /** A dataset's numbered GCP projects share the dataset's topic. */
  lemma NumberedProjectsShareTopic(row: Row, dataset: string, number: string, gcpToDataset: map<string, string>)
    requires row.project.Some? && row.project.value.id == dataset + "-" + number
    requires row.project.value.id !in gcpToDataset
    requires |number| > 0 && forall i :: 0 <= i < |number| ==> IsDigit(number[i])
    ensures BillingRowToTopic(row, gcpToDataset) == dataset
  {
    StripDashDigitsRemovesSuffix(dataset, number);
  }

  // ---------------------------------------------------------------------
  // Chunking

  function Flatten<T>(ss: seq<seq<T>>): seq<T>
  {
    if |ss| == 0 then [] else ss[0] + Flatten(ss[1..])
  }

  lemma {:induction false} FlattenAppend<T>(a: seq<seq<T>>, b: seq<seq<T>>)
    ensures Flatten(a + b) == Flatten(a) + Flatten(b)
  {
    if |a| == 0 {
      assert a + b == b;
    } else {
      assert (a + b)[1..] == a[1..] + b;
      FlattenAppend(a[1..], b);
    }
  }

  /** `s` cut into consecutive pieces of `size` items, the last possibly shorter. */
  function Chunks<T>(s: seq<T>, size: int): (r: seq<seq<T>>)
    requires size > 0
    ensures Flatten(r) == s
    ensures forall i :: 0 <= i < |r| ==> 0 < |r[i]| <= size
    ensures forall i :: 0 <= i < |r| - 1 ==> |r[i]| == size
    decreases |s|
  {
    if |s| == 0 then []
    else if |s| <= size then [s]
    else [s[..size]] + Chunks(s[size..], size)
  }

  datatype RangeError = StepIsZero

  /**
   * `chunk(s, size)`: a zero size makes `range` raise ValueError, and a
   * negative one yields nothing.
   */
  function Chunk<T>(s: seq<T>, size: int): (r: Result<seq<seq<T>>, RangeError>)
    ensures size == 0 <==> r.Err?
    ensures size < 0 ==> r == Ok([])
    ensures size > 0 ==> r.Ok? && Flatten(r.value) == s &&
                         forall i :: 0 <= i < |r.value| - 1 ==> |r.value[i]| == size
  {
    if size == 0 then Err(StepIsZero)
    else if size < 0 then Ok([])
    else Ok(Chunks(s, size))
  }

  // ---------------------------------------------------------------------
  // Date windows

  /**
   * The windows `date_range_iterator(start, end, intv)` yields, on instants
   * counted in whole seconds. The interval must be positive: with a zero or
   * negative interval the source's loop never reaches `end` and does not stop.
   */
  method DateRangeIterator(start: int, end: int, intv: int) returns (r: seq<(int, int)>)
    requires intv > 0
    ensures |r| == 0 <==> start >= end
    ensures |r| > 0 ==> r[0].0 == start && r[|r| - 1].1 == end
    ensures forall i :: 0 <= i < |r| ==> r[i].0 < r[i].1 <= r[i].0 + intv
    ensures forall i :: 0 <= i < |r| - 1 ==> r[i].1 == r[i + 1].0 && r[i].1 == r[i].0 + intv
  {
    var dtFrom := start;
    var dtTo := start + intv;
    r := [];
    while dtTo < end
      invariant dtTo == dtFrom + intv
      invariant |r| == 0 ==> dtFrom == start
      invariant |r| > 0 ==> r[0].0 == start && r[|r| - 1].1 == dtFrom && dtFrom < end
      invariant forall i :: 0 <= i < |r| ==> r[i].0 < r[i].1 == r[i].0 + intv
      invariant forall i :: 0 <= i < |r| - 1 ==> r[i].1 == r[i + 1].0
      decreases end - dtTo
    {
      r := r + [(dtFrom, dtTo)];
      dtFrom := dtFrom + intv;
      dtTo := dtTo + intv;
    }
    if end < dtTo {
      dtTo := end;
    }
    if dtFrom < dtTo {
      r := r + [(dtFrom, dtTo)];
    }
  }

  /** The invoice month 'YYYYMM' of a date. */
  function InvoiceMonthOf(d: CalendarDate): string
  {
    IntToString(d.year) + ZeroPad(d.month, 2)
  }

  /** Three days before the first day of the month containing `d`. */
  function InvoiceWindowStart(d: Date): (r: Date)
    requires ValidDate(d)
    ensures ValidDate(r)
    ensures DayIndex(r) == DayIndex(FirstOfMonth(d)) - InvoiceDayDiff
  {
    MonthBoundaries(d);
    if d.month == 1 then Date(d.year - 1, 12, 31 - InvoiceDayDiff + 1)
    else Date(d.year, d.month - 1, DaysInMonth(d.year, d.month - 1) - InvoiceDayDiff + 1)
  }

  /** Three days after the last day of the month containing `d`. */
  function InvoiceWindowEnd(d: Date): (r: Date)
    requires ValidDate(d)
    ensures ValidDate(r)
    ensures DayIndex(r) == DayIndex(LastOfMonth(d)) + InvoiceDayDiff
    ensures d.month == 12 ==> r == Date(d.year + 1, 1, 3)
  {
    MonthBoundaries(d);
    if d.month == 12 then Date(d.year + 1, 1, InvoiceDayDiff)
    else Date(d.year, d.month + 1, InvoiceDayDiff)
  }

  /**
   * `get_invoice_month_range`: the invoice-month window of the month
   * containing `d`, from three days before its first day to three days
   * after its last day.
   */
  function InvoiceMonthRange(d: Date): (r: (Date, Date))
    requires ValidDate(d)
    ensures ValidDate(r.0) && ValidDate(r.1)
    ensures DayIndex(r.0) == DayIndex(FirstOfMonth(d)) - InvoiceDayDiff
    ensures DayIndex(r.1) == DayIndex(LastOfMonth(d)) + InvoiceDayDiff
    ensures d.month == 12 ==> r.1 == Date(d.year + 1, 1, 3)
  {
    (InvoiceWindowStart(d), InvoiceWindowEnd(d))
  }

  /** The days either side of the month containing `d`. */
  lemma MonthBoundaries(d: Date)
    requires ValidDate(d)
    ensures d.month == 1 ==> DayIndex(FirstOfMonth(d)) == DayIndex(Date(d.year - 1, 12, 31)) + 1
    ensures d.month > 1 ==> DayIndex(FirstOfMonth(d)) ==
                              DayIndex(Date(d.year, d.month - 1, DaysInMonth(d.year, d.month - 1))) + 1
    ensures d.month == 12 ==> DayIndex(Date(d.year + 1, 1, 1)) == DayIndex(LastOfMonth(d)) + 1
    ensures d.month < 12 ==> DayIndex(Date(d.year, d.month + 1, 1)) == DayIndex(LastOfMonth(d)) + 1
  {
    MonthStartBoundary(d);
    MonthEndBoundary(d);
  }

  lemma MonthStartBoundary(d: Date)
    requires ValidDate(d)
    ensures d.month == 1 ==> DayIndex(FirstOfMonth(d)) == DayIndex(Date(d.year - 1, 12, 31)) + 1
    ensures d.month > 1 ==> DayIndex(FirstOfMonth(d)) ==
                              DayIndex(Date(d.year, d.month - 1, DaysInMonth(d.year, d.month - 1))) + 1
  {
    if d.month == 1 { NewYear(d.year - 1); } else { NewMonth(d.year, d.month - 1); }
  }

  lemma MonthEndBoundary(d: Date)
    requires ValidDate(d)
    ensures d.month == 12 ==> DayIndex(Date(d.year + 1, 1, 1)) == DayIndex(LastOfMonth(d)) + 1
    ensures d.month < 12 ==> DayIndex(Date(d.year, d.month + 1, 1)) == DayIndex(LastOfMonth(d)) + 1
  {
    if d.month == 12 { NewYear(d.year); } else { NewMonth(d.year, d.month); }
  }

  // ---------------------------------------------------------------------
  // Namespaces

  /**
   * The namespace of a batch: its truthy 'namespace' attribute, else one
   * read off the user name, else `None`.
   */
  function InferBatchNamespace(b: Batch): (r: Option<string>)
    ensures "namespace" in b.attributes && b.attributes["namespace"] != "" ==> r == Some(b.attributes["namespace"])
    ensures r.None? <==>
              (("namespace" !in b.attributes || b.attributes["namespace"] == "") &&
               (b.user.None? || !(Contains(b.user.value, "test") || Contains(b.user.value, "standard") ||
                                  Contains(b.user.value, "full"))))
    ensures !("namespace" in b.attributes && b.attributes["namespace"] != "") && b.user.Some? ==>
              (Contains(b.user.value, "test") ==> r == Some("test")) &&
              (!Contains(b.user.value, "test") && (Contains(b.user.value, "standard") || Contains(b.user.value, "full")) ==>
                 r == Some("main"))
    ensures r.Some? && r.value != "test" && r.value != "main" ==>
              "namespace" in b.attributes && r == Some(b.attributes["namespace"])
  {
    var namespace: Option<string> := if "namespace" in b.attributes then Some(b.attributes["namespace"]) else None;
    if Truthy(namespace) then namespace
    else if Truthy(b.user) then
      if Contains(b.user.value, "test") then Some("test")
      else if Contains(b.user.value, "standard") then Some("main")
      else if Contains(b.user.value, "full") then Some("main")
      else None
    else None
  }

  // ---------------------------------------------------------------------
  // BigQuery label records

  datatype LabelError = KeyError(key: string)

  /** An item naming one label as {'key': K, 'value': V}. */
  predicate IsKeyValue(kv: map<string, string>)
  {
    "key" in kv
  }

  /** `labels` updated by one item of the list. */
  function AbsorbLabel(labels: map<string, string>, kv: map<string, string>): Result<map<string, string>, LabelError>
  {
    if IsKeyValue(kv) then
      if "value" in kv then Ok(labels[kv["key"] := kv["value"]]) else Err(KeyError("value"))
    else Ok(labels + kv)
  }

  /** The label map that `reformat_bigqquery_labels` builds from a list of items. */
  function ReformatLabels(data: seq<map<string, string>>): Result<map<string, string>, LabelError>
    decreases |data|
  {
    if |data| == 0 then Ok(map[])
    else
      match ReformatLabels(data[..|data| - 1])
      case Err(e) => Err(e)
      case Ok(labels) => AbsorbLabel(labels, data[|data| - 1])
  }

  /** The label list is reshaped in order, failing at an unpaired 'key'. */
  method ReformatBigqueryLabels(data: seq<map<string, string>>) returns (r: Result<map<string, string>, LabelError>)
    ensures r == ReformatLabels(data)
  {
    var labels: map<string, string> := map[];
    var i := 0;
    while i < |data|
      invariant 0 <= i <= |data|
      invariant ReformatLabels(data[..i]) == Ok(labels)
    {
      var kv := data[i];
      assert data[..i + 1][..i] == data[..i];
      if "key" in kv {
        if "value" !in kv {
          r := Err(KeyError("value"));
          ReformatLabelsKeepsError(data, i + 1);
          return;
        }
        labels := labels[kv["key"] := kv["value"]];
      } else {
        labels := labels + kv;
      }
      i := i + 1;
    }
    assert data[..i] == data;
    r := Ok(labels);
  }

  /** Once an item fails, every longer prefix fails with the same error. */
  lemma {:induction false} ReformatLabelsKeepsError(data: seq<map<string, string>>, n: nat)
    requires 0 < n <= |data|
    requires IsKeyValue(data[n - 1]) && "value" !in data[n - 1]
    requires ReformatLabels(data[..n - 1]).Ok?
    ensures ReformatLabels(data) == Err(KeyError("value"))
    decreases |data|
  {
    if n < |data| {
      assert data[..|data| - 1][..n - 1] == data[..n - 1];
      ReformatLabelsKeepsError(data[..|data| - 1], n);
    } else {
      assert data[..|data| - 1] == data[..n - 1];
    }
  }

  /** An item whose 'key' has no 'value'. */
  predicate MissingValue(kv: map<string, string>)
  {
    IsKeyValue(kv) && "value" !in kv
  }

  /** Reshaping fails exactly when some item has a 'key' but no 'value'. */
  lemma {:induction false} ReformatLabelsFails(data: seq<map<string, string>>)
    ensures ReformatLabels(data).Err? <==> exists i :: 0 <= i < |data| && MissingValue(data[i])
    decreases |data|
  {
    if |data| > 0 {
      var front := data[..|data| - 1];
      ReformatLabelsFails(front);
      assert forall i :: 0 <= i < |front| ==> front[i] == data[i];
      if exists i :: 0 <= i < |data| && MissingValue(data[i]) {
        var i :| 0 <= i < |data| && MissingValue(data[i]);
        if i < |front| {
          assert MissingValue(front[i]);
        }
      }
    }
  }

  /** Whether an item writes label `k`. */
  predicate Mentions(kv: map<string, string>, k: string)
  {
    if IsKeyValue(kv) then kv["key"] == k else k in kv
  }

  /** The value an item writes for the label it mentions. */
  function Written(kv: map<string, string>, k: string): string
    requires Mentions(kv, k) && !MissingValue(kv)
  {
    if IsKeyValue(kv) then kv["value"] else kv[k]
  }

  /** Later items win: a label holds the value of the last item that writes it. */
  lemma {:induction false} ReformatLabelsLastWins(data: seq<map<string, string>>, i: nat, k: string)
    requires i < |data| && ReformatLabels(data).Ok?
    requires Mentions(data[i], k)
    requires forall j :: i < j < |data| ==> !Mentions(data[j], k)
    ensures !MissingValue(data[i])
    ensures k in ReformatLabels(data).value && ReformatLabels(data).value[k] == Written(data[i], k)
    decreases |data|
  {
    var front := data[..|data| - 1];
    if i < |data| - 1 {
      assert ReformatLabels(front).Ok?;
      assert forall j :: i < j < |front| ==> front[j] == data[j];
      ReformatLabelsLastWins(front, i, k);
    }
  }

  /** A label no item writes is absent from the result. */
  lemma {:induction false} ReformatLabelsOnlyWritten(data: seq<map<string, string>>, k: string)
    requires ReformatLabels(data).Ok?
    requires forall j :: 0 <= j < |data| ==> !Mentions(data[j], k)
    ensures k !in ReformatLabels(data).value
    decreases |data|
  {
    if |data| > 0 {
      ReformatLabelsOnlyWritten(data[..|data| - 1], k);
    }
  }

  // ---------------------------------------------------------------------
  // Upserting rows

  datatype UpsertError = ZeroDivisionError

  /** The rows whose id is not already stored, in order. */
  function NewRows(rows: seq<Row>, existing: set<string>): (r: seq<Row>)
    ensures |r| <= |rows|
    ensures forall i :: 0 <= i < |r| ==> r[i].id !in existing && r[i] in rows
  {
    if |rows| == 0 then []
    else (if rows[0].id in existing then [] else [rows[0]]) + NewRows(rows[1..], existing)
  }

  lemma {:induction false} NewRowsAppend(a: seq<Row>, b: seq<Row>, existing: set<string>)
    ensures NewRows(a + b, existing) == NewRows(a, existing) + NewRows(b, existing)
  {
    if |a| == 0 {
      assert a + b == b;
    } else {
      assert (a + b)[1..] == a[1..] + b;
      NewRowsAppend(a[1..], b, existing);
    }
  }

  /** `ceil(n / d)` for a non-zero integer divisor. */
  function CeilDiv(n: nat, d: int): int
    requires d != 0
  {
    if d > 0 then (n + d - 1) / d else -(n / -d)
  }

  /**
   * The chunk size the upsert settles on for `n > 0` rows, `None` where it
   * divides by zero; `totalMb` is the measured size of the row list.
   */
  function EffectiveChunkSize(n: nat, chunkSize: int, totalMb: nat): Option<int>
    requires n > 0
  {
    if chunkSize == 0 then None
    else
      var nChunks := CeilDiv(n, chunkSize);
      if nChunks == 0 then None
      else if nChunks > 0 && totalMb > MaxChunkSizeMb * nChunks then Some(CeilDiv(totalMb, MaxChunkSizeMb))
      else Some(chunkSize)
  }

  /** A positive requested chunk size always gives a positive effective one. */
  lemma EffectiveChunkSizePositive(n: nat, chunkSize: int, totalMb: nat)
    requires n > 0 && chunkSize > 0
    ensures EffectiveChunkSize(n, chunkSize, totalMb).Some?
    ensures EffectiveChunkSize(n, chunkSize, totalMb).value > 0
  {
    assert CeilDiv(n, chunkSize) >= 1;
  }

  /**
   * `upsert_rows_into_bigquery`: the number of rows inserted, and in a real
   * run the row batches handed to the table load, one per chunk with new rows.
   */
  method Upsert(objs: seq<Row>, existing: set<string>, dryRun: bool, chunkSize: int, totalMb: nat)
    returns (r: Result<nat, UpsertError>, loads: seq<seq<Row>>)
    ensures |objs| == 0 ==> r == Ok(0) && loads == []
    ensures |objs| > 0 && EffectiveChunkSize(|objs|, chunkSize, totalMb).None? ==> r == Err(ZeroDivisionError)
    ensures |objs| > 0 && EffectiveChunkSize(|objs|, chunkSize, totalMb) == Some(chunkSize) && chunkSize < 0 ==>
              r == Ok(0) && loads == []
    ensures |objs| > 0 && EffectiveChunkSize(|objs|, chunkSize, totalMb).Some? &&
            EffectiveChunkSize(|objs|, chunkSize, totalMb).value > 0 ==>
              r == Ok(|NewRows(objs, existing)|) &&
              (dryRun ==> loads == []) &&
              (!dryRun ==> Flatten(loads) == NewRows(objs, existing))
    ensures forall i :: 0 <= i < |loads| ==> |loads[i]| > 0
  {
    loads := [];
    if |objs| == 0 {
      return Ok(0), [];
    }
    var size := EffectiveChunkSize(|objs|, chunkSize, totalMb);
    if size.None? {
      return Err(ZeroDivisionError), [];
    }
    if size.value < 0 {
      return Ok(0), [];
    }
    var chunks := Chunks(objs, size.value);
    var inserts;
    inserts, loads := InsertChunks(chunks, existing, dryRun);
    r := Ok(inserts);
  }

  /** The chunk loop of the upsert: each chunk's new rows are counted and, in a real run, loaded. */
  method InsertChunks(chunks: seq<seq<Row>>, existing: set<string>, dryRun: bool)
    returns (inserts: nat, loads: seq<seq<Row>>)
    ensures inserts == |NewRows(Flatten(chunks), existing)|
    ensures dryRun ==> loads == []
    ensures !dryRun ==> Flatten(loads) == NewRows(Flatten(chunks), existing)
    ensures forall i :: 0 <= i < |loads| ==> |loads[i]| > 0
  {
    inserts, loads := 0, [];
    var k := 0;
    while k < |chunks|
      invariant 0 <= k <= |chunks|
      invariant inserts == |NewRows(Flatten(chunks[..k]), existing)|
      invariant dryRun ==> loads == []
      invariant !dryRun ==> Flatten(loads) == NewRows(Flatten(chunks[..k]), existing)
      invariant forall i :: 0 <= i < |loads| ==> |loads[i]| > 0
    {
      var filtered := NewRows(chunks[k], existing);
      ChunkStep(chunks, k, existing);
      if |filtered| > 0 {
        inserts := inserts + |filtered|;
        if !dryRun {
          FlattenAppend(loads, [filtered]);
          assert Flatten([filtered]) == filtered;
          loads := loads + [filtered];
        }
      }
      k := k + 1;
    }
    assert chunks[..k] == chunks;
  }

  lemma ChunkStep(chunks: seq<seq<Row>>, k: nat, existing: set<string>)
    requires k < |chunks|
    ensures NewRows(Flatten(chunks[..k + 1]), existing) ==
            NewRows(Flatten(chunks[..k]), existing) + NewRows(chunks[k], existing)
  {
    assert chunks[..k + 1] == chunks[..k] + [chunks[k]];
    FlattenAppend(chunks[..k], [chunks[k]]);
    assert Flatten([chunks[k]]) == chunks[k];
    NewRowsAppend(Flatten(chunks[..k]), chunks[k], existing);
  }
}
