// The monthly billing upload: pick the invoice month, read that month's
// summary rows from the aggregate table within the invoice window, and
// append them to the year's sheet.
module MonthlyAggregate {
  import opened Wrappers
  import opened Strings
  import opened Calendar
  import opened BillingUtils

  /** Why `datetime.strptime(s, '%Y%m')` refuses a string. */
  datatype StrptimeError = DoesNotMatch | UnconvertedData(rest: string) | YearOutOfRange

  /** A row of the monthly summary table. */
  datatype SummaryRow = SummaryRow(topic: string, month: string, costCategory: string, usageEnd: CalendarDate, cost: int)

  /** What one month's run did: nothing for a month without data, else the rows appended to a sheet range. */
  datatype Outcome = Skipped | Appended(sheetRange: string, rows: seq<(SummaryRow, string)>)

  // ---------------------------------------------------------------------
  // Parsing an invoice month

  predicate AllDigits(s: string)
  {
    forall i :: 0 <= i < |s| ==> IsDigit(s[i])
  }

  /**
   * The month directive's alternatives, tried in order: '1[0-2]', '0[1-9]',
   * then '[1-9]'; the month and the number of characters it took.
   */
  function MatchMonth(rest: string): (r: Option<(int, nat)>)
    ensures r.Some? ==> 1 <= r.value.0 <= 12 && 1 <= r.value.1 <= 2 && r.value.1 <= |rest|
  {
    if |rest| >= 2 && rest[0] == '1' && '0' <= rest[1] <= '2' then Some((10 + DigitValue(rest[1]), 2))
    else if |rest| >= 2 && rest[0] == '0' && '1' <= rest[1] <= '9' then Some((DigitValue(rest[1]), 2))
    else if |rest| >= 1 && '1' <= rest[0] <= '9' then Some((DigitValue(rest[0]), 1))
    else None
  }

  /** `datetime.strptime(s, '%Y%m').date()`: four digits of year, a month, and nothing after. */
  function ParseInvoiceMonth(s: string): (r: Result<Date, StrptimeError>)
    ensures r.Ok? ==> ValidDate(r.value) && r.value.day == 1 && |s| >= 5 && AllDigits(s[..4]) && r.value.year == DigitsValue(s[..4])
  {
    if |s| < 4 || !AllDigits(s[..4]) then Err(DoesNotMatch)
    else
      match MatchMonth(s[4..])
      case None => Err(DoesNotMatch)
      case Some((month, width)) =>
        if 4 + width < |s| then Err(UnconvertedData(s[4 + width..]))
        else if DigitsValue(s[..4]) == 0 then Err(YearOutOfRange)
        else Ok(Date(DigitsValue(s[..4]), month, 1))
  }

  /** A year Python's four-digit year directive can print and read. */
  predicate FourDigitYear(y: int)
  {
    1000 <= y <= 9999
  }

  lemma FourDigitString(y: int)
    requires FourDigitYear(y)
    ensures |IntToString(y)| == 4 && AllDigits(IntToString(y)) && DigitsValue(IntToString(y)) == y
  {
    assert |NatToString(y / 1000)| == 1;
    assert |NatToString(y / 100)| == 2 by {
      assert NatToString(y / 100) == NatToString(y / 100 / 10) + [DigitChar(y / 100 % 10)];
      assert y / 100 / 10 == y / 1000;
    }
    assert |NatToString(y / 10)| == 3 by {
      assert NatToString(y / 10) == NatToString(y / 10 / 10) + [DigitChar(y / 10 % 10)];
      assert y / 10 / 10 == y / 100;
    }
    assert NatToString(y) == NatToString(y / 10) + [DigitChar(y % 10)];
    NatToStringValue(y);
  }

  /** Parsing the invoice month of a day gives back the first of its month. */
  lemma ParseInvoiceMonthOf(d: CalendarDate)
    requires FourDigitYear(d.year)
    ensures |InvoiceMonthOf(d)| == 6
    ensures ParseInvoiceMonth(InvoiceMonthOf(d)) == Ok(FirstOfMonth(d))
  {
    var s := InvoiceMonthOf(d);
    var y := IntToString(d.year);
    FourDigitString(d.year);
    var mm := ZeroPad(d.month, 2);
    if d.month < 10 {
      assert mm == "0" + [DigitChar(d.month)];
    } else {
      assert NatToString(d.month) == NatToString(d.month / 10) + [DigitChar(d.month % 10)];
      assert mm == "1" + [DigitChar(d.month - 10)];
    }
    assert s[..4] == y && s[4..] == mm;
  }

  // ---------------------------------------------------------------------
  // The default month

  /** The default as written: this year followed by this month minus one, padded to two digits. */
  function DefaultInvoiceMonthAsWritten(today: CalendarDate): string
  {
    IntToString(today.year) + ZeroPad(today.month - 1, 2)
  }

  /** In January the written default is month '00', which the parser of the same run rejects. */
  lemma JanuaryDefaultRejected(today: CalendarDate)
    requires FourDigitYear(today.year) && today.month == 1
    ensures DefaultInvoiceMonthAsWritten(today) == IntToString(today.year) + "00"
    ensures ParseInvoiceMonth(DefaultInvoiceMonthAsWritten(today)) == Err(DoesNotMatch)
  {
    FourDigitString(today.year);
    var s := DefaultInvoiceMonthAsWritten(today);
    assert ZeroPad(0, 2) == "00";
    assert s[..4] == IntToString(today.year) && s[4..] == "00";
  }

  /** The first day of the month before the one containing `d`. */
  function PreviousMonth(d: CalendarDate): (r: Date)
    ensures ValidDate(r)
    ensures DayIndex(LastOfMonth(r)) + 1 == DayIndex(FirstOfMonth(d))
    ensures r.day == 1
  {
    MonthBoundaries(d);
    if d.month == 1 then Date(d.year - 1, 12, 1) else Date(d.year, d.month - 1, 1)
  }

  /** The default invoice month: the month before today's, across a year end too. */
  function DefaultInvoiceMonth(today: CalendarDate): string
  {
    var p: CalendarDate := PreviousMonth(today);
    InvoiceMonthOf(p)
  }

  /** The default month is a six-character month naming the month before today's. */
  lemma DefaultInvoiceMonthIsPrevious(today: CalendarDate)
    requires FourDigitYear(today.year) && FourDigitYear(today.year - 1)
    ensures |DefaultInvoiceMonth(today)| == 6
    ensures ParseInvoiceMonth(DefaultInvoiceMonth(today)) == Ok(PreviousMonth(today))
  {
    ParseInvoiceMonthOf(PreviousMonth(today));
  }

  /** Outside January the default agrees with the written one. */
  lemma DefaultAgreesAfterJanuary(today: CalendarDate)
    requires today.month > 1
    ensures DefaultInvoiceMonth(today) == DefaultInvoiceMonthAsWritten(today)
  {
  }

  // ---------------------------------------------------------------------
  // One month's report

  /** The backtick error, naming the table. */
  function BacktickMessage(table: string): string
  {
    "Do not include backticks in the table (" + table + ")"
  }

  function WithinWindow(d: CalendarDate, start: Date, end: Date): bool
    requires ValidDate(start) && ValidDate(end)
  {
    DayIndex(start) <= DayIndex(d) <= DayIndex(end)
  }

  /** The query's filter: the row is of the month and its usage ended within the window. */
  predicate InMonthWindow(row: SummaryRow, month: string, start: Date, end: Date)
    requires ValidDate(start) && ValidDate(end)
  {
    row.month == month && WithinWindow(row.usageEnd, start, end)
  }

  /**
   * The query's WHERE clause: the table's rows of the month whose usage
   * ended within the window, each as often as the table holds it.
   */
  function MatchingRows(table: seq<SummaryRow>, month: string, start: Date, end: Date): (r: seq<SummaryRow>)
    requires ValidDate(start) && ValidDate(end)
    ensures forall row :: multiset(r)[row] == if InMonthWindow(row, month, start, end) then multiset(table)[row] else 0
    decreases |table|
  {
    if |table| == 0 then []
    else
      var last := table[|table| - 1];
      var init := MatchingRows(table[..|table| - 1], month, start, end);
      assert table == table[..|table| - 1] + [last];
      if InMonthWindow(last, month, start, end) then init + [last] else init
  }

  predicate SortedByTopic(rows: seq<SummaryRow>)
  {
    forall i :: 0 < i < |rows| ==> StrLessEq(rows[i - 1].topic, rows[i].topic)
  }

  /** `x` put before the first row whose topic it does not exceed. */
  function InsertByTopic(x: SummaryRow, s: seq<SummaryRow>): (r: seq<SummaryRow>)
    requires SortedByTopic(s)
    ensures SortedByTopic(r) && multiset(r) == multiset(s) + multiset{x}
    ensures |r| > 0 && (r[0] == x || (|s| > 0 && r[0] == s[0]))
    decreases |s|
  {
    if |s| == 0 then [x]
    else if StrLessEq(x.topic, s[0].topic) then [x] + s
    else
      StrLessEqTotal(x.topic, s[0].topic);
      var t := InsertByTopic(x, s[1..]);
      assert s == [s[0]] + s[1..];
      [s[0]] + t
  }

  /** `ORDER BY topic`: the same rows, sorted by topic. */
  function OrderByTopic(rows: seq<SummaryRow>): (r: seq<SummaryRow>)
    ensures SortedByTopic(r) && multiset(r) == multiset(rows)
    decreases |rows|
  {
    if |rows| == 0 then []
    else
      assert rows == [rows[0]] + rows[1..];
      InsertByTopic(rows[0], OrderByTopic(rows[1..]))
  }

  /**
   * The query: the table's rows of the month whose usage ended within the
   * window, each as often as the table holds it, ordered by topic.
   */
  function QueryRows(table: seq<SummaryRow>, month: string, start: Date, end: Date): (r: seq<SummaryRow>)
    requires ValidDate(start) && ValidDate(end)
    ensures SortedByTopic(r)
    ensures forall row :: multiset(r)[row] == if InMonthWindow(row, month, start, end) then multiset(table)[row] else 0
  {
    OrderByTopic(MatchingRows(table, month, start, end))
  }

  /** The key column added before upload: topic, month and cost category joined by '-'. */
  function RowKey(row: SummaryRow): string
  {
    row.topic + "-" + row.month + "-" + row.costCategory
  }

  function WithKeys(rows: seq<SummaryRow>): (r: seq<(SummaryRow, string)>)
    ensures |r| == |rows| && forall i :: 0 <= i < |rows| ==> r[i] == (rows[i], RowKey(rows[i]))
  {
    seq(|rows|, i requires 0 <= i < |rows| => (rows[i], RowKey(rows[i])))
  }

  /**
   * `process_and_upload_monthly_billing_report`: an empty month means the
   * default; the table must be set and free of backticks; the month must
   * parse; a month without rows is skipped; appending asserts a six-character
   * month and writes to the sheet range '{year}-data'.
   */
  function ProcessMonth(invoiceMonth: Option<string>, today: CalendarDate, tableName: Option<string>,
                        table: seq<SummaryRow>): Result<Outcome, BillingError>
  {
    var month := if invoiceMonth.None? || invoiceMonth.value == "" then DefaultInvoiceMonth(today) else invoiceMonth.value;
    if tableName.None? || tableName.value == "" then Err(AssertionError(""))
    else if '`' in tableName.value then Err(ValueError(BacktickMessage(tableName.value)))
    else
      match ParseInvoiceMonth(month)
      case Err(_) => Err(ValueError("time data does not match format '%Y%m'"))
      case Ok(d) =>
        assert ValidDate(d);
        var window := InvoiceMonthRange(d);
        var rows := QueryRows(table, month, window.0, window.1);
        if |rows| == 0 then Ok(Skipped)
        else if |month| != 6 then Err(AssertionError(""))
        else Ok(Appended(month[..4] + "-data", WithKeys(rows)))
  }

  /**
   * A month is processed only with a table name that is set and has no
   * backtick, and an append carries rows for a '{year}-data' range.
   */
  lemma ProcessMonthGuards(invoiceMonth: Option<string>, today: CalendarDate, tableName: Option<string>, table: seq<SummaryRow>)
    ensures var r := ProcessMonth(invoiceMonth, today, tableName, table);
            r.Ok? ==> tableName.Some? && tableName.value != "" && '`' !in tableName.value
    ensures var r := ProcessMonth(invoiceMonth, today, tableName, table);
            r.Ok? && r.value.Appended? ==> |r.value.rows| > 0 && |r.value.sheetRange| == 9
  {
  }

  /** A table name with a backtick is refused whatever the month. */
  lemma BacktickRefused(invoiceMonth: Option<string>, today: CalendarDate, tableName: string, table: seq<SummaryRow>)
    requires '`' in tableName
    ensures ProcessMonth(invoiceMonth, today, Some(tableName), table) == Err(ValueError(BacktickMessage(tableName)))
  {
  }

  /** The summary rows of an upload, without their keys. */
  function UploadedRows(rows: seq<(SummaryRow, string)>): (r: seq<SummaryRow>)
    ensures |r| == |rows| && forall i :: 0 <= i < |rows| ==> r[i] == rows[i].0
  {
    seq(|rows|, i requires 0 <= i < |rows| => rows[i].0)
  }

  /**
   * An upload goes to the sheet of the month's year and carries, ordered by
   * topic, exactly the table's rows of that month within its invoice window,
   * each as often as the table holds it, and each with its key.
   */
  lemma AppendedRowsOfMonth(m: string, today: CalendarDate, tableName: Option<string>, table: seq<SummaryRow>)
    requires ProcessMonth(Some(m), today, tableName, table).Ok?
    requires ProcessMonth(Some(m), today, tableName, table).value.Appended?
    requires m != ""
    ensures var o := ProcessMonth(Some(m), today, tableName, table).value;
            |m| == 6 && o.sheetRange == m[..4] + "-data" &&
            forall i :: 0 <= i < |o.rows| ==> o.rows[i].1 == RowKey(o.rows[i].0)
    ensures var o := ProcessMonth(Some(m), today, tableName, table).value;
            SortedByTopic(UploadedRows(o.rows))
    ensures var o := ProcessMonth(Some(m), today, tableName, table).value;
            var d := ParseInvoiceMonth(m).value;
            var window := InvoiceMonthRange(d);
            forall row :: multiset(UploadedRows(o.rows))[row] ==
                          if InMonthWindow(row, m, window.0, window.1) then multiset(table)[row] else 0
  {
    var o := ProcessMonth(Some(m), today, tableName, table).value;
    var d := ParseInvoiceMonth(m).value;
    var window := InvoiceMonthRange(d);
    var rows := QueryRows(table, m, window.0, window.1);
    assert UploadedRows(o.rows) == rows;
  }

  // ---------------------------------------------------------------------
  // A whole year

  /** The month string the year loop writes: year and month with no padding. */
  function YearMonthAsWritten(year: int, month: nat): string
  {
    IntToString(year) + NatToString(month)
  }

  /** The months the table stores are six characters long, as the upload itself asserts. */
  predicate StoredMonths(table: seq<SummaryRow>)
  {
    forall i :: 0 <= i < |table| ==> |table[i].month| == 6
  }

  /**
   * The year loop as written names January to September with five
   * characters. The parser accepts such a month, but no stored month
   * equals it, so the month is skipped as empty.
   */
  lemma AsWrittenEarlyMonthsSkipped(year: int, month: nat, today: CalendarDate, tableName: string, table: seq<SummaryRow>)
    requires FourDigitYear(year) && 1 <= month <= 9
    requires tableName != "" && '`' !in tableName
    requires StoredMonths(table)
    ensures |YearMonthAsWritten(year, month)| == 5
    ensures ParseInvoiceMonth(YearMonthAsWritten(year, month)) == Ok(Date(year, month, 1))
    ensures YearMonthAsWritten(year, month) != InvoiceMonthOf(Date(year, month, 1))
    ensures ProcessMonth(Some(YearMonthAsWritten(year, month)), today, Some(tableName), table) == Ok(Skipped)
  {
    var s := YearMonthAsWritten(year, month);
    FourDigitString(year);
    assert s[..4] == IntToString(year) && s[4..] == [DigitChar(month)];
    ParseInvoiceMonthOf(Date(year, month, 1));
    var window := InvoiceMonthRange(Date(year, month, 1));
    NoRowsOfOtherLength(table, s, window.0, window.1);
  }

  lemma {:induction false} NoRowsOfOtherLength(table: seq<SummaryRow>, month: string, start: Date, end: Date)
    requires ValidDate(start) && ValidDate(end)
    requires StoredMonths(table) && |month| != 6
    ensures MatchingRows(table, month, start, end) == []
    ensures QueryRows(table, month, start, end) == []
    decreases |table|
  {
    if |table| > 0 {
      NoRowsOfOtherLength(table[..|table| - 1], month, start, end);
    }
  }

  /** The invoice month of a month of a year. */
  function MonthOfYear(year: int, month: int): string
    requires 1 <= month <= 12
  {
    InvoiceMonthOf(Date(year, month, 1))
  }

  /** The invoice months of one year to load, January to `upTo`, leaving out the month in progress. */
  function MonthsToLoad(year: int, now: CalendarDate, upTo: nat): (r: seq<string>)
    requires upTo <= 12
    ensures |r| <= upTo
  {
    if upTo == 0 then []
    else
      MonthsToLoad(year, now, upTo - 1) +
      (if year == now.year && upTo == now.month then [] else [MonthOfYear(year, upTo)])
  }

  /**
   * Every month of the year but the one in progress is loaded, once, in
   * order, each under the six-character month that parses back to it.
   */
  lemma {:induction false} MonthsToLoadSpec(year: int, now: CalendarDate, upTo: nat)
    requires FourDigitYear(year) && upTo <= 12
    ensures var ms := MonthsToLoad(year, now, upTo);
            |ms| == (if year == now.year && now.month <= upTo then upTo - 1 else upTo) &&
            forall i :: 0 <= i < |ms| ==>
              |ms[i]| == 6 && ParseInvoiceMonth(ms[i]).Ok? &&
              ParseInvoiceMonth(ms[i]).value.year == year && ParseInvoiceMonth(ms[i]).value.month <= upTo &&
              !(year == now.year && ParseInvoiceMonth(ms[i]).value.month == now.month) &&
              (i > 0 ==> ParseInvoiceMonth(ms[i - 1]).value.month < ParseInvoiceMonth(ms[i]).value.month)
    decreases upTo
  {
    if upTo > 0 {
      MonthsToLoadSpec(year, now, upTo - 1);
      MonthOfYearParses(year, upTo);
    }
  }

  /** The invoice month of a month of a four-digit year has six characters and parses back to that month. */
  lemma MonthOfYearParses(year: int, k: int)
    requires FourDigitYear(year) && 1 <= k <= 12
    ensures |MonthOfYear(year, k)| == 6 && ParseInvoiceMonth(MonthOfYear(year, k)) == Ok(Date(year, k, 1))
  {
    ParseInvoiceMonthOf(Date(year, k, 1));
  }

  /** The months processed in order, stopping at the first error. */
  function ProcessAll(months: seq<string>, today: CalendarDate, tableName: Option<string>, table: seq<SummaryRow>)
    : Result<seq<Outcome>, BillingError>
    decreases |months|
  {
    if |months| == 0 then Ok([])
    else
      match ProcessAll(months[..|months| - 1], today, tableName, table)
      case Err(e) => Err(e)
      case Ok(done) =>
        match ProcessMonth(Some(months[|months| - 1]), today, tableName, table)
        case Err(e) => Err(e)
        case Ok(o) => Ok(done + [o])
  }

  /** Once a month fails, the later months are not processed and the error stands. */
  lemma {:induction false} ProcessAllKeepsError(months: seq<string>, extra: seq<string>, today: CalendarDate,
                                                tableName: Option<string>, table: seq<SummaryRow>)
    requires ProcessAll(months, today, tableName, table).Err?
    ensures ProcessAll(months + extra, today, tableName, table) == ProcessAll(months, today, tableName, table)
    decreases |extra|
  {
    if |extra| > 0 {
      var init := extra[..|extra| - 1];
      ProcessAllKeepsError(months, init, today, tableName, table);
      assert (months + extra)[..|months + extra| - 1] == months + init;
    } else {
      assert months + extra == months;
    }
  }

  /** The months to load up to `k` begin those up to any later `n`. */
  lemma {:induction false} MonthsToLoadPrefix(year: int, now: CalendarDate, k: nat, n: nat)
    requires k <= n <= 12
    ensures var a := MonthsToLoad(year, now, k);
            var b := MonthsToLoad(year, now, n);
            |a| <= |b| && b == a + b[|a|..]
    decreases n - k
  {
    if k < n {
      MonthsToLoadPrefix(year, now, k, n - 1);
    }
  }

  /** `load_for_year`: each month from January to December in turn, skipping the one in progress. */
  method LoadForYear(year: int, now: CalendarDate, tableName: Option<string>, table: seq<SummaryRow>)
    returns (r: Result<seq<Outcome>, BillingError>)
    ensures r == ProcessAll(MonthsToLoad(year, now, 12), now, tableName, table)
  {
    var done: seq<Outcome> := [];
    var month := 1;
    while month <= 12
      invariant 1 <= month <= 13
      invariant ProcessAll(MonthsToLoad(year, now, month - 1), now, tableName, table) == Ok(done)
    {
      if year == now.year && month == now.month {
        LoadSkipStep(year, now, month);
      } else {
        var invoiceMonth := MonthOfYear(year, month);
        var outcome := ProcessMonth(Some(invoiceMonth), now, tableName, table);
        LoadMonthStep(year, now, month, tableName, table, done);
        if outcome.Err? {
          return Err(outcome.error);
        }
        done := done + [outcome.value];
      }
      month := month + 1;
    }
    assert month - 1 == 12;
    r := Ok(done);
  }

  /** The month in progress adds nothing to the year's list. */
  lemma LoadSkipStep(year: int, now: CalendarDate, month: nat)
    requires 1 <= month <= 12 && year == now.year && month == now.month
    ensures MonthsToLoad(year, now, month) == MonthsToLoad(year, now, month - 1)
  {
  }

  /** The year's run after one more month: extended by its outcome, or ended by its error. */
  lemma LoadMonthStep(year: int, now: CalendarDate, month: nat, tableName: Option<string>, table: seq<SummaryRow>,
                      done: seq<Outcome>)
    requires 1 <= month <= 12 && !(year == now.year && month == now.month)
    requires ProcessAll(MonthsToLoad(year, now, month - 1), now, tableName, table) == Ok(done)
    ensures var o := ProcessMonth(Some(MonthOfYear(year, month)), now, tableName, table);
            (o.Err? ==> ProcessAll(MonthsToLoad(year, now, 12), now, tableName, table) == Err(o.error)) &&
            (o.Ok? ==> ProcessAll(MonthsToLoad(year, now, month), now, tableName, table) == Ok(done + [o.value]))
  {
    var m := MonthOfYear(year, month);
    assert MonthsToLoad(year, now, month) == MonthsToLoad(year, now, month - 1) + [m];
    ProcessAllStep(MonthsToLoad(year, now, month - 1), m, now, tableName, table);
    if ProcessMonth(Some(m), now, tableName, table).Err? {
      LoadStopsAtError(year, now, month, tableName, table);
    }
  }

  /** A failing month ends the year's run with its error. */
  lemma LoadStopsAtError(year: int, now: CalendarDate, month: nat, tableName: Option<string>, table: seq<SummaryRow>)
    requires month <= 12
    requires ProcessAll(MonthsToLoad(year, now, month), now, tableName, table).Err?
    ensures ProcessAll(MonthsToLoad(year, now, 12), now, tableName, table) ==
            ProcessAll(MonthsToLoad(year, now, month), now, tableName, table)
  {
    MonthsToLoadPrefix(year, now, month, 12);
    var all := MonthsToLoad(year, now, 12);
    var upTo := MonthsToLoad(year, now, month);
    ProcessAllKeepsError(upTo, all[|upTo|..], now, tableName, table);
  }

  /** One more month processed after a successful run of earlier months. */
  lemma ProcessAllStep(months: seq<string>, m: string, today: CalendarDate, tableName: Option<string>,
                       table: seq<SummaryRow>)
    requires ProcessAll(months, today, tableName, table).Ok?
    ensures var o := ProcessMonth(Some(m), today, tableName, table);
            ProcessAll(months + [m], today, tableName, table) ==
            if o.Err? then Err(o.error) else Ok(ProcessAll(months, today, tableName, table).value + [o.value])
  {
    assert (months + [m])[..|months|] == months;
  }
}
