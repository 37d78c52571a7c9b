// The budget updater: compare each project's budget from the billing
// account with the one stored in the budget table, insert a new record
// where they differ, and report the insert errors.
module UpdateBudget {
  import opened Wrappers
  import opened Strings

  /** A budget amount as the billing API reports it. */
  datatype Money = Money(currencyCode: string, units: string)

  /** A budget of the billing account: the project's display name and its amount, if one is specified. */
  datatype BudgetRecord = BudgetRecord(displayName: string, specifiedAmount: Option<Money>)

  /** A row of the budget table. */
  datatype StoredBudget = StoredBudget(gcpProject: string, budget: Option<int>, currency: string)

  datatype Response = Response(success: bool, errors: seq<(string, seq<string>)>, status: int)

  /** `try_cast_int`: the integer a string spells, or None where `int` raises ValueError. */
  function TryCastInt(s: string): (r: Option<int>)
    ensures r.Some? <==> ParseInt(s).Some?
    ensures r.Some? ==> r == ParseInt(s)
  {
    ParseInt(s)
  }

  /** Casting the printed form of a number gives the number back. */
  lemma TryCastIntOfPrinted(n: int)
    ensures TryCastInt(IntToString(n)) == Some(n)
  {
    ParseIntOfIntToString(n);
  }

  /** The table rows by project; a later row for the same project replaces an earlier one. */
  function StoredByProject(rows: seq<StoredBudget>): (m: map<string, StoredBudget>)
    ensures forall p :: p in m ==> m[p].gcpProject == p && m[p] in rows
    ensures forall i :: 0 <= i < |rows| ==> rows[i].gcpProject in m
    decreases |rows|
  {
    if |rows| == 0 then map[]
    else
      var init := StoredByProject(rows[..|rows| - 1]);
      assert forall r :: r in rows[..|rows| - 1] ==> r in rows;
      init[rows[|rows| - 1].gcpProject := rows[|rows| - 1]]
  }

  /** The new row `compare_and_update_stored_budget` would insert, if any. */
  function Decide(rec: BudgetRecord, stored: map<string, StoredBudget>): (r: Option<StoredBudget>)
    ensures r.Some? <==>
              rec.specifiedAmount.Some? &&
              (rec.displayName !in stored ||
               stored[rec.displayName].budget != TryCastInt(rec.specifiedAmount.value.units) ||
               stored[rec.displayName].currency != rec.specifiedAmount.value.currencyCode)
    ensures r.Some? ==> r.value == StoredBudget(rec.displayName, TryCastInt(rec.specifiedAmount.value.units),
                                                rec.specifiedAmount.value.currencyCode)
  {
    match rec.specifiedAmount
    case None => None
    case Some(amount) =>
      var total := TryCastInt(amount.units);
      var toInsert := rec.displayName !in stored ||
                      stored[rec.displayName].budget != total || stored[rec.displayName].currency != amount.currencyCode;
      if toInsert then Some(StoredBudget(rec.displayName, total, amount.currencyCode)) else None
  }

  /** Once the decided row is stored, the same budget needs no further insert. */
  lemma DecideIdempotent(rec: BudgetRecord, stored: map<string, StoredBudget>)
    requires Decide(rec, stored).Some?
    ensures Decide(rec, stored[rec.displayName := Decide(rec, stored).value]).None?
  {
  }

  /**
   * `compare_and_update_stored_budget`: None without a specified amount or
   * when the stored budget already matches; else the insert's errors, with
   * None for an insert that reported none.
   */
  function CompareAndUpdate(rec: BudgetRecord, stored: map<string, StoredBudget>, insert: StoredBudget -> seq<string>)
    : (r: Option<seq<string>>)
    ensures rec.specifiedAmount.None? ==> r.None?
    ensures r.Some? <==> Decide(rec, stored).Some? && |insert(Decide(rec, stored).value)| > 0
    ensures r.Some? ==> r.value == insert(Decide(rec, stored).value)
  {
    match Decide(rec, stored)
    case None => None
    case Some(row) =>
      var errors := insert(row);
      if |errors| == 0 then None else Some(errors)
  }

  /** The rows inserted for a sequence of budgets, in order. */
  function InsertedRows(budgets: seq<BudgetRecord>, stored: map<string, StoredBudget>): seq<StoredBudget>
    decreases |budgets|
  {
    if |budgets| == 0 then []
    else
      var b := budgets[|budgets| - 1];
      InsertedRows(budgets[..|budgets| - 1], stored) + (if Decide(b, stored).Some? then [Decide(b, stored).value] else [])
  }

  /** The errors of a sequence of budgets, keyed by display name, in order. */
  function CollectedErrors(budgets: seq<BudgetRecord>, stored: map<string, StoredBudget>,
                           insert: StoredBudget -> seq<string>): seq<(string, seq<string>)>
    decreases |budgets|
  {
    if |budgets| == 0 then []
    else
      var b := budgets[|budgets| - 1];
      var e := CompareAndUpdate(b, stored, insert);
      CollectedErrors(budgets[..|budgets| - 1], stored, insert) + (if e.Some? then [(b.displayName, e.value)] else [])
  }

  /** The errors are reported exactly for the budgets whose insert failed. */
  lemma CollectedErrorsExact(budgets: seq<BudgetRecord>, stored: map<string, StoredBudget>,
                             insert: StoredBudget -> seq<string>)
    ensures var es := CollectedErrors(budgets, stored, insert);
            (|es| == 0 <==> forall i :: 0 <= i < |budgets| ==> CompareAndUpdate(budgets[i], stored, insert).None?) &&
            forall j :: 0 <= j < |es| ==>
              (|es[j].1| > 0 &&
               exists i :: 0 <= i < |budgets| && budgets[i].displayName == es[j].0 &&
                           CompareAndUpdate(budgets[i], stored, insert) == Some(es[j].1))
  {
    CollectedErrorsNone(budgets, stored, insert);
    CollectedErrorsFrom(budgets, stored, insert);
    var es := CollectedErrors(budgets, stored, insert);
    assert forall j :: 0 <= j < |es| ==> ErrorOfSome(budgets, stored, insert, es[j]);
  }

  /** No error is reported iff no budget's insert failed. */
  lemma {:induction false} CollectedErrorsNone(budgets: seq<BudgetRecord>, stored: map<string, StoredBudget>,
                                               insert: StoredBudget -> seq<string>)
    ensures |CollectedErrors(budgets, stored, insert)| == 0 <==>
            forall i :: 0 <= i < |budgets| ==> CompareAndUpdate(budgets[i], stored, insert).None?
    decreases |budgets|
  {
    if |budgets| > 0 {
      var n := |budgets| - 1;
      var init := budgets[..n];
      CollectedErrorsNone(init, stored, insert);
      assert forall i :: 0 <= i < n ==> budgets[i] == init[i];
    }
  }

  /** `err` is the display name and the failed insert's errors of one of the budgets. */
  ghost predicate ErrorOfSome(budgets: seq<BudgetRecord>, stored: map<string, StoredBudget>,
                              insert: StoredBudget -> seq<string>, err: (string, seq<string>))
  {
    |err.1| > 0 &&
    exists i :: 0 <= i < |budgets| && budgets[i].displayName == err.0 &&
                CompareAndUpdate(budgets[i], stored, insert) == Some(err.1)
  }

  /** Every reported error is the failed insert of a budget of that display name. */
  lemma {:induction false} CollectedErrorsFrom(budgets: seq<BudgetRecord>, stored: map<string, StoredBudget>,
                                               insert: StoredBudget -> seq<string>)
    ensures forall j :: 0 <= j < |CollectedErrors(budgets, stored, insert)| ==>
              ErrorOfSome(budgets, stored, insert, CollectedErrors(budgets, stored, insert)[j])
    decreases |budgets|
  {
    if |budgets| > 0 {
      var n := |budgets| - 1;
      var init := budgets[..n];
      CollectedErrorsFrom(init, stored, insert);
      var es := CollectedErrors(budgets, stored, insert);
      var esInit := CollectedErrors(init, stored, insert);
      var e := CompareAndUpdate(budgets[n], stored, insert);
      assert es == esInit + (if e.Some? then [(budgets[n].displayName, e.value)] else []);
      forall j | 0 <= j < |es|
        ensures ErrorOfSome(budgets, stored, insert, es[j])
      {
        if j < |esInit| {
          assert es[j] == esInit[j];
          var i :| 0 <= i < |init| && init[i].displayName == esInit[j].0 &&
                   CompareAndUpdate(init[i], stored, insert) == Some(esInit[j].1);
          assert budgets[i] == init[i];
        } else {
          assert budgets[n].displayName == es[j].0;
        }
      }
    }
  }

  /** The response: failure with the collected errors iff there are any. */
  function ResponseOf(errors: seq<(string, seq<string>)>): (r: Response)
    ensures r.status == 500 <==> |errors| > 0
    ensures r.success <==> r.status == 200
    ensures !r.success ==> r.errors == errors
  {
    if |errors| > 0 then Response(false, errors, 500) else Response(true, [], 200)
  }

  /**
   * `from_request`: every budget of the account compared against the table
   * as it stood before the run; the rows it inserts, and the response.
   */
  method FromRequest(budgets: seq<BudgetRecord>, storedRows: seq<StoredBudget>, insert: StoredBudget -> seq<string>)
    returns (resp: Response, inserted: seq<StoredBudget>)
    ensures inserted == InsertedRows(budgets, StoredByProject(storedRows))
    ensures resp == ResponseOf(CollectedErrors(budgets, StoredByProject(storedRows), insert))
  {
    var stored := StoredByProject(storedRows);
    var res: seq<(string, seq<string>)> := [];
    inserted := [];
    var i := 0;
    while i < |budgets|
      invariant 0 <= i <= |budgets|
      invariant res == CollectedErrors(budgets[..i], stored, insert)
      invariant inserted == InsertedRows(budgets[..i], stored)
    {
      assert budgets[..i + 1][..i] == budgets[..i];
      var b := budgets[i];
      var row := Decide(b, stored);
      if row.Some? {
        inserted := inserted + [row.value];
      }
      var errors := CompareAndUpdate(b, stored, insert);
      if errors.Some? {
        res := res + [(b.displayName, errors.value)];
      }
      i := i + 1;
    }
    assert budgets[..i] == budgets;
    resp := ResponseOf(res);
  }
}
