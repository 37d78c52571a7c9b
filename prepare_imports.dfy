// `202306_prepare_imports.py`: the earlier version of the import
// generator, which looks group memberships up group by group.
module PrepareImports {
  import opened Wrappers
  import opened Strings
  import opened PyRepr
  import opened PulumiPlan

  /** `prepare_id`: group memberships are skipped here; the IAM member types give 'resource role member'. */
  function PrepareId(state: State): (r: Result<Option<string>, PlanError>)
    ensures state.rtype == GroupMembershipType ==> r == Ok(None)
    ensures state.rtype != GroupMembershipType ==> r == IamId(state)
  {
    if state.rtype == GroupMembershipType then Ok(None) else IamId(state)
  }

  /** A `create` step with a new state of the group membership type. */
  predicate IsMembershipStep(step: Step)
  {
    step.op == "create" && step.newState.Some? && step.newState.value.rtype == GroupMembershipType
  }

  /**
   * `main`'s first loop over the first steps: the direct imports, and the
   * group membership steps kept for later, both in plan order.
   */
  function Scan(steps: seq<Step>): Result<(seq<PulumiImport>, seq<Step>), PlanError>
    decreases |steps|
  {
    if |steps| == 0 then Ok(([], []))
    else
      var step := steps[|steps| - 1];
      match Scan(steps[..|steps| - 1])
      case Err(e) => Err(e)
      case Ok(acc) =>
        match StepImportWith(step, PrepareId)
        case Err(e) => Err(e)
        case Ok(imp) =>
          Ok((if imp.Some? then acc.0 + [imp.value] else acc.0,
              if IsMembershipStep(step) then acc.1 + [step] else acc.1))
  }

  /**
   * Only `create` steps with a new state count: the kept steps are exactly
   * the group membership ones, and the direct imports are exactly the
   * other steps' own, none of them a group membership.
   */
  lemma {:induction false} ScanMeaning(steps: seq<Step>)
    requires Scan(steps).Ok?
    ensures forall s :: s in Scan(steps).value.1 <==> s in steps && IsMembershipStep(s)
    ensures forall x :: x in Scan(steps).value.0 <==>
              exists i :: 0 <= i < |steps| && StepImportWith(steps[i], PrepareId) == Ok(Some(x))
    ensures forall x :: x in Scan(steps).value.0 ==> x.rtype != GroupMembershipType
  {
    ScanKept(steps);
    ScanImports(steps);
    ScanImportsNotMembership(steps);
  }

  lemma {:induction false} ScanKept(steps: seq<Step>)
    requires Scan(steps).Ok?
    ensures forall s :: s in Scan(steps).value.1 <==> s in steps && IsMembershipStep(s)
    decreases |steps|
  {
    if |steps| > 0 {
      var n := |steps| - 1;
      var init := steps[..n];
      ScanKept(init);
      assert steps == init + [steps[n]];
    }
  }

  lemma ScanImports(steps: seq<Step>)
    requires Scan(steps).Ok?
    ensures forall x :: x in Scan(steps).value.0 <==>
              exists i :: 0 <= i < |steps| && StepImportWith(steps[i], PrepareId) == Ok(Some(x))
  {
    ScanImportsSound(steps);
    forall x | exists i :: 0 <= i < |steps| && StepImportWith(steps[i], PrepareId) == Ok(Some(x))
      ensures x in Scan(steps).value.0
    {
      var i :| 0 <= i < |steps| && StepImportWith(steps[i], PrepareId) == Ok(Some(x));
      ScanImportsComplete(steps, i);
    }
  }

  /** Every direct import comes from some step. */
  lemma {:induction false} ScanImportsSound(steps: seq<Step>)
    requires Scan(steps).Ok?
    ensures forall x :: x in Scan(steps).value.0 ==>
              exists i :: 0 <= i < |steps| && StepImportWith(steps[i], PrepareId) == Ok(Some(x))
    decreases |steps|
  {
    if |steps| > 0 {
      var n := |steps| - 1;
      var init := steps[..n];
      ScanImportsSound(init);
      assert forall i :: 0 <= i < n ==> init[i] == steps[i];
    }
  }

  /** Every step's own import is among the direct imports. */
  lemma {:induction false} ScanImportsComplete(steps: seq<Step>, i: nat)
    requires Scan(steps).Ok? && i < |steps|
    requires StepImportWith(steps[i], PrepareId).Ok? && StepImportWith(steps[i], PrepareId).value.Some?
    ensures StepImportWith(steps[i], PrepareId).value.value in Scan(steps).value.0
    decreases |steps|
  {
    var n := |steps| - 1;
    if i < n {
      var init := steps[..n];
      assert init[i] == steps[i];
      ScanImportsComplete(init, i);
    }
  }

  lemma {:induction false} ScanImportsNotMembership(steps: seq<Step>)
    requires Scan(steps).Ok?
    ensures forall x :: x in Scan(steps).value.0 ==> x.rtype != GroupMembershipType
    decreases |steps|
  {
    if |steps| > 0 {
      ScanImportsNotMembership(steps[..|steps| - 1]);
    }
  }

  lemma {:induction false} ScanKeepsError(steps: seq<Step>, i: nat)
    requires i <= |steps| && Scan(steps[..i]).Err?
    ensures Scan(steps) == Scan(steps[..i])
    decreases |steps| - i
  {
    if i < |steps| {
      assert steps[..i + 1][..i] == steps[..i];
      ScanKeepsError(steps, i + 1);
    } else {
      assert steps[..i] == steps;
    }
  }

  // ---------------------------------------------------------------------
  // Grouping the memberships

  /** `step['newState']['inputs']['group']`. */
  function GroupOf(step: Step): (r: Result<string, PlanError>)
    ensures r.Ok? <==> step.newState.Some? && "group" in step.newState.value.inputs
    ensures r.Ok? ==> r.value == step.newState.value.inputs["group"]
  {
    match step.newState
    case None => Err(KeyError("newState"))
    case Some(state) => Input(state, "group")
  }

  /**
   * `group_memberships_by_group`, a `defaultdict(list)`: the groups in the
   * order they first appear, and each group's steps.
   */
  function Grouped(memberships: seq<Step>): Result<(seq<string>, map<string, seq<Step>>), PlanError>
    decreases |memberships|
  {
    if |memberships| == 0 then Ok(([], map[]))
    else
      var step := memberships[|memberships| - 1];
      match Grouped(memberships[..|memberships| - 1])
      case Err(e) => Err(e)
      case Ok(acc) =>
        match GroupOf(step)
        case Err(e) => Err(e)
        case Ok(g) =>
          if g in acc.1 then Ok((acc.0, acc.1[g := acc.1[g] + [step]]))
          else Ok((acc.0 + [g], acc.1[g := [step]]))
  }

  /** The steps of one group, in order: the reference the grouping is checked against. */
  function StepsOfGroup(memberships: seq<Step>, g: string): seq<Step>
    decreases |memberships|
  {
    if |memberships| == 0 then []
    else
      var step := memberships[|memberships| - 1];
      StepsOfGroup(memberships[..|memberships| - 1], g) + (if GroupOf(step) == Ok(g) then [step] else [])
  }

  /** The grouping succeeds iff every step names its group. */
  lemma {:induction false} GroupedOk(memberships: seq<Step>)
    ensures Grouped(memberships).Ok? <==> forall i :: 0 <= i < |memberships| ==> GroupOf(memberships[i]).Ok?
    decreases |memberships|
  {
    if |memberships| > 0 {
      var n := |memberships| - 1;
      GroupedOk(memberships[..n]);
      assert forall i :: 0 <= i < n ==> memberships[..n][i] == memberships[i];
    }
  }

  predicate Distinct(order: seq<string>)
  {
    forall i, j :: 0 <= i < j < |order| ==> order[i] != order[j]
  }

  /** The grouping lists each group once, and exactly the groups the steps name. */
  lemma GroupedGroups(memberships: seq<Step>)
    requires Grouped(memberships).Ok?
    ensures Distinct(Grouped(memberships).value.0)
    ensures forall g :: g in Grouped(memberships).value.0 <==> g in Grouped(memberships).value.1
    ensures forall g :: g in Grouped(memberships).value.1 <==>
              exists i :: 0 <= i < |memberships| && GroupOf(memberships[i]) == Ok(g)
  {
    GroupedDistinct(memberships);
    GroupedKeysNamed(memberships);
  }

  /** One step of the grouping: the last step joins its group, which is appended to the order when new. */
  lemma GroupedLast(memberships: seq<Step>)
    requires |memberships| > 0 && Grouped(memberships).Ok?
    ensures var n := |memberships| - 1;
            Grouped(memberships[..n]).Ok? && GroupOf(memberships[n]).Ok? &&
            var acc := Grouped(memberships[..n]).value;
            var g := GroupOf(memberships[n]).value;
            Grouped(memberships).value ==
              if g in acc.1 then (acc.0, acc.1[g := acc.1[g] + [memberships[n]]]) else (acc.0 + [g], acc.1[g := [memberships[n]]])
  {
  }

  /** The order lists each group once, and exactly the groups of the map. */
  lemma {:induction false} GroupedDistinct(memberships: seq<Step>)
    requires Grouped(memberships).Ok?
    ensures Distinct(Grouped(memberships).value.0)
    ensures forall g :: g in Grouped(memberships).value.0 <==> g in Grouped(memberships).value.1
    decreases |memberships|
  {
    if |memberships| > 0 {
      var n := |memberships| - 1;
      GroupedLast(memberships);
      GroupedDistinct(memberships[..n]);
    }
  }

  /** Some step names group `g`. */
  ghost predicate Named(memberships: seq<Step>, g: string)
  {
    exists i :: 0 <= i < |memberships| && GroupOf(memberships[i]) == Ok(g)
  }

  lemma NamedLast(memberships: seq<Step>, g: string)
    requires |memberships| > 0
    ensures var n := |memberships| - 1;
            Named(memberships, g) <==> Named(memberships[..n], g) || GroupOf(memberships[n]) == Ok(g)
  {
    var n := |memberships| - 1;
    var init := memberships[..n];
    if Named(memberships, g) && GroupOf(memberships[n]) != Ok(g) {
      var i :| 0 <= i < |memberships| && GroupOf(memberships[i]) == Ok(g);
      assert init[i] == memberships[i];
    }
    if Named(init, g) {
      var i :| 0 <= i < |init| && GroupOf(init[i]) == Ok(g);
      assert init[i] == memberships[i];
    }
  }

  /** The map's groups are exactly the groups the steps name. */
  lemma GroupedKeysNamed(memberships: seq<Step>)
    requires Grouped(memberships).Ok?
    ensures forall g :: g in Grouped(memberships).value.1 <==>
              exists i :: 0 <= i < |memberships| && GroupOf(memberships[i]) == Ok(g)
  {
    GroupedKeysAreNamed(memberships);
    assert forall g :: g in Grouped(memberships).value.1 <==> Named(memberships, g);
  }

  lemma {:induction false} GroupedKeysAreNamed(memberships: seq<Step>)
    requires Grouped(memberships).Ok?
    ensures forall g :: g in Grouped(memberships).value.1 <==> Named(memberships, g)
    decreases |memberships|
  {
    if |memberships| > 0 {
      var n := |memberships| - 1;
      GroupedLast(memberships);
      GroupedKeysAreNamed(memberships[..n]);
      forall g ensures Named(memberships, g) <==> Named(memberships[..n], g) || GroupOf(memberships[n]) == Ok(g) {
        NamedLast(memberships, g);
      }
    }
  }

  /** Each group holds exactly its own steps, in their original order. */
  lemma {:induction false} GroupedContents(memberships: seq<Step>)
    requires Grouped(memberships).Ok?
    ensures forall g :: g in Grouped(memberships).value.1 ==> Grouped(memberships).value.1[g] == StepsOfGroup(memberships, g)
    decreases |memberships|
  {
    if |memberships| > 0 {
      var n := |memberships| - 1;
      var init := memberships[..n];
      GroupedContents(init);
      GroupedGroups(init);
      var g := GroupOf(memberships[n]).value;
      if g !in Grouped(init).value.1 {
        StepsOfGroupNone(init, g);
      }
    }
  }

  /** A group no step names has no steps. */
  lemma {:induction false} StepsOfGroupNone(memberships: seq<Step>, g: string)
    requires forall i :: 0 <= i < |memberships| ==> GroupOf(memberships[i]) != Ok(g)
    ensures StepsOfGroup(memberships, g) == []
    decreases |memberships|
  {
    if |memberships| > 0 {
      var n := |memberships| - 1;
      assert forall i :: 0 <= i < n ==> memberships[..n][i] == memberships[i];
      StepsOfGroupNone(memberships[..n], g);
    }
  }

  // ---------------------------------------------------------------------
  // The membership imports

  /** One membership's import: its id is the membership name listed for its email (a KeyError if none is). */
  function MembershipImport(step: Step, ids: map<string, string>): (r: Result<PulumiImport, PlanError>)
    ensures r.Ok? ==>
              (step.newState.Some? && MemberEmail(step.newState.value).Ok? &&
               MemberEmail(step.newState.value).value in ids &&
               r.value == PulumiImport(step.newState.value.rtype, NameFromUrn(step.urn),
                                       ids[MemberEmail(step.newState.value).value], Some([])))
    ensures step.newState.Some? && MemberEmail(step.newState.value).Ok? && MemberEmail(step.newState.value).value !in ids ==>
              r == Err(KeyError(MemberEmail(step.newState.value).value))
  {
    match step.newState
    case None => Err(KeyError("newState"))
    case Some(state) =>
      match MemberEmail(state)
      case Err(e) => Err(e)
      case Ok(email) =>
        if email in ids then Ok(PulumiImport(state.rtype, NameFromUrn(step.urn), ids[email], Some([])))
        else Err(KeyError(email))
  }

  /** The imports of one group's steps: each step's import, in order, or the first error. */
  function GroupImports(steps: seq<Step>, ids: map<string, string>): (r: Result<seq<PulumiImport>, PlanError>)
    ensures r.Ok? <==> forall i :: 0 <= i < |steps| ==> MembershipImport(steps[i], ids).Ok?
    ensures r.Ok? ==> |r.value| == |steps| && forall i :: 0 <= i < |steps| ==> r.value[i] == MembershipImport(steps[i], ids).value
    decreases |steps|
  {
    if |steps| == 0 then Ok([])
    else
      var init := steps[..|steps| - 1];
      assert forall i :: 0 <= i < |init| ==> init[i] == steps[i];
      match GroupImports(init, ids)
      case Err(e) => Err(e)
      case Ok(imports) =>
        match MembershipImport(steps[|steps| - 1], ids)
        case Err(e) => Err(e)
        case Ok(imp) => Ok(imports + [imp])
  }

  /** `directory(GroupKey(g))` as an email-to-id map: what `main` asks the groups API once per group. */
  function GroupIds(g: string, directory: string -> seq<(string, string)>): map<string, string>
  {
    EmailToId(directory(GroupKey(g)))
  }

  /** The imports of the groups in `order`, each group's in turn. */
  function MembershipImports(order: seq<string>, byGroup: map<string, seq<Step>>, directory: string -> seq<(string, string)>)
    : Result<seq<PulumiImport>, PlanError>
    requires forall i :: 0 <= i < |order| ==> order[i] in byGroup
    decreases |order|
  {
    if |order| == 0 then Ok([])
    else
      var g := order[|order| - 1];
      match MembershipImports(order[..|order| - 1], byGroup, directory)
      case Err(e) => Err(e)
      case Ok(imports) =>
        match GroupImports(byGroup[g], GroupIds(g, directory))
        case Err(e) => Err(e)
        case Ok(more) => Ok(imports + more)
  }

  /** The steps of the groups in `order`, each group's in turn. */
  function Flatten(order: seq<string>, byGroup: map<string, seq<Step>>): seq<Step>
    requires forall i :: 0 <= i < |order| ==> order[i] in byGroup
    decreases |order|
  {
    if |order| == 0 then [] else Flatten(order[..|order| - 1], byGroup) + byGroup[order[|order| - 1]]
  }

  /** There is one membership import per grouped step. */
  lemma {:induction false} MembershipImportsCount(order: seq<string>, byGroup: map<string, seq<Step>>, directory: string -> seq<(string, string)>)
    requires forall i :: 0 <= i < |order| ==> order[i] in byGroup
    requires MembershipImports(order, byGroup, directory).Ok?
    ensures |MembershipImports(order, byGroup, directory).value| == |Flatten(order, byGroup)|
    decreases |order|
  {
    if |order| > 0 {
      MembershipImportsCount(order[..|order| - 1], byGroup, directory);
    }
  }

  /** Updating a group listed once in `order`: its new step joins the flattening. */
  lemma {:induction false} FlattenUpdate(order: seq<string>, byGroup: map<string, seq<Step>>, g: string, step: Step)
    requires forall i :: 0 <= i < |order| ==> order[i] in byGroup
    requires g in byGroup && Distinct(order)
    ensures multiset(Flatten(order, byGroup[g := byGroup[g] + [step]])) ==
            multiset(Flatten(order, byGroup)) + (if g in order then multiset{step} else multiset{})
    decreases |order|
  {
    if |order| > 0 {
      var n := |order| - 1;
      var init := order[..n];
      assert Distinct(init);
      FlattenUpdate(init, byGroup, g, step);
      assert g in order <==> g in init || g == order[n];
      if g == order[n] {
        assert g !in init;
      }
    }
  }

  /** Flattening ignores groups not in `order`. */
  lemma {:induction false} FlattenFresh(order: seq<string>, byGroup: map<string, seq<Step>>, g: string, steps: seq<Step>)
    requires forall i :: 0 <= i < |order| ==> order[i] in byGroup
    requires g !in order
    ensures Flatten(order, byGroup[g := steps]) == Flatten(order, byGroup)
    decreases |order|
  {
    if |order| > 0 {
      FlattenFresh(order[..|order| - 1], byGroup, g, steps);
    }
  }

  /** The groups hold the membership steps and nothing else: each step exactly once. */
  lemma {:induction false} GroupedIsPermutation(memberships: seq<Step>)
    requires Grouped(memberships).Ok?
    ensures forall i :: 0 <= i < |Grouped(memberships).value.0| ==> Grouped(memberships).value.0[i] in Grouped(memberships).value.1
    ensures multiset(Flatten(Grouped(memberships).value.0, Grouped(memberships).value.1)) == multiset(memberships)
    decreases |memberships|
  {
    if |memberships| > 0 {
      var n := |memberships| - 1;
      var init := memberships[..n];
      var step := memberships[n];
      GroupedLast(memberships);
      GroupedIsPermutation(init);
      GroupedDistinct(init);
      var (order, byGroup) := Grouped(init).value;
      var g := GroupOf(step).value;
      assert memberships == init + [step];
      if g in byGroup {
        FlattenUpdate(order, byGroup, g, step);
      } else {
        FlattenFresh(order, byGroup, g, [step]);
        assert (order + [g])[..|order|] == order;
      }
    }
  }

  // ---------------------------------------------------------------------
  // `main`

  /** The whole run: the direct imports, then each group's membership imports. */
  function PrepareRun(steps: seq<Step>, directory: string -> seq<(string, string)>): Result<seq<PulumiImport>, PlanError>
  {
    match Scan(steps)
    case Err(e) => Err(e)
    case Ok(scanned) =>
      match Grouped(scanned.1)
      case Err(e) => Err(e)
      case Ok(grouped) =>
        GroupedIsPermutation(scanned.1);
        match MembershipImports(grouped.0, grouped.1, directory)
        case Err(e) => Err(e)
        case Ok(more) => Ok(scanned.0 + more)
  }

  /** After the direct imports comes one import per group membership step. */
  lemma PrepareRunCount(steps: seq<Step>, directory: string -> seq<(string, string)>)
    requires PrepareRun(steps, directory).Ok?
    ensures |PrepareRun(steps, directory).value| ==
            |Scan(steps).value.0| + |Scan(steps).value.1|
    ensures PrepareRun(steps, directory).value[..|Scan(steps).value.0|] == Scan(steps).value.0
  {
    var scanned := Scan(steps).value;
    var grouped := Grouped(scanned.1).value;
    GroupedIsPermutation(scanned.1);
    MembershipImportsCount(grouped.0, grouped.1, directory);
    var flat := Flatten(grouped.0, grouped.1);
    assert |multiset(flat)| == |multiset(scanned.1)|;
  }

  /** One more step scanned. */
  lemma ScanStep(steps: seq<Step>, i: nat, imports: seq<PulumiImport>, memberships: seq<Step>)
    requires i < |steps| && Scan(steps[..i]) == Ok((imports, memberships))
    requires StepImportWith(steps[i], PrepareId).Ok?
    ensures var imp := StepImportWith(steps[i], PrepareId).value;
            Scan(steps[..i + 1]) == Ok((if imp.Some? then imports + [imp.value] else imports,
                                        if IsMembershipStep(steps[i]) then memberships + [steps[i]] else memberships))
  {
    assert steps[..i + 1][..i] == steps[..i];
  }

  /** `main`'s first loop. */
  method ScanSteps(steps: seq<Step>) returns (r: Result<(seq<PulumiImport>, seq<Step>), PlanError>)
    ensures r == Scan(steps)
  {
    var imports: seq<PulumiImport> := [];
    var memberships: seq<Step> := [];
    var i := 0;
    while i < |steps|
      invariant 0 <= i <= |steps|
      invariant Scan(steps[..i]) == Ok((imports, memberships))
    {
      assert steps[..i + 1][..i] == steps[..i];
      var step := steps[i];
      if step.op == "create" && step.newState.Some? {
        var state := step.newState.value;
        var id := PrepareId(state);
        if id.Err? {
          ScanKeepsError(steps, i + 1);
          return Err(id.error);
        }
        ScanStep(steps, i, imports, memberships);
        if id.value.Some? && id.value.value != "" {
          imports := imports + [PulumiImport(state.rtype, NameFromUrn(step.urn), id.value.value, Some([]))];
        }
        if state.rtype == GroupMembershipType {
          memberships := memberships + [step];
        }
      } else {
        ScanStep(steps, i, imports, memberships);
      }
      i := i + 1;
    }
    assert steps[..i] == steps;
    r := Ok((imports, memberships));
  }

  lemma {:induction false} GroupedKeepsError(memberships: seq<Step>, i: nat)
    requires i <= |memberships| && Grouped(memberships[..i]).Err?
    ensures Grouped(memberships) == Grouped(memberships[..i])
    decreases |memberships| - i
  {
    if i < |memberships| {
      assert memberships[..i + 1][..i] == memberships[..i];
      GroupedKeepsError(memberships, i + 1);
    } else {
      assert memberships[..i] == memberships;
    }
  }

  /** The `defaultdict(list)` loop. */
  method GroupMemberships(memberships: seq<Step>) returns (r: Result<(seq<string>, map<string, seq<Step>>), PlanError>)
    ensures r == Grouped(memberships)
  {
    var order: seq<string> := [];
    var byGroup: map<string, seq<Step>> := map[];
    var i := 0;
    while i < |memberships|
      invariant 0 <= i <= |memberships|
      invariant Grouped(memberships[..i]) == Ok((order, byGroup))
    {
      assert memberships[..i + 1][..i] == memberships[..i];
      var g := GroupOf(memberships[i]);
      if g.Err? {
        GroupedKeepsError(memberships, i + 1);
        return Err(g.error);
      }
      if g.value in byGroup {
        byGroup := byGroup[g.value := byGroup[g.value] + [memberships[i]]];
      } else {
        order := order + [g.value];
        byGroup := byGroup[g.value := [memberships[i]]];
      }
      i := i + 1;
    }
    assert memberships[..i] == memberships;
    r := Ok((order, byGroup));
  }

  /** The loop over one group's memberships. */
  method ImportGroup(steps: seq<Step>, ids: map<string, string>) returns (r: Result<seq<PulumiImport>, PlanError>)
    ensures r == GroupImports(steps, ids)
  {
    var imports: seq<PulumiImport> := [];
    var k := 0;
    while k < |steps|
      invariant 0 <= k <= |steps|
      invariant GroupImports(steps[..k], ids) == Ok(imports)
    {
      var imp := MembershipImport(steps[k], ids);
      GroupImportsStep(steps, ids, k, imports);
      if imp.Err? {
        return Err(imp.error);
      }
      imports := imports + [imp.value];
      k := k + 1;
    }
    assert steps[..k] == steps;
    r := Ok(imports);
  }

  /** One more membership of a group: its import is appended, or its error is the group's. */
  lemma GroupImportsStep(steps: seq<Step>, ids: map<string, string>, k: nat, imports: seq<PulumiImport>)
    requires k < |steps| && GroupImports(steps[..k], ids) == Ok(imports)
    ensures MembershipImport(steps[k], ids).Ok? ==>
              GroupImports(steps[..k + 1], ids) == Ok(imports + [MembershipImport(steps[k], ids).value])
    ensures MembershipImport(steps[k], ids).Err? ==> GroupImports(steps, ids) == Err(MembershipImport(steps[k], ids).error)
  {
    assert steps[..k + 1][..k] == steps[..k];
    if MembershipImport(steps[k], ids).Err? {
      GroupImportsKeepsError(steps, ids, k + 1);
    }
  }

  /** Once a prefix of a group's memberships fails, the group fails with that error. */
  lemma {:induction false} GroupImportsKeepsError(steps: seq<Step>, ids: map<string, string>, i: nat)
    requires i <= |steps| && GroupImports(steps[..i], ids).Err?
    ensures GroupImports(steps, ids) == GroupImports(steps[..i], ids)
    decreases |steps| - i
  {
    if i < |steps| {
      assert steps[..i + 1][..i] == steps[..i];
      GroupImportsKeepsError(steps, ids, i + 1);
    } else {
      assert steps[..i] == steps;
    }
  }

  lemma {:induction false} MembershipImportsKeepsError(order: seq<string>, byGroup: map<string, seq<Step>>,
                                                        directory: string -> seq<(string, string)>, k: nat)
    requires forall i :: 0 <= i < |order| ==> order[i] in byGroup
    requires k <= |order| && MembershipImports(order[..k], byGroup, directory).Err?
    ensures MembershipImports(order, byGroup, directory) == MembershipImports(order[..k], byGroup, directory)
    decreases |order| - k
  {
    if k < |order| {
      assert order[..k + 1][..k] == order[..k];
      MembershipImportsKeepsError(order, byGroup, directory, k + 1);
    } else {
      assert order[..k] == order;
    }
  }

  /** `main`: the scan, the grouping, then one directory lookup per group. */
  method Prepare(steps: seq<Step>, directory: string -> seq<(string, string)>) returns (r: Result<seq<PulumiImport>, PlanError>)
    ensures r == PrepareRun(steps, directory)
  {
    var scanned := ScanSteps(steps);
    if scanned.Err? {
      return Err(scanned.error);
    }
    var grouped := GroupMemberships(scanned.value.1);
    if grouped.Err? {
      return Err(grouped.error);
    }
    GroupedIsPermutation(scanned.value.1);
    var more := ImportGroups(grouped.value.0, grouped.value.1, directory);
    if more.Err? {
      return Err(more.error);
    }
    r := Ok(scanned.value.0 + more.value);
  }

  /** One more group's imports. */
  lemma MembershipImportsStep(order: seq<string>, byGroup: map<string, seq<Step>>,
                              directory: string -> seq<(string, string)>, k: nat, imports: seq<PulumiImport>)
    requires forall i :: 0 <= i < |order| ==> order[i] in byGroup
    requires k < |order| && MembershipImports(order[..k], byGroup, directory) == Ok(imports)
    requires GroupImports(byGroup[order[k]], GroupIds(order[k], directory)).Ok?
    ensures MembershipImports(order[..k + 1], byGroup, directory) ==
            Ok(imports + GroupImports(byGroup[order[k]], GroupIds(order[k], directory)).value)
  {
    assert order[..k + 1][..k] == order[..k];
  }

  /** The loop over the groups, asking the directory once per group. */
  method ImportGroups(order: seq<string>, byGroup: map<string, seq<Step>>, directory: string -> seq<(string, string)>)
    returns (r: Result<seq<PulumiImport>, PlanError>)
    requires forall i :: 0 <= i < |order| ==> order[i] in byGroup
    ensures r == MembershipImports(order, byGroup, directory)
  {
    var imports: seq<PulumiImport> := [];
    var k := 0;
    while k < |order|
      invariant 0 <= k <= |order|
      invariant MembershipImports(order[..k], byGroup, directory) == Ok(imports)
    {
      var ids := GroupIds(order[k], directory);
      var more := ImportGroup(byGroup[order[k]], ids);
      if more.Err? {
        assert order[..k + 1][..k] == order[..k];
        MembershipImportsKeepsError(order, byGroup, directory, k + 1);
        return Err(more.error);
      }
      MembershipImportsStep(order, byGroup, directory, k, imports);
      imports := imports + more.value;
      k := k + 1;
    }
    assert order[..k] == order;
    r := Ok(imports);
  }

  // ---------------------------------------------------------------------
  // The output file

  /** One line of the script: the command and a newline. */
  function ImportLine(imp: PulumiImport): string
  {
    CommandBody(imp) + "\n"
  }

  /** The written file: every import's line in turn. */
  function Output(imports: seq<PulumiImport>): string
  {
    if |imports| == 0 then "" else ImportLine(imports[0]) + Output(imports[1..])
  }

  function CommandBodies(imports: seq<PulumiImport>): seq<string>
  {
    if |imports| == 0 then [] else [CommandBody(imports[0])] + CommandBodies(imports[1..])
  }

  /** Split at newlines, the file is the commands one per line, then an empty last piece. */
  lemma {:induction false} OutputLines(imports: seq<PulumiImport>)
    ensures Split(Output(imports), "\n") == CommandBodies(imports) + [""]
    decreases |imports|
  {
    if |imports| > 0 {
      var body := CommandBody(imports[0]);
      CommandBodyNoNewline(imports[0]);
      OutputLines(imports[1..]);
      SplitAtChar(body, '\n', Output(imports[1..]));
      assert Output(imports) == body + "\n" + Output(imports[1..]);
      assert CommandBodies(imports) + [""] == [body] + (CommandBodies(imports[1..]) + [""]);
    } else {
      assert Find("", "\n") == None;
    }
  }
}
