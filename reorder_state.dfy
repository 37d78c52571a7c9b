// Checking that every resource of a Pulumi state file comes after the
// resources it depends on, and rewriting the state in a topological order
// when one does not.
module ReorderState {
  import opened Wrappers
  import opened Strings

  /** A resource of the state's latest checkpoint; `rest` stands for its other fields. */
  datatype Resource = Resource(urn: string, dependencies: seq<string>, rest: map<string, string>)

  datatype ReorderError =
    | IndexError
    | KeyError(key: string)
    | ValueError(message: string)
    | CycleError

  /** The name part of a URN, `urn.split('::')[3]`. */
  function NameOf(urn: string): (r: Result<string, ReorderError>)
    ensures r.Err? <==> |Split(urn, "::")| < 4
    ensures r.Ok? ==> r.value == Split(urn, "::")[3]
  {
    var fields := Split(urn, "::");
    if |fields| < 4 then Err(IndexError) else Ok(fields[3])
  }

  function UrnsOf(rs: seq<Resource>): (r: set<string>)
    ensures forall i :: 0 <= i < |rs| ==> rs[i].urn in r
    ensures forall u :: u in r ==> exists i :: 0 <= i < |rs| && rs[i].urn == u
  {
    set i | 0 <= i < |rs| :: rs[i].urn
  }

  /** `resource_by_urn`: a later resource with the same URN replaces an earlier one. */
  function ByUrn(rs: seq<Resource>): (m: map<string, Resource>)
    ensures m.Keys == UrnsOf(rs)
    ensures forall u :: u in m ==> m[u].urn == u && m[u] in rs
    decreases |rs|
  {
    if |rs| == 0 then map[]
    else
      var init := ByUrn(rs[..|rs| - 1]);
      assert UrnsOf(rs) == UrnsOf(rs[..|rs| - 1]) + {rs[|rs| - 1].urn} by {
        forall u | u in UrnsOf(rs) ensures u in UrnsOf(rs[..|rs| - 1]) + {rs[|rs| - 1].urn} {
          var i :| 0 <= i < |rs| && rs[i].urn == u;
          if i < |rs| - 1 {
            assert rs[..|rs| - 1][i] == rs[i];
          }
        }
      }
      init[rs[|rs| - 1].urn := rs[|rs| - 1]]
  }

  /** `deps`: each URN's dependencies, the last listing of a URN winning. */
  function DepsOf(rs: seq<Resource>): (m: map<string, seq<string>>)
    ensures m.Keys == UrnsOf(rs)
    decreases |rs|
  {
    if |rs| == 0 then map[]
    else
      var m := DepsOf(rs[..|rs| - 1])[rs[|rs| - 1].urn := rs[|rs| - 1].dependencies];
      assert m.Keys == ByUrn(rs).Keys;
      m
  }

  /** The dependency map is the dependencies of the resource each URN names. */
  lemma {:induction false} DepsOfByUrn(rs: seq<Resource>)
    ensures forall u :: u in DepsOf(rs) ==> DepsOf(rs)[u] == ByUrn(rs)[u].dependencies
    decreases |rs|
  {
    if |rs| > 0 {
      DepsOfByUrn(rs[..|rs| - 1]);
    }
  }

  // ---------------------------------------------------------------------
  // The ordering check

  /**
   * The dependencies of one resource: `true` if one is defined later in
   * the list; an error for one that is not defined at all.
   */
  function CheckDeps(name: string, ds: seq<string>, known: set<string>, all: set<string>): Result<bool, ReorderError>
    decreases |ds|
  {
    if |ds| == 0 then Ok(false)
    else
      match CheckDeps(name, ds[..|ds| - 1], known, all)
      case Err(e) => Err(e)
      case Ok(f) =>
        var d := ds[|ds| - 1];
        if d in known then Ok(f)
        else
          match NameOf(d)
          case Err(e) => Err(e)
          case Ok(dn) => if d in all then Ok(true) else Err(ValueError(name + " : Dep not found: " + dn))
  }

  /** A dependency is acceptable when it is already listed, or is a well-formed URN listed somewhere. */
  predicate DepOk(d: string, known: set<string>, all: set<string>)
  {
    d in known || (|Split(d, "::")| >= 4 && d in all)
  }

  /** The check of one resource passes iff every dependency is acceptable, and it flags exactly a later one. */
  lemma {:induction false} CheckDepsMeaning(name: string, ds: seq<string>, known: set<string>, all: set<string>)
    ensures CheckDeps(name, ds, known, all).Ok? <==> forall k :: 0 <= k < |ds| ==> DepOk(ds[k], known, all)
    ensures CheckDeps(name, ds, known, all).Ok? ==>
              (CheckDeps(name, ds, known, all).value <==> exists k :: 0 <= k < |ds| && ds[k] !in known)
    ensures CheckDeps(name, ds, known, all).Err? && CheckDeps(name, ds, known, all).error.ValueError? ==>
              exists k :: 0 <= k < |ds| && ds[k] !in known && ds[k] !in all
    decreases |ds|
  {
    if |ds| > 0 {
      var init := ds[..|ds| - 1];
      CheckDepsMeaning(name, init, known, all);
      assert forall k :: 0 <= k < |init| ==> init[k] == ds[k];
      if CheckDeps(name, init, known, all).Ok? && CheckDeps(name, ds, known, all).Ok? {
        if CheckDeps(name, ds, known, all).value && ds[|ds| - 1] in known {
          var k :| 0 <= k < |init| && init[k] !in known;
          assert ds[k] !in known;
        }
      }
    }
  }

  /** The check of the first resources: the first error, or whether any lists a later dependency. */
  function Scan(rs: seq<Resource>, all: set<string>): Result<bool, ReorderError>
    decreases |rs|
  {
    if |rs| == 0 then Ok(false)
    else
      match Scan(rs[..|rs| - 1], all)
      case Err(e) => Err(e)
      case Ok(f) =>
        var r := rs[|rs| - 1];
        match NameOf(r.urn)
        case Err(e) => Err(e)
        case Ok(name) =>
          match CheckDeps(name, r.dependencies, UrnsOf(rs), all)
          case Err(e) => Err(e)
          case Ok(g) => Ok(f || g)
  }

  /** Resource `i` lists, as its `k`-th dependency, a URN not among the resources up to it. */
  predicate ForwardDep(rs: seq<Resource>, i: int, k: int)
    requires 0 <= i < |rs|
  {
    0 <= k < |rs[i].dependencies| && rs[i].dependencies[k] !in UrnsOf(rs[..i + 1])
  }

  /** A reported ordering issue is a dependency listed after its dependent. */
  lemma {:induction false} ScanFlagSound(rs: seq<Resource>, all: set<string>)
    requires Scan(rs, all) == Ok(true)
    ensures exists i, k :: 0 <= i < |rs| && ForwardDep(rs, i, k)
    decreases |rs|
  {
    var n := |rs| - 1;
    var init := rs[..n];
    var r := rs[n];
    assert rs[..n + 1] == rs;
    if Scan(init, all) == Ok(true) {
      ScanFlagSound(init, all);
      var i, k :| 0 <= i < |init| && ForwardDep(init, i, k);
      assert rs[..i + 1] == init[..i + 1];
      assert ForwardDep(rs, i, k);
    } else {
      CheckDepsMeaning(NameOf(r.urn).value, r.dependencies, UrnsOf(rs), all);
      var k :| 0 <= k < |r.dependencies| && r.dependencies[k] !in UrnsOf(rs);
      assert ForwardDep(rs, n, k);
    }
  }

  /** A dependency listed after its dependent is reported by a passing check. */
  lemma {:induction false} ScanFlagComplete(rs: seq<Resource>, all: set<string>, i: nat, k: nat)
    requires Scan(rs, all).Ok? && i < |rs| && ForwardDep(rs, i, k)
    ensures Scan(rs, all) == Ok(true)
    decreases |rs|
  {
    var n := |rs| - 1;
    var init := rs[..n];
    var r := rs[n];
    assert rs[..n + 1] == rs;
    if i < n {
      assert rs[..i + 1] == init[..i + 1];
      assert ForwardDep(init, i, k);
      ScanFlagComplete(init, all, i, k);
    } else {
      CheckDepsMeaning(NameOf(r.urn).value, r.dependencies, UrnsOf(rs), all);
    }
  }

  /** A passing check reports an ordering issue iff some dependency is listed after its dependent. */
  lemma ScanMeaning(rs: seq<Resource>, all: set<string>)
    requires Scan(rs, all).Ok?
    ensures Scan(rs, all).value <==> exists i, k :: 0 <= i < |rs| && ForwardDep(rs, i, k)
  {
    if Scan(rs, all).value {
      ScanFlagSound(rs, all);
    }
    if exists i, k :: 0 <= i < |rs| && ForwardDep(rs, i, k) {
      var i, k :| 0 <= i < |rs| && ForwardDep(rs, i, k);
      ScanFlagComplete(rs, all, i, k);
    }
  }

  /** One more resource listed in `deps`. */
  lemma DepsStep(rs: seq<Resource>, i: nat)
    requires i < |rs|
    ensures DepsOf(rs[..i + 1]) == DepsOf(rs[..i])[rs[i].urn := rs[i].dependencies]
    ensures DepsOf(rs[..i + 1]).Keys == UrnsOf(rs[..i + 1])
  {
    assert rs[..i + 1][..i] == rs[..i];
  }

  /** One more resource checked. */
  lemma ScanStep(rs: seq<Resource>, all: set<string>, i: nat, f: bool, name: string, g: bool)
    requires i < |rs| && Scan(rs[..i], all) == Ok(f) && NameOf(rs[i].urn) == Ok(name)
    requires CheckDeps(name, rs[i].dependencies, UrnsOf(rs[..i + 1]), all) == Ok(g)
    ensures Scan(rs[..i + 1], all) == Ok(f || g)
  {
    assert rs[..i + 1][..i] == rs[..i];
  }

  /** After a passing check, every dependency is listed up to its dependent or is a well-formed listed URN. */
  lemma {:induction false} ScanDepsOk(rs: seq<Resource>, all: set<string>)
    requires Scan(rs, all).Ok?
    ensures forall i, k :: 0 <= i < |rs| && 0 <= k < |rs[i].dependencies| ==>
              DepOk(rs[i].dependencies[k], UrnsOf(rs[..i + 1]), all)
    decreases |rs|
  {
    if |rs| > 0 {
      var n := |rs| - 1;
      var init := rs[..n];
      ScanDepsOk(init, all);
      CheckDepsMeaning(NameOf(rs[n].urn).value, rs[n].dependencies, UrnsOf(rs), all);
      assert rs[..n + 1] == rs;
      forall i, k | 0 <= i < |rs| && 0 <= k < |rs[i].dependencies|
        ensures DepOk(rs[i].dependencies[k], UrnsOf(rs[..i + 1]), all)
      {
        if i < n {
          assert rs[..i + 1] == init[..i + 1] && rs[i] == init[i];
        }
      }
    }
  }

  // ---------------------------------------------------------------------
  // The rewritten order

  /** Every URN of the graph: keys and the dependencies they list. */
  function Nodes(g: map<string, seq<string>>): set<string>
  {
    g.Keys + set u, k | u in g && 0 <= k < |g[u]| :: g[u][k]
  }

  /** What `graphlib.TopologicalSorter(g).static_order()` promises: each node once, after its dependencies. */
  predicate IsTopologicalOrder(order: seq<string>, g: map<string, seq<string>>)
  {
    (forall j :: 0 <= j < |order| ==> order[j] in Nodes(g)) &&
    (forall u :: u in Nodes(g) ==> u in order) &&
    (forall i, j :: 0 <= i < j < |order| ==> order[i] != order[j]) &&
    (forall j :: 0 <= j < |order| && order[j] in g ==> ListedBefore(order, j, g[order[j]]))
  }

  /** Every URN of `ds` is at an index of `order` below `j`. */
  predicate ListedBefore(order: seq<string>, j: nat, ds: seq<string>)
  {
    forall k :: 0 <= k < |ds| ==> exists i :: 0 <= i < j && i < |order| && order[i] == ds[k]
  }

  /** The resources in the given order of URNs. */
  function Reordered(order: seq<string>, byUrn: map<string, Resource>): (r: seq<Resource>)
    requires forall j :: 0 <= j < |order| ==> order[j] in byUrn
    ensures |r| == |order| && forall j :: 0 <= j < |order| ==> r[j] == byUrn[order[j]]
  {
    seq(|order|, j requires 0 <= j < |order| => byUrn[order[j]])
  }

  /** The output file: each '.json' of the name becomes '-reordered.json'. */
  function ReorderedFileName(stateFile: string): string
  {
    Replace(stateFile, ".json", "-reordered.json")
  }

  /** A name ending in its only '.json' keeps its stem. */
  lemma ReorderedFileNameOfStem(stem: string)
    requires !Contains(stem, ".json")
    ensures ReorderedFileName(stem + ".json") == stem + "-reordered.json"
  {
    var s := stem + ".json";
    var n := |stem|;
    assert OccursAt(s, ".json", n);
    forall j | 0 <= j < n
      ensures !OccursAt(s, ".json", j)
    {
      if j + 5 <= n {
        assert s[j..j + 5] == stem[j..j + 5];
        assert !OccursAt(stem, ".json", j);
      } else if j + 5 <= |s| {
        assert s[j..j + 5][n - j] == s[n] == '.';
      }
    }
    FindIsFirst(s, ".json", n);
    assert s[..n] == stem && s[n + 5..] == "";
    assert Replace("", ".json", "-reordered.json") == "";
    assert Replace(s, ".json", "-reordered.json") == s[..n] + "-reordered.json" + Replace(s[n + 5..], ".json", "-reordered.json");
  }

  /**
   * `main`: the state's resources after the check. No output without an
   * ordering issue; with one, the output file's name and the resources in
   * the sorter's order.
   */
  function ReorderSpec(stateFile: string, rs: seq<Resource>, sorter: map<string, seq<string>> -> Option<seq<string>>)
    : (r: Result<Option<(string, seq<Resource>)>, ReorderError>)
  {
    match Scan(rs, UrnsOf(rs))
    case Err(e) => Err(e)
    case Ok(issues) =>
      if !issues then Ok(None)
      else
        match sorter(DepsOf(rs))
        case None => Err(CycleError)
        case Some(order) =>
          var byUrn := ByUrn(rs);
          if forall j :: 0 <= j < |order| ==> order[j] in byUrn then
            Ok(Some((ReorderedFileName(stateFile), Reordered(order, byUrn))))
          else Err(KeyError("a sorted URN that names no resource"))
  }

  /** Output is written exactly when the check passes with an ordering issue and the sorter succeeds. */
  lemma ReorderWritesOnIssue(stateFile: string, rs: seq<Resource>, sorter: map<string, seq<string>> -> Option<seq<string>>)
    ensures ReorderSpec(stateFile, rs, sorter).Ok? && ReorderSpec(stateFile, rs, sorter).value.Some? ==>
              Scan(rs, UrnsOf(rs)) == Ok(true) && exists i, k :: 0 <= i < |rs| && ForwardDep(rs, i, k)
    ensures Scan(rs, UrnsOf(rs)) == Ok(false) ==> ReorderSpec(stateFile, rs, sorter) == Ok(None)
  {
    if Scan(rs, UrnsOf(rs)).Ok? {
      ScanMeaning(rs, UrnsOf(rs));
    }
  }

  /** The rewritten resources are those of the state, one per URN, each exactly once. */
  lemma ReorderedSameResources(rs: seq<Resource>, order: seq<string>)
    requires IsTopologicalOrder(order, DepsOf(rs))
    requires forall j :: 0 <= j < |order| ==> order[j] in ByUrn(rs)
    ensures var out := Reordered(order, ByUrn(rs));
            (forall x :: x in out <==> x in ByUrn(rs).Values) &&
            (forall i, j :: 0 <= i < j < |out| ==> out[i].urn != out[j].urn)
  {
    var byUrn := ByUrn(rs);
    var out := Reordered(order, byUrn);
    forall x | x in byUrn.Values
      ensures x in out
    {
      var u :| u in byUrn && byUrn[u] == x;
      assert u in Nodes(DepsOf(rs));
      var j :| 0 <= j < |order| && order[j] == u;
      assert out[j] == x;
    }
  }

  /** Each resource's dependencies are the URNs of resources before it. */
  predicate DependenciesFirst(out: seq<Resource>)
  {
    forall j, k :: 0 <= j < |out| && 0 <= k < |out[j].dependencies| ==>
      exists i :: 0 <= i < j && out[i].urn == out[j].dependencies[k]
  }

  /** With a topological sorter, every rewritten resource comes after all of its dependencies. */
  lemma ReorderedDependenciesFirst(rs: seq<Resource>, order: seq<string>)
    requires IsTopologicalOrder(order, DepsOf(rs))
    requires forall j :: 0 <= j < |order| ==> order[j] in ByUrn(rs)
    ensures DependenciesFirst(Reordered(order, ByUrn(rs)))
  {
    var byUrn := ByUrn(rs);
    var g := DepsOf(rs);
    var out := Reordered(order, byUrn);
    DepsOfByUrn(rs);
    forall j, k | 0 <= j < |out| && 0 <= k < |out[j].dependencies|
      ensures exists i :: 0 <= i < j && out[i].urn == out[j].dependencies[k]
    {
      assert order[j] in g && g[order[j]] == out[j].dependencies;
      assert ListedBefore(order, j, g[order[j]]);
      var i :| 0 <= i < j && i < |order| && order[i] == g[order[j]][k];
      assert out[i] == byUrn[order[i]] && out[i].urn == order[i];
      assert out[i].urn == out[j].dependencies[k];
    }
    assert DependenciesFirst(out);
  }

  /** The output of `main`, when there is one, is the state's resources reordered as the sorter says. */
  lemma ReorderOutput(stateFile: string, rs: seq<Resource>, sorter: map<string, seq<string>> -> Option<seq<string>>)
    requires ReorderSpec(stateFile, rs, sorter).Ok? && ReorderSpec(stateFile, rs, sorter).value.Some?
    ensures sorter(DepsOf(rs)).Some? && (forall j :: 0 <= j < |sorter(DepsOf(rs)).value| ==> sorter(DepsOf(rs)).value[j] in ByUrn(rs))
    ensures ReorderSpec(stateFile, rs, sorter).value.value ==
            (ReorderedFileName(stateFile), Reordered(sorter(DepsOf(rs)).value, ByUrn(rs)))
  {
  }

  /** `main`: the check, then (on an ordering issue) the sorted rewrite. */
  method Reorder(stateFile: string, rs: seq<Resource>, sorter: map<string, seq<string>> -> Option<seq<string>>)
    returns (r: Result<Option<(string, seq<Resource>)>, ReorderError>)
    ensures r == ReorderSpec(stateFile, rs, sorter)
  {
    var byUrn := ByUrn(rs);
    var scanned, deps := CheckOrder(rs, UrnsOf(rs));
    if scanned.Err? {
      return Err(scanned.error);
    }
    if !scanned.value {
      return Ok(None);
    }
    var order := sorter(deps);
    if order.None? {
      return Err(CycleError);
    }
    if !(forall j :: 0 <= j < |order.value| ==> order.value[j] in byUrn) {
      return Err(KeyError("a sorted URN that names no resource"));
    }
    r := Ok(Some((ReorderedFileName(stateFile), Reordered(order.value, byUrn))));
  }

  /**
   * `main`'s loops: `deps` grows resource by resource, and each dependency
   * not yet in it is checked against all resources.
   */
  method CheckOrder(rs: seq<Resource>, all: set<string>) returns (r: Result<bool, ReorderError>, deps: map<string, seq<string>>)
    ensures r == Scan(rs, all)
    ensures r.Ok? ==> deps == DepsOf(rs)
  {
    deps := map[];
    var hasOrderingIssues := false;
    var i := 0;
    while i < |rs|
      invariant 0 <= i <= |rs|
      invariant deps == DepsOf(rs[..i])
      invariant Scan(rs[..i], all) == Ok(hasOrderingIssues)
    {
      var name := NameOf(rs[i].urn);
      if name.Err? {
        ScanFailsAt(rs, all, i, hasOrderingIssues, name.error);
        return Err(name.error), deps;
      }
      DepsStep(rs, i);
      deps := deps[rs[i].urn := rs[i].dependencies];
      var found := CheckResource(name.value, rs[i].dependencies, deps.Keys, all);
      if found.Err? {
        ScanFailsAt(rs, all, i, hasOrderingIssues, found.error);
        return Err(found.error), deps;
      }
      ScanStep(rs, all, i, hasOrderingIssues, name.value, found.value);
      hasOrderingIssues := hasOrderingIssues || found.value;
      i := i + 1;
    }
    assert rs[..i] == rs;
    r := Ok(hasOrderingIssues);
  }

  /** The inner loop over one resource's dependencies. */
  method CheckResource(name: string, ds: seq<string>, known: set<string>, all: set<string>) returns (r: Result<bool, ReorderError>)
    ensures r == CheckDeps(name, ds, known, all)
  {
    var issues := false;
    var k := 0;
    while k < |ds|
      invariant 0 <= k <= |ds|
      invariant CheckDeps(name, ds[..k], known, all) == Ok(issues)
    {
      assert ds[..k + 1][..k] == ds[..k];
      var d := ds[k];
      if d !in known {
        var dn := NameOf(d);
        if dn.Err? {
          CheckDepsKeepsError(name, ds, known, all, k + 1);
          return Err(dn.error);
        }
        if d in all {
          issues := true;
        } else {
          CheckDepsKeepsError(name, ds, known, all, k + 1);
          return Err(ValueError(name + " : Dep not found: " + dn.value));
        }
      }
      k := k + 1;
    }
    assert ds[..k] == ds;
    r := Ok(issues);
  }

  /** The check failing at resource `i` fails the whole check. */
  lemma ScanFailsAt(rs: seq<Resource>, all: set<string>, i: nat, f: bool, e: ReorderError)
    requires i < |rs| && Scan(rs[..i], all) == Ok(f)
    requires NameOf(rs[i].urn) == Err(e) ||
             (NameOf(rs[i].urn).Ok? && CheckDeps(NameOf(rs[i].urn).value, rs[i].dependencies, UrnsOf(rs[..i + 1]), all) == Err(e))
    ensures Scan(rs, all) == Err(e)
  {
    assert rs[..i + 1][..i] == rs[..i];
    ScanKeepsError(rs, all, i + 1);
  }

  lemma {:induction false} ScanKeepsError(rs: seq<Resource>, all: set<string>, i: nat)
    requires i <= |rs| && Scan(rs[..i], all).Err?
    ensures Scan(rs, all) == Scan(rs[..i], all)
    decreases |rs| - i
  {
    if i < |rs| {
      assert rs[..i + 1][..i] == rs[..i];
      ScanKeepsError(rs, all, i + 1);
    } else {
      assert rs[..i] == rs;
    }
  }

  lemma {:induction false} CheckDepsKeepsError(name: string, ds: seq<string>, known: set<string>, all: set<string>, k: nat)
    requires k <= |ds| && CheckDeps(name, ds[..k], known, all).Err?
    ensures CheckDeps(name, ds, known, all) == CheckDeps(name, ds[..k], known, all)
    decreases |ds| - k
  {
    if k < |ds| {
      assert ds[..k + 1][..k] == ds[..k];
      CheckDepsKeepsError(name, ds, known, all, k + 1);
    } else {
      assert ds[..k] == ds;
    }
  }
}
