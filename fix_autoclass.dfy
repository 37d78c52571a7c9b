// `autoclass_migration/fix_pulumi_state.py`: after buckets were moved to
// Autoclass by hand, mark them so in the Pulumi state, in place.
module FixAutoclass {
  import opened Wrappers

  const BucketType: string := "gcp:storage/bucket:Bucket"

  datatype Json =
    | JNull
    | JBool(b: bool)
    | JInt(i: int)
    | JStr(s: string)
    | JList(items: seq<Json>)
    | JObject(fields: map<string, Json>)

  /**
   * A resource of `checkpoint.latest.resources`: its type, its id when it
   * has one, the three objects the fix writes to (when present) and its
   * other fields.
   */
  datatype Resource = Resource(
    rtype: string,
    id: Option<string>,
    inputs: Option<map<string, Json>>,
    outputs: Option<map<string, Json>>,
    propertyDependencies: Option<map<string, Json>>,
    rest: map<string, Json>)

  datatype FixError =
    | Usage
    | KeyError(key: string)
    | NotFound(names: set<string>)

  const InputsAutoclass: Json := JObject(map["__defaults" := JList([]), "enabled" := JBool(true)])
  const OutputsAutoclass: Json := JObject(map["enabled" := JBool(true)])

  /** `resource['type'] == 'gcp:storage/bucket:Bucket' and resource['id'] in bucket_names`. */
  function Matches(r: Resource, pending: set<string>): (m: Result<bool, FixError>)
    ensures m == Ok(true) <==> r.rtype == BucketType && r.id.Some? && r.id.value in pending
    ensures m.Err? <==> r.rtype == BucketType && r.id.None?
  {
    if r.rtype != BucketType then Ok(false)
    else
      match r.id
      case None => Err(KeyError("id"))
      case Some(id) => Ok(id in pending)
  }

  /** The three writes: Autoclass enabled in the inputs and outputs, and no property dependencies for it. */
  function Autoclassed(r: Resource): (a: Result<Resource, FixError>)
    ensures a.Ok? <==> r.inputs.Some? && r.outputs.Some? && r.propertyDependencies.Some?
    ensures a.Ok? ==>
              a.value.inputs == Some(r.inputs.value["autoclass" := InputsAutoclass]) &&
              a.value.outputs == Some(r.outputs.value["autoclass" := OutputsAutoclass]) &&
              a.value.propertyDependencies == Some(r.propertyDependencies.value["autoclass" := JNull]) &&
              a.value.rtype == r.rtype && a.value.id == r.id && a.value.rest == r.rest
  {
    match (r.inputs, r.outputs, r.propertyDependencies)
    case (None, _, _) => Err(KeyError("inputs"))
    case (_, None, _) => Err(KeyError("outputs"))
    case (_, _, None) => Err(KeyError("propertyDependencies"))
    case (Some(ins), Some(outs), Some(deps)) =>
      Ok(r.(inputs := Some(ins["autoclass" := InputsAutoclass]),
            outputs := Some(outs["autoclass" := OutputsAutoclass]),
            propertyDependencies := Some(deps["autoclass" := JNull])))
  }

  /**
   * The loop from resource `i` on, with `pending` still to find: the
   * resources from `i` as they are left, and the names not found. A match
   * that empties `pending` ends the scan.
   */
  function FixFrom(rs: seq<Resource>, i: nat, pending: set<string>): (r: Result<(seq<Resource>, set<string>), FixError>)
    requires i <= |rs|
    ensures r.Err? ==> r.error.KeyError?
    decreases |rs| - i
  {
    if i == |rs| then Ok(([], pending))
    else
      match Matches(rs[i], pending)
      case Err(e) => Err(e)
      case Ok(false) => Prefix([rs[i]], FixFrom(rs, i + 1, pending))
      case Ok(true) =>
        match Autoclassed(rs[i])
        case Err(e) => Err(e)
        case Ok(fixed) =>
          var left := pending - {rs[i].id.value};
          if left == {} then Ok(([fixed] + rs[i + 1..], left))
          else Prefix([fixed], FixFrom(rs, i + 1, left))
  }

  function Prefix(pre: seq<Resource>, r: Result<(seq<Resource>, set<string>), FixError>): Result<(seq<Resource>, set<string>), FixError>
  {
    match r
    case Err(e) => Err(e)
    case Ok((out, left)) => Ok((pre + out, left))
  }

  /** `set(sys.argv[3:])`. */
  function NameSet(names: seq<string>): (r: set<string>)
    ensures forall n :: n in r <==> n in names
  {
    set n | n in names
  }

  /** `main` after the argument check: the fixed resources, or the error it exits with. */
  function FixState(rs: seq<Resource>, names: seq<string>): Result<seq<Resource>, FixError>
  {
    if |names| == 0 then Err(Usage)
    else
      match FixFrom(rs, 0, NameSet(names))
      case Err(e) => Err(e)
      case Ok((out, left)) => if left != {} then Err(NotFound(left)) else Ok(out)
  }

  /** Resource `j` of the output is resource `j` of the input, or that resource autoclassed while its id was pending. */
  predicate Fixed(before: Resource, after: Resource, pending: set<string>)
  {
    after == before || (Matches(before, pending) == Ok(true) && Autoclassed(before) == Ok(after))
  }

  /**
   * The scan keeps the resources in place, changes only buckets whose id
   * is pending (each into its autoclassed form), and only takes names off
   * `pending`.
   */
  lemma {:induction false} FixFromShape(rs: seq<Resource>, i: nat, pending: set<string>)
    requires i <= |rs| && FixFrom(rs, i, pending).Ok?
    ensures var (out, left) := FixFrom(rs, i, pending).value;
            |out| == |rs| - i && left <= pending &&
            forall k :: 0 <= k < |out| ==> Fixed(rs[i + k], out[k], pending)
    decreases |rs| - i
  {
    if i < |rs| {
      if Matches(rs[i], pending) == Ok(false) {
        FixFromShape(rs, i + 1, pending);
      } else {
        var left := pending - {rs[i].id.value};
        if left != {} {
          FixFromShape(rs, i + 1, left);
          var out := FixFrom(rs, i + 1, left).value.0;
          forall k | 0 <= k < |out|
            ensures Fixed(rs[i + 1 + k], out[k], pending)
          {
            assert Fixed(rs[i + 1 + k], out[k], left);
          }
        }
      }
    }
  }

  /** A name left unfound names no bucket from `i` on. */
  lemma {:induction false} FixFromNotFound(rs: seq<Resource>, i: nat, pending: set<string>)
    requires i <= |rs| && FixFrom(rs, i, pending).Ok?
    ensures forall n :: n in FixFrom(rs, i, pending).value.1 ==>
              forall j :: i <= j < |rs| ==> !(rs[j].rtype == BucketType && rs[j].id == Some(n))
    decreases |rs| - i
  {
    if i < |rs| {
      if Matches(rs[i], pending) == Ok(false) {
        FixFromNotFound(rs, i + 1, pending);
        FixFromShape(rs, i + 1, pending);
      } else {
        var left := pending - {rs[i].id.value};
        if left != {} {
          FixFromNotFound(rs, i + 1, left);
          FixFromShape(rs, i + 1, left);
        }
      }
    }
  }

  /** Each name found was the id of a bucket from `i` on, and that bucket is now autoclassed. */
  lemma {:induction false} FixFromFound(rs: seq<Resource>, i: nat, pending: set<string>)
    requires i <= |rs| && FixFrom(rs, i, pending).Ok?
    ensures var (out, left) := FixFrom(rs, i, pending).value;
            forall n :: n in pending && n !in left ==>
              exists k :: 0 <= k < |out| && i + k < |rs| && rs[i + k].rtype == BucketType && rs[i + k].id == Some(n) &&
                Autoclassed(rs[i + k]) == Ok(out[k])
    decreases |rs| - i
  {
    if i < |rs| {
      var (out, left) := FixFrom(rs, i, pending).value;
      if Matches(rs[i], pending) == Ok(false) {
        FixFromFound(rs, i + 1, pending);
        forall n | n in pending && n !in left
          ensures exists k :: 0 <= k < |out| && i + k < |rs| && rs[i + k].rtype == BucketType && rs[i + k].id == Some(n) &&
                    Autoclassed(rs[i + k]) == Ok(out[k])
        {
          var rest := FixFrom(rs, i + 1, pending).value.0;
          var k :| 0 <= k < |rest| && i + 1 + k < |rs| && rs[i + 1 + k].rtype == BucketType && rs[i + 1 + k].id == Some(n) &&
                   Autoclassed(rs[i + 1 + k]) == Ok(rest[k]);
          assert out[k + 1] == rest[k];
        }
      } else {
        var id := rs[i].id.value;
        var next := pending - {id};
        if next != {} {
          FixFromFound(rs, i + 1, next);
          forall n | n in pending && n !in left
            ensures exists k :: 0 <= k < |out| && i + k < |rs| && rs[i + k].rtype == BucketType && rs[i + k].id == Some(n) &&
                      Autoclassed(rs[i + k]) == Ok(out[k])
          {
            if n != id {
              var rest := FixFrom(rs, i + 1, next).value.0;
              var k :| 0 <= k < |rest| && i + 1 + k < |rs| && rs[i + 1 + k].rtype == BucketType && rs[i + 1 + k].id == Some(n) &&
                       Autoclassed(rs[i + 1 + k]) == Ok(rest[k]);
              assert out[k + 1] == rest[k];
            } else {
              assert out[0] == Autoclassed(rs[i]).value;
            }
          }
        } else {
          assert out[0] == Autoclassed(rs[i]).value;
        }
      }
    }
  }

  /**
   * The written state: each listed name was the id of a bucket, which is
   * now autoclassed; every other resource is as it was; any name that
   * names no bucket is an error and nothing is written.
   */
  lemma FixStateMeaning(rs: seq<Resource>, names: seq<string>)
    ensures FixState(rs, names).Ok? ==>
              var out := FixState(rs, names).value;
              |out| == |rs| &&
              (forall j :: 0 <= j < |rs| ==> Fixed(rs[j], out[j], NameSet(names))) &&
              (forall n :: n in names ==>
                 exists j :: 0 <= j < |rs| && rs[j].rtype == BucketType && rs[j].id == Some(n) && Autoclassed(rs[j]) == Ok(out[j]))
    ensures FixState(rs, names).Err? && FixState(rs, names).error.NotFound? ==>
              forall n :: n in FixState(rs, names).error.names ==>
                n in names && forall j :: 0 <= j < |rs| ==> !(rs[j].rtype == BucketType && rs[j].id == Some(n))
  {
    if |names| > 0 && FixFrom(rs, 0, NameSet(names)).Ok? {
      var pending := NameSet(names);
      FixFromShape(rs, 0, pending);
      FixFromNotFound(rs, 0, pending);
      FixFromFound(rs, 0, pending);
      var (out, left) := FixFrom(rs, 0, pending).value;
      assert forall n :: n in left ==> n in names;
      if left != {} {
        assert FixState(rs, names) == Err(NotFound(left));
      } else {
        forall n | n in names
          ensures exists j :: 0 <= j < |rs| && rs[j].rtype == BucketType && rs[j].id == Some(n) && Autoclassed(rs[j]) == Ok(out[j])
        {
          assert n in pending;
          var k :| 0 <= k < |out| && 0 + k < |rs| && rs[0 + k].rtype == BucketType && rs[0 + k].id == Some(n) &&
                   Autoclassed(rs[0 + k]) == Ok(out[k]);
        }
      }
    }
  }

  /** One resource of the loop: the resource as it is left and the names still pending, or the error. */
  function StepOf(r: Resource, pending: set<string>): Result<(Resource, set<string>), FixError>
  {
    match Matches(r, pending)
    case Err(e) => Err(e)
    case Ok(false) => Ok((r, pending))
    case Ok(true) =>
      match Autoclassed(r)
      case Err(e) => Err(e)
      case Ok(fixed) => Ok((fixed, pending - {r.id.value}))
  }

  /** The scan from `i` is the step at `i`, then (unless it emptied `pending`) the scan from `i + 1`. */
  lemma FixFromStep(rs: seq<Resource>, i: nat, pending: set<string>)
    requires i < |rs| && pending != {}
    ensures StepOf(rs[i], pending).Err? ==> FixFrom(rs, i, pending) == Err(StepOf(rs[i], pending).error)
    ensures StepOf(rs[i], pending).Ok? && StepOf(rs[i], pending).value.1 == {} ==>
              FixFrom(rs, i, pending) == Ok(([StepOf(rs[i], pending).value.0] + rs[i + 1..], {}))
    ensures StepOf(rs[i], pending).Ok? && StepOf(rs[i], pending).value.1 != {} ==>
              FixFrom(rs, i, pending) ==
              Prefix([StepOf(rs[i], pending).value.0], FixFrom(rs, i + 1, StepOf(rs[i], pending).value.1))
  {
  }

  lemma PrefixAppend(a: seq<Resource>, b: seq<Resource>, r: Result<(seq<Resource>, set<string>), FixError>)
    ensures Prefix(a, Prefix(b, r)) == Prefix(a + b, r)
  {
    if r.Ok? {
      assert a + (b + r.value.0) == (a + b) + r.value.0;
    }
  }

  /** The loop body at resource `i`: the step's outcome, with the resource rewritten when the step succeeds. */
  method FixAt(a: array<Resource>, i: nat, pending: set<string>) returns (step: Result<(Resource, set<string>), FixError>)
    requires i < a.Length
    modifies a
    ensures step == StepOf(old(a[i]), pending)
    ensures step.Ok? ==> a[..] == old(a[..])[i := step.value.0]
    ensures step.Err? ==> a[..] == old(a[..])
  {
    step := StepOf(a[i], pending);
    if step.Ok? {
      a[i] := step.value.0;
    }
  }

  /** What `main` reports once the scan is known to be `pre` followed by the scan from some point on. */
  lemma ScanResult(rs: seq<Resource>, names: seq<string>, pre: seq<Resource>, rest: Result<(seq<Resource>, set<string>), FixError>)
    requires |names| > 0 && FixFrom(rs, 0, NameSet(names)) == Prefix(pre, rest)
    ensures rest.Err? ==> FixState(rs, names) == Err(rest.error)
    ensures rest.Ok? && rest.value.1 != {} ==> FixState(rs, names) == Err(NotFound(rest.value.1))
    ensures rest.Ok? && rest.value.1 == {} ==> FixState(rs, names) == Ok(pre + rest.value.0)
  {
  }

  /**
   * `main`'s loop over the resources, changing them in place; `names` is
   * `sys.argv[3:]`. Nothing is written unless it returns `Ok`.
   */
  method FixResources(a: array<Resource>, names: seq<string>) returns (r: Result<(), FixError>)
    modifies a
    ensures FixState(old(a[..]), names).Ok? <==> r.Ok?
    ensures r.Err? ==> r.error == FixState(old(a[..]), names).error
    ensures r.Ok? ==> a[..] == FixState(old(a[..]), names).value
  {
    if |names| == 0 {
      return Err(Usage);
    }
    ghost var rs := a[..];
    ghost var start := NameSet(names);
    var pending := NameSet(names);
    assert names[0] in pending;
    var i := 0;
    assert a[..0] == [];
    assert Prefix([], FixFrom(rs, 0, pending)) == FixFrom(rs, 0, pending) by {
      if FixFrom(rs, 0, pending).Ok? {
        assert [] + FixFrom(rs, 0, pending).value.0 == FixFrom(rs, 0, pending).value.0;
      }
    }
    while i < a.Length
      invariant 0 <= i <= a.Length && |rs| == a.Length
      invariant forall k :: i <= k < a.Length ==> a[k] == rs[k]
      invariant pending != {}
      invariant FixFrom(rs, 0, start) == Prefix(a[..i], FixFrom(rs, i, pending))
    {
      assert a[i] == rs[i];
      FixFromStep(rs, i, pending);
      ghost var pre := a[..i];
      ghost var here := a[..];
      var step := FixAt(a, i, pending);
      if step.Err? {
        ScanResult(rs, names, pre, FixFrom(rs, i, pending));
        return Err(step.error);
      }
      var (after, left) := step.value;
      assert a[..i] == pre by {
        assert a[..i] == here[..i];
      }
      if left == {} {
        ScanResult(rs, names, pre, FixFrom(rs, i, pending));
        assert a[..] == pre + ([after] + rs[i + 1..]) by {
          assert a[i + 1..] == rs[i + 1..];
          assert a[..] == a[..i] + [a[i]] + a[i + 1..];
        }
        return Ok(());
      }
      PrefixAppend(pre, [after], FixFrom(rs, i + 1, left));
      assert a[..i + 1] == pre + [after];
      pending := left;
      i := i + 1;
    }
    assert a[..i] == a[..];
    ScanResult(rs, names, a[..], FixFrom(rs, i, pending));
    return Err(NotFound(pending));
  }
}
