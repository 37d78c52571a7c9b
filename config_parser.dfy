// Model of cpg_infra/config/deserializabledataclass.py: the type-directed
// parser `try_parse_value_as_type`, the keyword-argument constructor used by
// `DeserializableDataclass.instantiate`, and the `__post_init__` loop that
// parses every field of a freshly built dataclass in declaration order.
module ConfigParser {
  import opened Wrappers
  import opened Strings

  /** JSON/TOML-like Python values, plus instances of config classes and enum members. */
  datatype Value =
    | VNone
    | VBool(b: bool)
    | VInt(i: int)
    | VStr(s: string)
    | VList(elems: seq<Value>)
    | VTuple(elems: seq<Value>)
    /** A Python `set`; the element order chosen by hashing is not modelled. */
    | VSet(elems: seq<Value>)
    /** A Python `dict` with string keys, in insertion order. */
    | VDict(entries: seq<(string, Value)>)
    /** An instance of a config dataclass: class `__name__` and field values in order. */
    | VObject(cls: string, fields: seq<(string, Value)>)
    /** A member of an `Enum` class, identified by its value string. */
    | VEnum(enumName: string, member: string)

  datatype PrimKind = PStr | PInt | PBool

  /**
   * A subclass that overrides `instantiate`/`__post_init__`: config.py's
   * CPGDatasetConfig converts its component strings to enum members before
   * construction and re-raises a TypeError with the dataset's name.
   */
  datatype ClassHook = NoHook | DatasetConfigHook(enumName: string, enumValues: seq<string>)

  datatype FieldDef = FieldDef(name: string, ftype: PyType, default: Option<Value>)

  datatype ClassDef = ClassDef(name: string, fields: seq<FieldDef>, hook: ClassHook)

  /** The type descriptors the parser dispatches on. */
  datatype PyType =
    | TNoneType
    /** `A | B | ...`; the empty tuple of members stands for "anything". */
    | TUnion(members: seq<PyType>)
    /** `list` (no args) or `list[T]`; likewise dict, set and tuple. */
    | TList(args: seq<PyType>)
    | TDict(args: seq<PyType>)
    | TSet(args: seq<PyType>)
    | TTuple(args: seq<PyType>)
    | TPrim(kind: PrimKind)
    /** A `DeserializableDataclass` subclass. */
    | TClass(cd: ClassDef)
    /** An `Enum` class (not a dataclass and not a primitive). */
    | TEnum(enumName: string, values: seq<string>)
    /** `typing.Any`. */
    | TAny
    /** `typing.Literal[...]`. */
    | TLiteral(options: seq<Value>)

  /**
   * How `isinstance(value, dtype)` at deserializabledataclass.py:171 treats the
   * typing special forms `Any` and `Literal[...]`: as written CPython raises
   * TypeError there; the intended behaviour (the unit tests) accepts any value
   * for `Any` and exactly the listed values for `Literal`.
   */
  datatype Mode = AsWritten | Intended

  datatype PyError = ValueError(msg: string) | TypeError(msg: string) | AttributeError(msg: string)

  type Outcome = Result<Value, PyError>

  // ---------------------------------------------------------------------
  // Python built-ins on values

  function TypeName(v: Value): string
  {
    match v
    case VNone => "NoneType"
    case VBool(_) => "bool"
    case VInt(_) => "int"
    case VStr(_) => "str"
    case VList(_) => "list"
    case VTuple(_) => "tuple"
    case VSet(_) => "set"
    case VDict(_) => "dict"
    case VObject(c, _) => c
    case VEnum(n, _) => n
  }

  /** `repr(v)`; string escaping is not modelled. */
  function Repr(v: Value): string
  {
    match v
    case VNone => "None"
    case VBool(b) => if b then "True" else "False"
    case VInt(i) => IntToString(i)
    case VStr(s) => "'" + s + "'"
    case VList(es) => "[" + Join(seq(|es|, i requires 0 <= i < |es| => Repr(es[i])), ", ") + "]"
    case VTuple(es) =>
      if |es| == 1 then "(" + Repr(es[0]) + ",)"
      else "(" + Join(seq(|es|, i requires 0 <= i < |es| => Repr(es[i])), ", ") + ")"
    case VSet(es) =>
      if |es| == 0 then "set()"
      else "{" + Join(seq(|es|, i requires 0 <= i < |es| => Repr(es[i])), ", ") + "}"
    case VDict(kv) =>
      "{" + Join(seq(|kv|, i requires 0 <= i < |kv| => "'" + kv[i].0 + "': " + Repr(kv[i].1)), ", ") + "}"
    case VObject(c, fs) =>
      c + "(" + Join(seq(|fs|, i requires 0 <= i < |fs| => fs[i].0 + "=" + Repr(fs[i].1)), ", ") + ")"
    case VEnum(n, m) => "<" + n + ": '" + m + "'>"
  }

  /** Python truthiness (`bool(v)`); dataclass instances and enum members are truthy. */
  predicate Truthy(v: Value)
  {
    match v
    case VNone => false
    case VBool(b) => b
    case VInt(i) => i != 0
    case VStr(s) => |s| > 0
    case VList(es) => |es| > 0
    case VTuple(es) => |es| > 0
    case VSet(es) => |es| > 0
    case VDict(kv) => |kv| > 0
    case VObject(_, _) => true
    case VEnum(_, _) => true
  }

  /** Whether `hash(v)` succeeds: lists, dicts and sets are unhashable; frozen dataclasses hash their fields. */
  predicate Hashable(v: Value)
  {
    match v
    case VList(_) => false
    case VDict(_) => false
    case VSet(_) => false
    case VTuple(es) => forall i :: 0 <= i < |es| ==> Hashable(es[i])
    case VObject(_, fs) => forall i :: 0 <= i < |fs| ==> Hashable(fs[i].1)
    case _ => true
  }

  /** `isinstance(v, k)` for the primitive classes; `bool` is a subclass of `int`. */
  predicate IsInstancePrim(v: Value, k: PrimKind)
  {
    match k
    case PStr => v.VStr?
    case PInt => v.VInt? || v.VBool?
    case PBool => v.VBool?
  }

  /** `k(v)` for a value that is not already an instance of `k`. */
  function Coerce(v: Value, k: PrimKind): Outcome
  {
    match k
    case PStr => Ok(VStr(Repr(v)))
    case PBool => Ok(VBool(Truthy(v)))
    case PInt =>
      if v.VStr? then
        match ParseInt(v.s)
        case Some(n) => Ok(VInt(n))
        case None => Err(ValueError("invalid literal for int() with base 10: " + Repr(v)))
      else if v.VInt? || v.VBool? then Ok(v)
      else Err(TypeError("int() argument must be a string, a bytes-like object or a real number, not '" + TypeName(v) + "'"))
  }

  /** `d.get(k)` on an association list: the first entry with that key. */
  function Lookup(kv: seq<(string, Value)>, k: string): (r: Option<Value>)
    ensures r.Some? <==> exists i :: 0 <= i < |kv| && kv[i].0 == k
  {
    if |kv| == 0 then None else if kv[0].0 == k then Some(kv[0].1) else Lookup(kv[1..], k)
  }

  /** Entry `i` is the first one carrying key `k`. */
  predicate FirstKeyAt(kv: seq<(string, Value)>, k: string, i: int)
  {
    0 <= i < |kv| && kv[i].0 == k && forall j :: 0 <= j < i ==> kv[j].0 != k
  }

  /** `d.get(k)` returns the value of the first entry with key `k`. */
  lemma {:induction false} LookupFirst(kv: seq<(string, Value)>, k: string, i: int)
    requires FirstKeyAt(kv, k, i)
    ensures Lookup(kv, k) == Some(kv[i].1)
    decreases |kv|
  {
    if kv[0].0 != k {
      FirstKeyAtTail(kv, k, i);
      LookupFirst(kv[1..], k, i - 1);
    }
  }

  /** Past a first entry with another key, the first entry with `k` moves one place forward. */
  lemma FirstKeyAtTail(kv: seq<(string, Value)>, k: string, i: int)
    requires FirstKeyAt(kv, k, i) && kv[0].0 != k
    ensures i > 0 && FirstKeyAt(kv[1..], k, i - 1)
  {
    forall j | 0 <= j < i - 1
      ensures kv[1..][j].0 != k
    {
      assert kv[1..][j] == kv[j + 1];
    }
  }

  /** `d[k] = x` for a key already present: the value is replaced in place. */
  function Assign(kv: seq<(string, Value)>, k: string, x: Value): (r: seq<(string, Value)>)
    ensures |r| == |kv|
    ensures forall i :: 0 <= i < |kv| ==> r[i].0 == kv[i].0
  {
    if |kv| == 0 then []
    else if kv[0].0 == k then [(k, x)] + kv[1..]
    else [kv[0]] + Assign(kv[1..], k, x)
  }

  /** After `d[k] = x` the first entry with key `k` holds `x`, and every other entry is as it was. */
  lemma {:induction false} AssignAt(kv: seq<(string, Value)>, k: string, x: Value, i: int, j: int)
    requires FirstKeyAt(kv, k, i) && 0 <= j < |kv|
    ensures Assign(kv, k, x)[j] == if j == i then (k, x) else kv[j]
    decreases |kv|
  {
    if kv[0].0 == k {
      assert i == 0;
      assert Assign(kv, k, x) == [(k, x)] + kv[1..];
    } else {
      FirstKeyAtTail(kv, k, i);
      assert Assign(kv, k, x) == [kv[0]] + Assign(kv[1..], k, x);
      if j > 0 {
        AssignAt(kv[1..], k, x, i - 1, j - 1);
      }
    }
  }

  // ---------------------------------------------------------------------
  // Combining the outcomes of element-wise parses

  /** A comprehension over element parses: the first exception wins, otherwise all results. */
  function Collect(rs: seq<Outcome>): (r: Result<seq<Value>, PyError>)
    ensures r.Ok? <==> forall i :: 0 <= i < |rs| ==> rs[i].Ok?
    ensures r.Ok? ==> |r.value| == |rs| && forall i :: 0 <= i < |rs| ==> rs[i] == Ok(r.value[i])
    ensures r.Err? ==> exists i :: 0 <= i < |rs| && rs[i] == Err(r.error) && forall j :: 0 <= j < i ==> rs[j].Ok?
  {
    if |rs| == 0 then Ok([])
    else if rs[0].Err? then Err(rs[0].error)
    else match Collect(rs[1..])
      case Ok(xs) => Ok([rs[0].value] + xs)
      case Err(e) => Err(e)
  }

  /**
   * The union loop (deserializabledataclass.py:98-123): the first member that parses wins,
   * a ValueError moves on to the next member, any other exception propagates.
   */
  function UnionOutcome(rs: seq<Outcome>, v: Value): Outcome
  {
    if |rs| == 0 then
      Err(ValueError("Could not coerce value of type (" + TypeName(v) + ") as any of the types in the union, value :: " + Repr(v)))
    else if rs[0].Ok? || !rs[0].error.ValueError? then rs[0]
    else UnionOutcome(rs[1..], v)
  }

  /** `set(...)` over a stream of parses: parse, hash and insert element by element. */
  function AddAll(rs: seq<Outcome>, acc: seq<Value>): Result<seq<Value>, PyError>
  {
    if |rs| == 0 then Ok(acc)
    else match rs[0]
      case Err(e) => Err(e)
      case Ok(x) =>
        if !Hashable(x) then Err(TypeError("unhashable type: '" + TypeName(x) + "'"))
        else AddAll(rs[1..], if x in acc then acc else acc + [x])
  }

  function Keys(kv: seq<(string, Value)>): (r: seq<string>)
    ensures |r| == |kv| && forall i :: 0 <= i < |kv| ==> r[i] == kv[i].0
  {
    seq(|kv|, i requires 0 <= i < |kv| => kv[i].0)
  }

  function ZipEntries(ks: seq<string>, vs: seq<Value>): (r: seq<(string, Value)>)
    requires |ks| == |vs|
    ensures |r| == |ks| && forall i :: 0 <= i < |ks| ==> r[i] == (ks[i], vs[i])
  {
    seq(|ks|, i requires 0 <= i < |ks| => (ks[i], vs[i]))
  }

  function Wrap(r: Result<seq<Value>, PyError>, mk: seq<Value> -> Value): Outcome
  {
    match r
    case Ok(xs) => Ok(mk(xs))
    case Err(e) => Err(e)
  }

  // ---------------------------------------------------------------------
  // try_parse_value_as_type

  /** The ValueError raised when the value is not of the container or class kind expected. */
  function KindError(expected: string, v: Value): (e: PyError)
    ensures e.ValueError?
  {
    ValueError("Expected " + expected + ", got " + TypeName(v) + " for " + Repr(v))
  }

  /** The ValueError raised when a tuple or list has the wrong number of items for a `tuple[...]`. */
  function LengthError(n: nat, v: Value): (e: PyError)
    requires v.VTuple? || v.VList?
    ensures e.ValueError?
  {
    ValueError("Expected tuple of length " + IntToString(n) + ", got " + IntToString(|v.elems|) + " for " + Repr(v))
  }

  /** The ValueError raised when a value is not among a `Literal[...]`'s options. */
  function LiteralError(v: Value): (e: PyError)
    ensures e.ValueError?
  {
    ValueError("Expected one of the literal values, got " + Repr(v))
  }

  /** `try_parse_value_as_type(v, t)` (deserializabledataclass.py:68-182). */
  function Parse(v: Value, t: PyType, m: Mode): Outcome
    decreases t, 3
  {
    match t
    case TNoneType =>
      if v == VNone then Ok(VNone)
      else Err(KindError("None", v))
    case TUnion(ms) =>
      if |ms| == 0 then Ok(v)
      else if v == VNone then
        if TNoneType in ms then Ok(VNone)
        else Err(ValueError("Expected (non-optional) union, got None"))
      else UnionOutcome(seq(|ms|, i requires 0 <= i < |ms| => Parse(v, ms[i], m)), v)
    case TList(args) =>
      if !v.VList? then Err(KindError("list", v))
      else if |args| != 1 then Ok(v)
      else
        var es := v.elems;
        Wrap(Collect(seq(|es|, i requires 0 <= i < |es| => Parse(es[i], args[0], m))), xs => VList(xs))
    case TDict(args) =>
      if !v.VDict? then Err(KindError("dict", v))
      else if |args| != 2 then Ok(v)
      else
        var kv := v.entries;
        DictOutcome(kv, seq(|kv|, i requires 0 <= i < |kv| => Parse(kv[i].1, args[1], m)))
    case TSet(args) =>
      if !(v.VSet? || v.VList?) then Err(KindError("set", v))
      else
        var es := v.elems;
        if |args| != 1 then Wrap(AddAll(seq(|es|, i requires 0 <= i < |es| => Ok(es[i])), []), xs => VSet(xs))
        else Wrap(AddAll(seq(|es|, i requires 0 <= i < |es| => Parse(es[i], args[0], m)), []), xs => VSet(xs))
    case TTuple(args) =>
      if !(v.VTuple? || v.VList?) then Err(KindError("tuple", v))
      else
        var es := v.elems;
        if |args| == 0 then Ok(VTuple(es))
        else if |args| != |es| then
          Err(LengthError(|args|, v))
        else Wrap(Collect(seq(|es|, i requires 0 <= i < |es| => Parse(es[i], args[i], m))), xs => VTuple(xs))
    case TPrim(k) =>
      if IsInstancePrim(v, k) then Ok(v) else Coerce(v, k)
    case TClass(cd) =>
      if v.VObject? && v.cls == cd.name then Ok(v)
      else if !v.VDict? then Err(KindError("dict", v))
      else Instantiate(t, v.entries, m)
    case TEnum(n, _) =>
      if v.VEnum? && v.enumName == n then Ok(v) else Err(ValueError("Unknown type " + n))
    case TAny =>
      if m == AsWritten then Err(TypeError("typing.Any cannot be used with isinstance()")) else Ok(v)
    case TLiteral(opts) =>
      if m == AsWritten then Err(TypeError("Subscripted generics cannot be used with class and instance checks"))
      else if v in opts then Ok(v)
      else Err(LiteralError(v))
  }

  // ---------------------------------------------------------------------
  // DeserializableDataclass.instantiate(**kwargs) == cls(**kwargs), then __post_init__

  /** The first keyword argument that names no field (reported by the generated `__init__`). */
  function FirstUnknownKey(kv: seq<(string, Value)>, fs: seq<FieldDef>): (r: Option<string>)
    ensures r.None? <==> forall i :: 0 <= i < |kv| ==> exists j :: 0 <= j < |fs| && fs[j].name == kv[i].0
  {
    if |kv| == 0 then None
    else if exists j :: 0 <= j < |fs| && fs[j].name == kv[0].0 then FirstUnknownKey(kv[1..], fs)
    else Some(kv[0].0)
  }

  /** A required field (no default) that the keyword arguments do not supply. */
  predicate MissingRequired(kv: seq<(string, Value)>, fs: seq<FieldDef>)
  {
    exists j :: 0 <= j < |fs| && fs[j].default.None? && Lookup(kv, fs[j].name).None?
  }

  /** The field values the generated `__init__` stores: the argument, else the default. */
  function InitialValues(kv: seq<(string, Value)>, fs: seq<FieldDef>): (r: seq<Value>)
    requires !MissingRequired(kv, fs)
    ensures |r| == |fs|
    ensures forall j :: 0 <= j < |fs| && Lookup(kv, fs[j].name).Some? ==> r[j] == Lookup(kv, fs[j].name).value
    ensures forall j :: 0 <= j < |fs| && Lookup(kv, fs[j].name).None? ==> fs[j].default.Some? && r[j] == fs[j].default.value
  {
    seq(|fs|, j requires 0 <= j < |fs| =>
      match Lookup(kv, fs[j].name)
      case Some(x) => x
      case None => fs[j].default.value)
  }

  /** Each field starts as its keyword argument when one is given, else as its default. */
  lemma InitialValueOf(kv: seq<(string, Value)>, fs: seq<FieldDef>, j: int)
    requires !MissingRequired(kv, fs) && 0 <= j < |fs|
    ensures Lookup(kv, fs[j].name).Some? ==> InitialValues(kv, fs)[j] == Lookup(kv, fs[j].name).value
    ensures Lookup(kv, fs[j].name).None? ==> fs[j].default.Some? && InitialValues(kv, fs)[j] == fs[j].default.value
  {
  }

  /** Iterating a value with a `for` loop: lists, tuples and sets give their elements, dicts their keys, strings their characters. */
  function Iterate(v: Value): Result<seq<Value>, PyError>
  {
    match v
    case VList(es) => Ok(es)
    case VTuple(es) => Ok(es)
    case VSet(es) => Ok(es)
    case VDict(kv) => Ok(seq(|kv|, i requires 0 <= i < |kv| => VStr(kv[i].0)))
    case VStr(s) => Ok(seq(|s|, i requires 0 <= i < |s| => VStr([s[i]])))
    case _ => Err(TypeError("'" + TypeName(v) + "' object is not iterable"))
  }

  /** `EnumClass(c)`: look a member up by value; a member is returned as is. */
  function EnumMember(enumName: string, values: seq<string>, c: Value): Outcome
  {
    if c.VEnum? && c.enumName == enumName then Ok(c)
    else if c.VStr? && c.s in values then Ok(VEnum(enumName, c.s))
    else Err(ValueError(Repr(c) + " is not a valid " + enumName))
  }

  function ConvertComponentList(enumName: string, values: seq<string>, comps: Value): Outcome
  {
    match Iterate(comps)
    case Err(e) => Err(e)
    case Ok(cs) =>
      Wrap(Collect(seq(|cs|, i requires 0 <= i < |cs| => EnumMember(enumName, values, cs[i]))), xs => VList(xs))
  }

  /** CPGDatasetConfig.instantiate (config.py:395-402): map each cloud's component strings to enum members. */
  function ConvertComponents(hook: ClassHook, kv: seq<(string, Value)>): Result<seq<(string, Value)>, PyError>
  {
    match hook
    case NoHook => Ok(kv)
    case DatasetConfigHook(en, vals) =>
      match Lookup(kv, "components")
      case None => Ok(kv)
      case Some(c) =>
        if !Truthy(c) then Ok(kv)
        else if !c.VDict? then Err(AttributeError("'" + TypeName(c) + "' object has no attribute 'items'"))
        else
          var es := c.entries;
          match Collect(seq(|es|, i requires 0 <= i < |es| => ConvertComponentList(en, vals, es[i].1)))
          case Err(e) => Err(e)
          case Ok(xs) => Ok(Assign(kv, "components", VDict(ZipEntries(Keys(es), xs))))
  }

  /** `cls.instantiate(**kv)`: construct the dataclass, then run `__post_init__`. */
  function Instantiate(t: PyType, kv: seq<(string, Value)>, m: Mode): Outcome
    requires t.TClass?
    decreases t, 2
  {
    var cd := t.cd;
    match ConvertComponents(cd.hook, kv)
    case Err(e) => Err(e)
    case Ok(kw) =>
      match FirstUnknownKey(kw, cd.fields)
      case Some(k) => Err(TypeError(cd.name + ".__init__() got an unexpected keyword argument '" + k + "'"))
      case None =>
        if MissingRequired(kw, cd.fields) then Err(TypeError(cd.name + ".__init__() missing required positional arguments"))
        else PostInitFrom(t, InitialValues(kw, cd.fields), 0, m)
  }

  function FieldNames(fs: seq<FieldDef>): (r: seq<string>)
    ensures |r| == |fs| && forall i :: 0 <= i < |fs| ==> r[i] == fs[i].name
  {
    seq(|fs|, i requires 0 <= i < |fs| => fs[i].name)
  }

  /** The index of the field called `name`, if any. */
  function FieldIndex(fs: seq<FieldDef>, name: string): (r: Option<nat>)
    ensures r.Some? ==> r.value < |fs| && fs[r.value].name == name
  {
    if |fs| == 0 then None
    else if fs[0].name == name then Some(0)
    else match FieldIndex(fs[1..], name)
      case Some(j) => Some(j + 1)
      case None => None
  }

  /**
   * The exception `__post_init__` raises when parsing field `i` fails with `e`,
   * given the current field values `vals`: a ValueError is re-raised naming
   * `Class.field` (deserializabledataclass.py:36-39); for CPGDatasetConfig a
   * TypeError is re-raised naming the class and the current `dataset` value
   * (config.py:296-302); anything else propagates.
   */
  function Rewrap(cd: ClassDef, vals: seq<Value>, i: nat, e: PyError): PyError
    requires i < |cd.fields| && |vals| == |cd.fields|
  {
    match e
    case ValueError(msg) => ValueError("Error parsing " + cd.name + "." + cd.fields[i].name + " :: ValueError('" + msg + "')")
    case TypeError(msg) =>
      if cd.hook.NoHook? then e
      else
        (match FieldIndex(cd.fields, "dataset")
         case Some(d) => TypeError("Could not instantiate " + cd.name + " for " + Repr(vals[d]) + ": " + msg)
         case None => AttributeError("'" + cd.name + "' object has no attribute 'dataset'"))
    case AttributeError(_) => e
  }

  /**
   * The `__post_init__` loop (deserializabledataclass.py:26-39) from field `i` on:
   * parse field `i`, write the parsed value back, continue.
   */
  function PostInitFrom(t: PyType, vals: seq<Value>, i: nat, m: Mode): Outcome
    requires t.TClass? && |vals| == |t.cd.fields| && i <= |vals|
    decreases t, 1, |vals| - i
  {
    var cd := t.cd;
    if i == |vals| then Ok(VObject(cd.name, ZipEntries(FieldNames(cd.fields), vals)))
    else match Parse(vals[i], cd.fields[i].ftype, m)
      case Ok(x) => PostInitFrom(t, vals[i := x], i + 1, m)
      case Err(e) => Err(Rewrap(cd, vals, i, e))
  }

  /** A dataclass instance under construction: `__dict__` holds the field values. */
  class DataclassInstance {
    const cls: PyType
    var attrs: seq<Value>

    ghost predicate Valid()
      reads this
    {
      cls.TClass? && |attrs| == |cls.cd.fields|
    }

    constructor (t: PyType, initial: seq<Value>)
      requires t.TClass? && |initial| == |t.cd.fields|
      ensures Valid() && cls == t && attrs == initial
    {
      cls := t;
      attrs := initial;
    }

    /**
     * `__post_init__`: parse every field in order, writing each parsed value back
     * into `__dict__`; on failure return the (re-wrapped) exception.
     */
    method PostInit(m: Mode) returns (err: Option<PyError>)
      requires Valid()
      modifies this
      ensures Valid()
      ensures match PostInitFrom(cls, old(attrs), 0, m)
              case Ok(r) => err.None? && r == VObject(cls.cd.name, ZipEntries(FieldNames(cls.cd.fields), attrs))
              case Err(e) => err == Some(e)
    {
      var fields := cls.cd.fields;
      var i := 0;
      while i < |attrs|
        invariant Valid() && 0 <= i <= |attrs|
        invariant PostInitFrom(cls, attrs, i, m) == PostInitFrom(cls, old(attrs), 0, m)
        decreases |attrs| - i
      {
        var parsed := Parse(attrs[i], fields[i].ftype, m);
        if parsed.Err? {
          err := Some(Rewrap(cls.cd, attrs, i, parsed.error));
          return;
        }
        attrs := attrs[i := parsed.value];
        i := i + 1;
      }
      err := None;
    }
  }

  // ---------------------------------------------------------------------
  // What a parsed value looks like

  /** `r` is an instance of `t` in the sense the parser guarantees. */
  predicate Conforms(r: Value, t: PyType)
    decreases t
  {
    match t
    case TNoneType => r == VNone
    case TUnion(ms) => |ms| == 0 || exists i :: 0 <= i < |ms| && Conforms(r, ms[i])
    case TList(args) =>
      r.VList? && (|args| == 1 ==> forall i :: 0 <= i < |r.elems| ==> Conforms(r.elems[i], args[0]))
    case TDict(args) =>
      r.VDict? && (|args| == 2 ==> forall i :: 0 <= i < |r.entries| ==> Conforms(r.entries[i].1, args[1]))
    case TSet(args) =>
      r.VSet? && (forall i :: 0 <= i < |r.elems| ==> Hashable(r.elems[i])) &&
      (|args| == 1 ==> forall i :: 0 <= i < |r.elems| ==> Conforms(r.elems[i], args[0]))
    case TTuple(args) =>
      r.VTuple? && (|args| > 0 ==> |r.elems| == |args| && forall i :: 0 <= i < |args| ==> Conforms(r.elems[i], args[i]))
    case TPrim(k) => IsInstancePrim(r, k)
    case TClass(cd) => r.VObject? && r.cls == cd.name
    case TEnum(n, _) => r.VEnum? && r.enumName == n
    case TAny => true
    case TLiteral(opts) => r in opts
  }

  // ---------------------------------------------------------------------
  // Properties of the combinators

  lemma {:induction false} UnionOutcomeFirst(rs: seq<Outcome>, v: Value, i: nat)
    requires i < |rs| && (rs[i].Ok? || !rs[i].error.ValueError?)
    requires forall j :: 0 <= j < i ==> rs[j].Err? && rs[j].error.ValueError?
    ensures UnionOutcome(rs, v) == rs[i]
  {
    if i > 0 {
      UnionOutcomeFirst(rs[1..], v, i - 1);
    }
  }

  lemma {:induction false} UnionOutcomeOk(rs: seq<Outcome>, v: Value)
    requires UnionOutcome(rs, v).Ok?
    ensures exists i :: 0 <= i < |rs| && rs[i] == UnionOutcome(rs, v) &&
              forall j :: 0 <= j < i ==> rs[j].Err? && rs[j].error.ValueError?
  {
    if rs[0].Ok? {
      assert rs[0] == UnionOutcome(rs, v);
    } else {
      UnionOutcomeOk(rs[1..], v);
      var i :| 0 <= i < |rs[1..]| && rs[1..][i] == UnionOutcome(rs[1..], v) &&
               forall j :: 0 <= j < i ==> rs[1..][j].Err? && rs[1..][j].error.ValueError?;
      assert rs[i + 1] == UnionOutcome(rs, v);
      assert forall j :: 0 <= j < i + 1 ==> rs[j].Err? && rs[j].error.ValueError? by {
        forall j | 0 <= j < i + 1 ensures rs[j].Err? && rs[j].error.ValueError? {
          if j > 0 { assert rs[j] == rs[1..][j - 1]; }
        }
      }
    }
  }

  lemma {:induction false} UnionOutcomeValueError(rs: seq<Outcome>, v: Value)
    ensures (UnionOutcome(rs, v).Err? && UnionOutcome(rs, v).error.ValueError?) <==>
            forall j :: 0 <= j < |rs| ==> rs[j].Err? && rs[j].error.ValueError?
  {
    if |rs| > 0 {
      UnionOutcomeValueError(rs[1..], v);
      assert forall j :: 1 <= j < |rs| ==> rs[j] == rs[1..][j - 1];
    }
  }

  lemma {:induction false} AddAllMembers(rs: seq<Outcome>, acc: seq<Value>)
    requires AddAll(rs, acc).Ok?
    ensures forall x :: x in AddAll(rs, acc).value ==>
              x in acc || exists j :: 0 <= j < |rs| && rs[j] == Ok(x) && Hashable(x)
  {
    if |rs| > 0 {
      var x := rs[0].value;
      var acc' := if x in acc then acc else acc + [x];
      AddAllMembers(rs[1..], acc');
      forall y | y in AddAll(rs, acc).value
        ensures y in acc || exists j :: 0 <= j < |rs| && rs[j] == Ok(y) && Hashable(y)
      {
        if y !in acc' {
          var j :| 0 <= j < |rs[1..]| && rs[1..][j] == Ok(y) && Hashable(y);
          assert rs[j + 1] == Ok(y);
        } else if y !in acc {
          assert y == x && rs[0] == Ok(y);
        }
      }
    }
  }

  lemma {:induction false} AddAllOfSet(es: seq<Value>, acc: seq<Value>)
    requires forall i :: 0 <= i < |es| ==> Hashable(es[i])
    requires forall i, j :: 0 <= i < j < |acc + es| ==> (acc + es)[i] != (acc + es)[j]
    ensures AddAll(seq(|es|, i requires 0 <= i < |es| => Ok(es[i])), acc) == Ok(acc + es)
  {
    var rs: seq<Outcome> := seq(|es|, i requires 0 <= i < |es| => Ok(es[i]));
    if |es| > 0 {
      assert es[0] !in acc by {
        forall k | 0 <= k < |acc| ensures acc[k] != es[0] {
          assert (acc + es)[k] == acc[k] && (acc + es)[|acc|] == es[0];
        }
      }
      assert (acc + [es[0]]) + es[1..] == acc + es;
      assert rs[0] == Ok(es[0]);
      assert AddAll(rs, acc) == AddAll(rs[1..], acc + [es[0]]);
      var rest: seq<Outcome> := seq(|es[1..]|, i requires 0 <= i < |es[1..]| => Ok(es[1..][i]));
      assert rs[1..] == rest;
      AddAllOfSet(es[1..], acc + [es[0]]);
      assert AddAll(rs, acc) == Ok(acc + es);
    } else {
      assert acc + es == acc;
    }
  }

  lemma {:induction false} PostInitShape(t: PyType, vals: seq<Value>, i: nat, m: Mode)
    requires t.TClass? && |vals| == |t.cd.fields| && i <= |vals|
    requires PostInitFrom(t, vals, i, m).Ok?
    ensures PostInitFrom(t, vals, i, m).value.VObject?
    ensures PostInitFrom(t, vals, i, m).value.cls == t.cd.name
    ensures |PostInitFrom(t, vals, i, m).value.fields| == |t.cd.fields|
    decreases |vals| - i
  {
    if i < |vals| {
      PostInitShape(t, vals[i := Parse(vals[i], t.cd.fields[i].ftype, m).value], i + 1, m);
    }
  }

  // ---------------------------------------------------------------------
  // Properties of try_parse_value_as_type (deserializabledataclass.py:68-182)

  /** A None target accepts only None; anything else raises ValueError. */
  lemma NoneTarget(v: Value, m: Mode)
    ensures Parse(v, TNoneType, m).Ok? <==> v == VNone
    ensures Parse(v, TNoneType, m).Ok? ==> Parse(v, TNoneType, m).value == VNone
    ensures Parse(v, TNoneType, m).Err? ==> Parse(v, TNoneType, m).error.ValueError?
  {
  }

  /** An optional union accepts None without trying its members; a non-optional one raises ValueError. */
  lemma UnionOfNone(ms: seq<PyType>, m: Mode)
    requires |ms| > 0
    ensures Parse(VNone, TUnion(ms), m).Ok? <==> TNoneType in ms
    ensures Parse(VNone, TUnion(ms), m).Ok? ==> Parse(VNone, TUnion(ms), m).value == VNone
    ensures Parse(VNone, TUnion(ms), m).Err? ==> Parse(VNone, TUnion(ms), m).error.ValueError?
  {
  }

  /**
   * A union yields the outcome of the first member, in declaration order, that
   * does not raise ValueError: its parse if it succeeds, its exception otherwise.
   */
  lemma UnionFirstMember(v: Value, ms: seq<PyType>, m: Mode, i: nat)
    requires v != VNone && i < |ms|
    requires Parse(v, ms[i], m).Ok? || !Parse(v, ms[i], m).error.ValueError?
    requires forall j :: 0 <= j < i ==> Parse(v, ms[j], m).Err? && Parse(v, ms[j], m).error.ValueError?
    ensures Parse(v, TUnion(ms), m) == Parse(v, ms[i], m)
  {
    var rs := seq(|ms|, k requires 0 <= k < |ms| => Parse(v, ms[k], m));
    UnionOutcomeFirst(rs, v, i);
  }

  /** Every successful union parse is the parse under some member, all earlier members having raised ValueError. */
  lemma UnionResultFromMember(v: Value, ms: seq<PyType>, m: Mode)
    requires v != VNone && |ms| > 0 && Parse(v, TUnion(ms), m).Ok?
    ensures exists i :: 0 <= i < |ms| && Parse(v, ms[i], m) == Parse(v, TUnion(ms), m) &&
              forall j :: 0 <= j < i ==> Parse(v, ms[j], m).Err? && Parse(v, ms[j], m).error.ValueError?
  {
    var rs := seq(|ms|, k requires 0 <= k < |ms| => Parse(v, ms[k], m));
    assert Parse(v, TUnion(ms), m) == UnionOutcome(rs, v);
    assert forall k :: 0 <= k < |ms| ==> rs[k] == Parse(v, ms[k], m);
    UnionOutcomeOk(rs, v);
  }

  lemma UnionSomeMember(v: Value, ms: seq<PyType>, m: Mode) returns (i: nat)
    requires v != VNone && |ms| > 0 && Parse(v, TUnion(ms), m).Ok?
    ensures i < |ms| && Parse(v, ms[i], m) == Parse(v, TUnion(ms), m)
  {
    UnionResultFromMember(v, ms, m);
    i :| 0 <= i < |ms| && Parse(v, ms[i], m) == Parse(v, TUnion(ms), m) &&
         forall j :: 0 <= j < i ==> Parse(v, ms[j], m).Err? && Parse(v, ms[j], m).error.ValueError?;
  }

  /** A union raises ValueError iff every member raises ValueError. */
  lemma UnionAllFail(v: Value, ms: seq<PyType>, m: Mode)
    requires v != VNone && |ms| > 0
    ensures (Parse(v, TUnion(ms), m).Err? && Parse(v, TUnion(ms), m).error.ValueError?) <==>
            forall j :: 0 <= j < |ms| ==> Parse(v, ms[j], m).Err? && Parse(v, ms[j], m).error.ValueError?
  {
    var rs := seq(|ms|, k requires 0 <= k < |ms| => Parse(v, ms[k], m));
    assert Parse(v, TUnion(ms), m) == UnionOutcome(rs, v);
    assert forall k :: 0 <= k < |ms| ==> rs[k] == Parse(v, ms[k], m);
    UnionOutcomeValueError(rs, v);
  }

  /**
   * `list[T]`: a non-list raises ValueError; otherwise the list parses iff every
   * element parses, the result keeps length and order, and a failing list raises
   * the exception of its first failing element.
   */
  lemma ListTarget(v: Value, t: PyType, m: Mode)
    requires v.VList?
    ensures Parse(v, TList([t]), m).Ok? <==> forall i :: 0 <= i < |v.elems| ==> Parse(v.elems[i], t, m).Ok?
    ensures Parse(v, TList([t]), m).Ok? ==>
              var r := Parse(v, TList([t]), m).value;
              r.VList? && |r.elems| == |v.elems| && forall i :: 0 <= i < |v.elems| ==> Parse(v.elems[i], t, m) == Ok(r.elems[i])
    ensures Parse(v, TList([t]), m).Err? ==>
              exists i :: 0 <= i < |v.elems| && Parse(v.elems[i], t, m) == Err(Parse(v, TList([t]), m).error) &&
                forall j :: 0 <= j < i ==> Parse(v.elems[j], t, m).Ok?
  {
    var rs := seq(|v.elems|, i requires 0 <= i < |v.elems| => Parse(v.elems[i], t, m));
    ListParsesAs(v, t, m, rs);
    ListTargetOk(v, t, m, rs);
    if Parse(v, TList([t]), m).Ok? {
      ListTargetElems(v, t, m, rs);
    } else {
      ListTargetErr(v, t, m, rs);
    }
  }

  lemma ListParsesAs(v: Value, t: PyType, m: Mode, rs: seq<Outcome>)
    requires v.VList? && rs == seq(|v.elems|, i requires 0 <= i < |v.elems| => Parse(v.elems[i], t, m))
    ensures Parse(v, TList([t]), m) == Wrap(Collect(rs), xs => VList(xs))
    ensures |rs| == |v.elems| && forall i :: 0 <= i < |v.elems| ==> rs[i] == Parse(v.elems[i], t, m)
  {
  }

  lemma ListTargetOk(v: Value, t: PyType, m: Mode, rs: seq<Outcome>)
    requires v.VList? && Parse(v, TList([t]), m) == Wrap(Collect(rs), xs => VList(xs))
    requires |rs| == |v.elems| && forall i :: 0 <= i < |v.elems| ==> rs[i] == Parse(v.elems[i], t, m)
    ensures Parse(v, TList([t]), m).Ok? <==> forall i :: 0 <= i < |v.elems| ==> Parse(v.elems[i], t, m).Ok?
  {
    CollectWrapped(rs, xs => VList(xs), Parse(v, TList([t]), m));
  }

  lemma ListTargetElems(v: Value, t: PyType, m: Mode, rs: seq<Outcome>)
    requires v.VList? && Parse(v, TList([t]), m) == Wrap(Collect(rs), xs => VList(xs))
    requires |rs| == |v.elems| && forall i :: 0 <= i < |v.elems| ==> rs[i] == Parse(v.elems[i], t, m)
    requires Parse(v, TList([t]), m).Ok?
    ensures var r := Parse(v, TList([t]), m).value;
            r.VList? && |r.elems| == |v.elems| && forall i :: 0 <= i < |v.elems| ==> Parse(v.elems[i], t, m) == Ok(r.elems[i])
  {
    CollectWrapped(rs, xs => VList(xs), Parse(v, TList([t]), m));
  }

  lemma ListTargetErr(v: Value, t: PyType, m: Mode, rs: seq<Outcome>)
    requires v.VList? && Parse(v, TList([t]), m) == Wrap(Collect(rs), xs => VList(xs))
    requires |rs| == |v.elems| && forall i :: 0 <= i < |v.elems| ==> rs[i] == Parse(v.elems[i], t, m)
    requires Parse(v, TList([t]), m).Err?
    ensures exists i :: 0 <= i < |v.elems| && Parse(v.elems[i], t, m) == Err(Parse(v, TList([t]), m).error) &&
              forall j :: 0 <= j < i ==> Parse(v.elems[j], t, m).Ok?
  {
    CollectWrapped(rs, xs => VList(xs), Parse(v, TList([t]), m));
  }

  /** What `Wrap(Collect(rs), mk)` says about the element outcomes `rs`, with `mk` building a list. */
  lemma CollectWrapped(rs: seq<Outcome>, mk: seq<Value> -> Value, out: Outcome)
    requires out == Wrap(Collect(rs), mk)
    requires mk == (xs => VList(xs))
    ensures out.Ok? <==> forall i :: 0 <= i < |rs| ==> rs[i].Ok?
    ensures out.Ok? ==> out.value.VList? && |out.value.elems| == |rs| && forall i :: 0 <= i < |rs| ==> rs[i] == Ok(out.value.elems[i])
    ensures out.Err? ==> exists i :: 0 <= i < |rs| && rs[i] == Err(out.error) && forall j :: 0 <= j < i ==> rs[j].Ok?
  {
  }

  /** `list[T]` and `dict[K, V]` reject a value of the wrong kind with ValueError. */
  lemma ContainerKindMismatch(v: Value, k: PyType, t: PyType, m: Mode)
    ensures !v.VList? ==> Parse(v, TList([t]), m).Err? && Parse(v, TList([t]), m).error.ValueError?
    ensures !v.VDict? ==> Parse(v, TDict([k, t]), m).Err? && Parse(v, TDict([k, t]), m).error.ValueError?
  {
  }

  /**
   * `dict[K, V]`: a non-dict raises ValueError; otherwise the keys are kept in order
   * and every value is parsed as V, the dict parsing iff every value does.
   */
  lemma DictTarget(v: Value, k: PyType, t: PyType, m: Mode)
    requires v.VDict?
    ensures Parse(v, TDict([k, t]), m).Ok? <==> forall i :: 0 <= i < |v.entries| ==> Parse(v.entries[i].1, t, m).Ok?
    ensures Parse(v, TDict([k, t]), m).Ok? ==>
              var r := Parse(v, TDict([k, t]), m).value;
              r.VDict? && |r.entries| == |v.entries| &&
              forall i :: 0 <= i < |v.entries| ==> r.entries[i].0 == v.entries[i].0 && Parse(v.entries[i].1, t, m) == Ok(r.entries[i].1)
  {
    DictTargetOk(v, k, t, m);
    if Parse(v, TDict([k, t]), m).Ok? {
      DictTargetEntries(v, k, t, m);
    }
  }

  lemma DictTargetOk(v: Value, k: PyType, t: PyType, m: Mode)
    requires v.VDict?
    ensures Parse(v, TDict([k, t]), m).Ok? <==> forall i :: 0 <= i < |v.entries| ==> Parse(v.entries[i].1, t, m).Ok?
  {
    var kv := v.entries;
    var rs := seq(|kv|, i requires 0 <= i < |kv| => Parse(kv[i].1, t, m));
    DictParsesAs(v, k, t, m, rs);
    DictOutcomeFacts(kv, rs);
  }

  lemma DictParsesAs(v: Value, k: PyType, t: PyType, m: Mode, rs: seq<Outcome>)
    requires v.VDict? && rs == seq(|v.entries|, i requires 0 <= i < |v.entries| => Parse(v.entries[i].1, t, m))
    ensures Parse(v, TDict([k, t]), m) == DictOutcome(v.entries, rs)
    ensures forall i :: 0 <= i < |v.entries| ==> rs[i] == Parse(v.entries[i].1, t, m)
  {
  }

  lemma DictTargetEntries(v: Value, k: PyType, t: PyType, m: Mode)
    requires v.VDict? && Parse(v, TDict([k, t]), m).Ok?
    ensures var r := Parse(v, TDict([k, t]), m).value;
            r.VDict? && |r.entries| == |v.entries| &&
            forall i :: 0 <= i < |v.entries| ==> r.entries[i].0 == v.entries[i].0 && Parse(v.entries[i].1, t, m) == Ok(r.entries[i].1)
  {
    var kv := v.entries;
    var rs := seq(|kv|, i requires 0 <= i < |kv| => Parse(kv[i].1, t, m));
    DictParsesAs(v, k, t, m, rs);
    DictOutcomeFacts(kv, rs);
  }

  /** A dict comprehension over value parses: the first exception wins, otherwise the keys paired with the results. */
  function DictOutcome(kv: seq<(string, Value)>, rs: seq<Outcome>): Outcome
    requires |rs| == |kv|
  {
    match Collect(rs)
    case Ok(xs) => Ok(VDict(ZipEntries(Keys(kv), xs)))
    case Err(e) => Err(e)
  }

  lemma DictOutcomeFacts(kv: seq<(string, Value)>, rs: seq<Outcome>)
    requires |rs| == |kv|
    ensures DictOutcome(kv, rs).Ok? <==> forall i :: 0 <= i < |rs| ==> rs[i].Ok?
    ensures DictOutcome(kv, rs).Ok? ==>
              var r := DictOutcome(kv, rs).value;
              r.VDict? && |r.entries| == |kv| &&
              forall i :: 0 <= i < |kv| ==> r.entries[i].0 == kv[i].0 && rs[i] == Ok(r.entries[i].1)
  {
  }

  /**
   * `tuple[T1, ..., Tn]`: a tuple or list of exactly n items parses positionally;
   * any other length or kind raises ValueError.
   */
  lemma TupleTarget(v: Value, ts: seq<PyType>, m: Mode)
    requires |ts| > 0
    ensures !(v.VTuple? || v.VList?) ==> Parse(v, TTuple(ts), m).Err? && Parse(v, TTuple(ts), m).error.ValueError?
    ensures (v.VTuple? || v.VList?) && |v.elems| != |ts| ==>
              Parse(v, TTuple(ts), m).Err? && Parse(v, TTuple(ts), m).error.ValueError?
    ensures (v.VTuple? || v.VList?) && |v.elems| == |ts| ==>
              (Parse(v, TTuple(ts), m).Ok? <==> forall i :: 0 <= i < |ts| ==> Parse(v.elems[i], ts[i], m).Ok?)
    ensures (v.VTuple? || v.VList?) && Parse(v, TTuple(ts), m).Ok? ==>
              var r := Parse(v, TTuple(ts), m).value;
              r.VTuple? && |r.elems| == |ts| && forall i :: 0 <= i < |ts| ==> Parse(v.elems[i], ts[i], m) == Ok(r.elems[i])
  {
    if (v.VTuple? || v.VList?) && |v.elems| == |ts| {
      var es := v.elems;
      var rs := seq(|es|, i requires 0 <= i < |es| => Parse(es[i], ts[i], m));
      assert forall i :: 0 <= i < |es| ==> rs[i] == Parse(es[i], ts[i], m);
    }
  }

  /** Bare `list`/`dict` return the value unchanged; bare `tuple` returns `tuple(value)`; bare `set` of a set is that set. */
  lemma BareContainers(es: seq<Value>, kv: seq<(string, Value)>, m: Mode)
    ensures Parse(VList(es), TList([]), m) == Ok(VList(es))
    ensures Parse(VDict(kv), TDict([]), m) == Ok(VDict(kv))
    ensures Parse(VList(es), TTuple([]), m) == Ok(VTuple(es))
    ensures Parse(VTuple(es), TTuple([]), m) == Ok(VTuple(es))
    ensures (forall i :: 0 <= i < |es| ==> Hashable(es[i])) && (forall i, j :: 0 <= i < j < |es| ==> es[i] != es[j]) ==>
              Parse(VSet(es), TSet([]), m) == Ok(VSet(es))
  {
    BareList(es, m);
    BareDict(kv, m);
    BareTuple(es, m);
    if (forall i :: 0 <= i < |es| ==> Hashable(es[i])) && (forall i, j :: 0 <= i < j < |es| ==> es[i] != es[j]) {
      BareSet(es, m);
    }
  }

  lemma BareList(es: seq<Value>, m: Mode)
    ensures Parse(VList(es), TList([]), m) == Ok(VList(es))
  {
  }

  lemma BareDict(kv: seq<(string, Value)>, m: Mode)
    ensures Parse(VDict(kv), TDict([]), m) == Ok(VDict(kv))
  {
  }

  lemma BareTuple(es: seq<Value>, m: Mode)
    ensures Parse(VList(es), TTuple([]), m) == Ok(VTuple(es))
    ensures Parse(VTuple(es), TTuple([]), m) == Ok(VTuple(es))
  {
  }

  lemma BareSet(es: seq<Value>, m: Mode)
    requires forall i :: 0 <= i < |es| ==> Hashable(es[i])
    requires forall i, j :: 0 <= i < j < |es| ==> es[i] != es[j]
    ensures Parse(VSet(es), TSet([]), m) == Ok(VSet(es))
  {
    assert [] + es == es;
    AddAllOfSet(es, []);
  }

  /** A value that is already an instance of a primitive, dataclass or enum target is returned unchanged. */
  lemma InstanceUnchanged(v: Value, t: PyType, m: Mode)
    requires t.TPrim? || t.TClass? || t.TEnum?
    requires Conforms(v, t)
    ensures Parse(v, t, m) == Ok(v)
  {
  }

  /** A dataclass target needs a dict (or an instance); anything else raises ValueError. */
  lemma ClassNeedsDict(v: Value, cd: ClassDef, m: Mode)
    requires !v.VDict? && !(v.VObject? && v.cls == cd.name)
    ensures Parse(v, TClass(cd), m).Err? && Parse(v, TClass(cd), m).error.ValueError?
  {
  }

  /** `int(str(n)) == n` through the parser: a printed integer parses back to itself. */
  lemma IntOfPrintedInt(n: int, m: Mode)
    ensures Parse(VStr(IntToString(n)), TPrim(PInt), m) == Ok(VInt(n))
  {
    ParseIntOfIntToString(n);
  }

  /** Every successful parse yields a value conforming to the target type. */
  lemma {:induction false} ParseConforms(v: Value, t: PyType, m: Mode)
    requires Parse(v, t, m).Ok?
    ensures Conforms(Parse(v, t, m).value, t)
    decreases t, 1
  {
    match t
    case TUnion(ms) => UnionConforms(v, t, m);
    case TList(args) => ListConforms(v, t, m);
    case TDict(args) => DictConforms(v, t, m);
    case TSet(args) => if |args| == 1 { SetConforms(v, t, m); } else { BareSetConforms(v, t, m); }
    case TTuple(args) => TupleConforms(v, t, m);
    case TClass(cd) => ClassConforms(v, t, m);
    case _ => AtomConforms(v, t, m);
  }

  lemma ClassConforms(v: Value, t: PyType, m: Mode)
    requires t.TClass? && Parse(v, t, m).Ok?
    ensures Conforms(Parse(v, t, m).value, t)
  {
    var cd := t.cd;
    if !(v.VObject? && v.cls == cd.name) {
      var kw := ConvertComponents(cd.hook, v.entries).value;
      PostInitShape(t, InitialValues(kw, cd.fields), 0, m);
    }
  }

  lemma AtomConforms(v: Value, t: PyType, m: Mode)
    requires t.TNoneType? || t.TPrim? || t.TEnum? || t.TAny? || t.TLiteral?
    requires Parse(v, t, m).Ok?
    ensures Conforms(Parse(v, t, m).value, t)
  {
    match t
    case TPrim(k) => PrimConforms(v, k, m);
    case TNoneType => NoneConforms(v, m);
    case TEnum(n, ms) => EnumConforms(v, n, ms, m);
    case TAny =>
    case TLiteral(opts) => LiteralConforms(v, opts, m);
  }

  lemma NoneConforms(v: Value, m: Mode)
    requires Parse(v, TNoneType, m).Ok?
    ensures Parse(v, TNoneType, m).value == VNone
  {
  }

  lemma EnumConforms(v: Value, n: string, ms: seq<string>, m: Mode)
    requires Parse(v, TEnum(n, ms), m).Ok?
    ensures Parse(v, TEnum(n, ms), m).value.VEnum? && Parse(v, TEnum(n, ms), m).value.enumName == n
  {
    assert Parse(v, TEnum(n, ms), m) == Ok(v);
  }

  lemma LiteralConforms(v: Value, opts: seq<Value>, m: Mode)
    requires Parse(v, TLiteral(opts), m).Ok?
    ensures Parse(v, TLiteral(opts), m).value in opts
  {
    assert Parse(v, TLiteral(opts), m) == Ok(v);
  }

  /** A primitive target yields an instance of that primitive, by `isinstance` or by coercion. */
  lemma PrimConforms(v: Value, k: PrimKind, m: Mode)
    requires Parse(v, TPrim(k), m).Ok?
    ensures IsInstancePrim(Parse(v, TPrim(k), m).value, k)
  {
    if !IsInstancePrim(v, k) {
      assert Parse(v, TPrim(k), m) == Coerce(v, k);
    }
  }

  lemma {:induction false} UnionConforms(v: Value, t: PyType, m: Mode)
    requires t.TUnion? && Parse(v, t, m).Ok?
    ensures Conforms(Parse(v, t, m).value, t)
    decreases t, 0
  {
    var ms := t.members;
    if |ms| > 0 && v != VNone {
      var i := UnionSomeMember(v, ms, m);
      ParseConforms(v, ms[i], m);
      assert Conforms(Parse(v, t, m).value, ms[i]);
    } else if |ms| > 0 {
      UnionNoneConforms(ms, m);
    }
  }

  /** None parses under an optional union as None, which its None member admits. */
  lemma UnionNoneConforms(ms: seq<PyType>, m: Mode)
    requires |ms| > 0 && Parse(VNone, TUnion(ms), m).Ok?
    ensures Conforms(Parse(VNone, TUnion(ms), m).value, TUnion(ms))
  {
    assert TNoneType in ms;
    var i :| 0 <= i < |ms| && ms[i] == TNoneType;
    assert Parse(VNone, TUnion(ms), m).value == VNone;
    assert Conforms(VNone, ms[i]);
  }

  lemma {:induction false} ListConforms(v: Value, t: PyType, m: Mode)
    requires t.TList? && Parse(v, t, m).Ok?
    ensures Conforms(Parse(v, t, m).value, t)
    decreases t, 0
  {
    var args := t.args;
    if |args| == 1 {
      assert t == TList([args[0]]);
      var r := Parse(v, t, m).value;
      ContainerKindMismatch(v, args[0], args[0], m);
      ListTarget(v, args[0], m);
      forall i | 0 <= i < |r.elems| ensures Conforms(r.elems[i], args[0]) {
        ParseConforms(v.elems[i], args[0], m);
      }
    }
  }

  lemma {:induction false} DictConforms(v: Value, t: PyType, m: Mode)
    requires t.TDict? && Parse(v, t, m).Ok?
    ensures Conforms(Parse(v, t, m).value, t)
    decreases t, 0
  {
    var args := t.args;
    if |args| == 2 {
      assert t == TDict([args[0], args[1]]);
      var r := Parse(v, t, m).value;
      ContainerKindMismatch(v, args[0], args[1], m);
      DictTarget(v, args[0], args[1], m);
      forall i | 0 <= i < |r.entries| ensures Conforms(r.entries[i].1, args[1]) {
        ParseConforms(v.entries[i].1, args[1], m);
      }
    }
  }

  lemma BareSetConforms(v: Value, t: PyType, m: Mode)
    requires t.TSet? && |t.args| != 1 && Parse(v, t, m).Ok?
    ensures Conforms(Parse(v, t, m).value, t)
  {
    var es := v.elems;
    var r := Parse(v, t, m).value;
    var rs: seq<Outcome> := seq(|es|, i requires 0 <= i < |es| => Ok(es[i]));
    assert Parse(v, t, m) == Wrap(AddAll(rs, []), xs => VSet(xs));
    AddAllMembers(rs, []);
    forall i | 0 <= i < |r.elems| ensures Hashable(r.elems[i]) {
      assert r.elems[i] in r.elems;
    }
  }

  lemma {:induction false} SetConforms(v: Value, t: PyType, m: Mode)
    requires t.TSet? && |t.args| == 1 && Parse(v, t, m).Ok?
    ensures Conforms(Parse(v, t, m).value, t)
    decreases t, 0
  {
    var args := t.args;
    var es := v.elems;
    var r := Parse(v, t, m).value;
    var rs := seq(|es|, i requires 0 <= i < |es| => Parse(es[i], args[0], m));
    assert Parse(v, t, m) == Wrap(AddAll(rs, []), xs => VSet(xs));
    AddAllMembers(rs, []);
    forall i | 0 <= i < |r.elems| ensures Hashable(r.elems[i]) && Conforms(r.elems[i], args[0]) {
      var x := r.elems[i];
      assert x in r.elems;
      var j :| 0 <= j < |rs| && rs[j] == Ok(x) && Hashable(x);
      ParseConforms(es[j], args[0], m);
    }
  }

  lemma {:induction false} TupleConforms(v: Value, t: PyType, m: Mode)
    requires t.TTuple? && Parse(v, t, m).Ok?
    ensures Conforms(Parse(v, t, m).value, t)
    decreases t, 0
  {
    var args := t.args;
    if |args| > 0 {
      var r := Parse(v, t, m).value;
      TupleTarget(v, args, m);
      forall i | 0 <= i < |args| ensures Conforms(r.elems[i], args[i]) {
        ParseConforms(v.elems[i], args[i], m);
      }
    }
  }

  /**
   * `__post_init__` result: an instance of the class whose every field, in
   * declaration order, conforms to its declared type.
   */
  lemma {:induction false} PostInitConforms(t: PyType, vals: seq<Value>, i: nat, m: Mode)
    requires t.TClass? && |vals| == |t.cd.fields| && i <= |vals|
    requires forall j :: 0 <= j < i ==> Conforms(vals[j], t.cd.fields[j].ftype)
    requires PostInitFrom(t, vals, i, m).Ok?
    ensures var r := PostInitFrom(t, vals, i, m).value;
            r.VObject? && r.cls == t.cd.name && |r.fields| == |t.cd.fields| &&
            forall j :: 0 <= j < |t.cd.fields| ==>
              r.fields[j].0 == t.cd.fields[j].name && Conforms(r.fields[j].1, t.cd.fields[j].ftype)
    decreases |vals| - i
  {
    if i < |vals| {
      var x := Parse(vals[i], t.cd.fields[i].ftype, m).value;
      ParseConforms(vals[i], t.cd.fields[i].ftype, m);
      PostInitConforms(t, vals[i := x], i + 1, m);
    }
  }

  /** `FieldIndex` finds the first field with the name. */
  lemma {:induction false} FieldIndexOf(fs: seq<FieldDef>, name: string, j: nat)
    requires j < |fs| && fs[j].name == name
    requires forall k :: 0 <= k < j ==> fs[k].name != name
    ensures FieldIndex(fs, name) == Some(j)
  {
    if j > 0 {
      FieldIndexOf(fs[1..], name, j - 1);
    }
  }

  /**
   * Every ValueError escaping `__post_init__` names the class and the field
   * whose parse failed (deserializabledataclass.py:36-39).
   */
  lemma {:induction false} PostInitValueErrorsNamed(t: PyType, vals: seq<Value>, i: nat, m: Mode)
    requires t.TClass? && |vals| == |t.cd.fields| && i <= |vals|
    requires PostInitFrom(t, vals, i, m).Err? && PostInitFrom(t, vals, i, m).error.ValueError?
    ensures exists j :: i <= j < |t.cd.fields| &&
              StartsWith(PostInitFrom(t, vals, i, m).error.msg, "Error parsing " + t.cd.name + "." + t.cd.fields[j].name + " :: ValueError('")
    decreases |vals| - i
  {
    var cd := t.cd;
    if i < |vals| {
      match Parse(vals[i], cd.fields[i].ftype, m)
      case Ok(x) => PostInitValueErrorsNamed(t, vals[i := x], i + 1, m);
      case Err(e) =>
        var p := "Error parsing " + cd.name + "." + cd.fields[i].name + " :: ValueError('";
        assert e.ValueError?;
        assert PostInitFrom(t, vals, i, m).error.msg == p + e.msg + "')";
        assert StartsWith(PostInitFrom(t, vals, i, m).error.msg, p);
    }
  }

  /**
   * For a class with the dataset hook and a `dataset` field, every TypeError
   * escaping `__post_init__` comes from some field `j` failing to parse, and
   * its message names the class and the value `dataset` holds at that moment
   * (`w`, the instance's values when field `j` is reached), followed by the
   * field's own message (config.py:296-302).
   */
  lemma {:induction false} PostInitTypeErrorsNamed(t: PyType, vals: seq<Value>, i: nat, m: Mode)
    requires t.TClass? && |vals| == |t.cd.fields| && i <= |vals|
    requires t.cd.hook.DatasetConfigHook? && FieldIndex(t.cd.fields, "dataset").Some?
    requires PostInitFrom(t, vals, i, m).Err? && PostInitFrom(t, vals, i, m).error.TypeError?
    ensures exists j: nat, w: seq<Value> {:trigger PostInitFrom(t, w, j, m)} ::
              i <= j < |vals| && |w| == |vals| && w[j..] == vals[j..] &&
              PostInitFrom(t, w, j, m) == PostInitFrom(t, vals, i, m) &&
              Parse(w[j], t.cd.fields[j].ftype, m).Err? && Parse(w[j], t.cd.fields[j].ftype, m).error.TypeError? &&
              PostInitFrom(t, vals, i, m).error.msg ==
                "Could not instantiate " + t.cd.name + " for " + Repr(w[FieldIndex(t.cd.fields, "dataset").value]) + ": " +
                Parse(w[j], t.cd.fields[j].ftype, m).error.msg
    decreases |vals| - i
  {
    var cd := t.cd;
    if i < |vals| {
      match Parse(vals[i], cd.fields[i].ftype, m)
      case Ok(x) =>
        PostInitTypeErrorsNamed(t, vals[i := x], i + 1, m);
        var j: nat, w: seq<Value> :| i + 1 <= j < |vals| && |w| == |vals| && w[j..] == vals[i := x][j..] &&
              PostInitFrom(t, w, j, m) == PostInitFrom(t, vals[i := x], i + 1, m) &&
              Parse(w[j], t.cd.fields[j].ftype, m).Err? && Parse(w[j], t.cd.fields[j].ftype, m).error.TypeError? &&
              PostInitFrom(t, vals[i := x], i + 1, m).error.msg ==
                "Could not instantiate " + t.cd.name + " for " + Repr(w[FieldIndex(t.cd.fields, "dataset").value]) + ": " +
                Parse(w[j], t.cd.fields[j].ftype, m).error.msg;
        assert vals[i := x][j..] == vals[j..];
      case Err(e) =>
        assert e.TypeError?;
    }
  }

  // ---------------------------------------------------------------------
  // The unit tests of test/test_parse_values.py as lemmas

  lemma ParseIntExamples()
    ensures ParseInt("1") == Some(1)
    ensures ParseInt("hello") == None
  {
    assert LStripBy("1", IsIntSpace) == "1" && RStripBy("1", IsIntSpace) == "1";
    assert RemoveUnderscores("1") == "1";
    assert "1"[..0] == "";
    assert DigitsValue("1") == 1;
    assert LStripBy("hello", IsIntSpace) == "hello" && RStripBy("hello", IsIntSpace) == "hello";
  }

  /** `int | str` turns '1' into 1 and keeps 'hello' as 'hello' (test_parse_str_or_int). */
  lemma IntOrStrExamples(m: Mode)
    ensures Parse(VStr("1"), TUnion([TPrim(PInt), TPrim(PStr)]), m) == Ok(VInt(1))
    ensures Parse(VStr("hello"), TUnion([TPrim(PInt), TPrim(PStr)]), m) == Ok(VStr("hello"))
  {
    IntOrStrOne(m);
    IntOrStrHello(m);
  }

  lemma IntOrStrOne(m: Mode)
    ensures Parse(VStr("1"), TUnion([TPrim(PInt), TPrim(PStr)]), m) == Ok(VInt(1))
  {
    ParseIntExamples();
    assert Parse(VStr("1"), TPrim(PInt), m) == Ok(VInt(1));
    UnionFirstMember(VStr("1"), [TPrim(PInt), TPrim(PStr)], m, 0);
  }

  lemma IntOrStrHello(m: Mode)
    ensures Parse(VStr("hello"), TUnion([TPrim(PInt), TPrim(PStr)]), m) == Ok(VStr("hello"))
  {
    IntFailureExample(m);
    UnionFirstMember(VStr("hello"), [TPrim(PInt), TPrim(PStr)], m, 1);
  }

  lemma IntFailureExample(m: Mode)
    ensures Parse(VStr("hello"), TPrim(PInt), m).Err? && Parse(VStr("hello"), TPrim(PInt), m).error.ValueError?
  {
    ParseIntExamples();
  }

  lemma ContainerFailureExamples(m: Mode)
    ensures Parse(VList([VStr("hello")]), TList([TPrim(PInt)]), m).Err? && Parse(VList([VStr("hello")]), TList([TPrim(PInt)]), m).error.ValueError?
    ensures Parse(VDict([("hello", VStr("hello"))]), TDict([TPrim(PStr), TPrim(PInt)]), m).Err? && Parse(VDict([("hello", VStr("hello"))]), TDict([TPrim(PStr), TPrim(PInt)]), m).error.ValueError?
    ensures Parse(VTuple([VStr("hello"), VStr("world")]), TTuple([TPrim(PStr), TPrim(PStr), TPrim(PStr)]), m).Err? && Parse(VTuple([VStr("hello"), VStr("world")]), TTuple([TPrim(PStr), TPrim(PStr), TPrim(PStr)]), m).error.ValueError?
  {
    ListFailureExample(m);
    DictFailureExample(m);
    TupleFailureExample(m);
  }

  lemma ListFailureExample(m: Mode)
    ensures Parse(VList([VStr("hello")]), TList([TPrim(PInt)]), m).Err? && Parse(VList([VStr("hello")]), TList([TPrim(PInt)]), m).error.ValueError?
  {
    IntFailureExample(m);
    ListTarget(VList([VStr("hello")]), TPrim(PInt), m);
  }

  lemma DictFailureExample(m: Mode)
    ensures Parse(VDict([("hello", VStr("hello"))]), TDict([TPrim(PStr), TPrim(PInt)]), m).Err? && Parse(VDict([("hello", VStr("hello"))]), TDict([TPrim(PStr), TPrim(PInt)]), m).error.ValueError?
  {
    IntFailureExample(m);
    DictTarget(VDict([("hello", VStr("hello"))]), TPrim(PStr), TPrim(PInt), m);
  }

  lemma TupleFailureExample(m: Mode)
    ensures Parse(VTuple([VStr("hello"), VStr("world")]), TTuple([TPrim(PStr), TPrim(PStr), TPrim(PStr)]), m).Err? && Parse(VTuple([VStr("hello"), VStr("world")]), TTuple([TPrim(PStr), TPrim(PStr), TPrim(PStr)]), m).error.ValueError?
  {
  }

  /** The intended semantics of `Any` and `Literal` that the unit tests expect. */
  lemma SpecialFormsIntended(v: Value, opts: seq<Value>)
    ensures Parse(v, TAny, Intended) == Ok(v)
    ensures Parse(v, TLiteral(opts), Intended).Ok? <==> v in opts
    ensures Parse(v, TLiteral(opts), Intended).Ok? ==> Parse(v, TLiteral(opts), Intended).value == v
    ensures Parse(v, TLiteral(opts), Intended).Err? ==> Parse(v, TLiteral(opts), Intended).error.ValueError?
  {
  }

  /**
   * As written, `isinstance(value, dtype)` raises TypeError for `Any` and for
   * `Literal[...]`, so `try_parse_value_as_type('hi', Literal['hi'])` and
   * `try_parse_value_as_type(1, Any)` fail, against test_subscripted and test_any_pass.
   */
  lemma SpecialFormsAsWritten(v: Value, opts: seq<Value>)
    ensures Parse(v, TAny, AsWritten).Err? && Parse(v, TAny, AsWritten).error.TypeError?
    ensures Parse(v, TLiteral(opts), AsWritten).Err? && Parse(v, TLiteral(opts), AsWritten).error.TypeError?
    ensures Parse(VStr("hi"), TLiteral([VStr("hi")]), AsWritten) != Parse(VStr("hi"), TLiteral([VStr("hi")]), Intended)
  {
    ParseAny(v, AsWritten);
    ParseLiteral(v, opts, AsWritten);
    ParseLiteral(VStr("hi"), [VStr("hi")], AsWritten);
    ParseLiteral(VStr("hi"), [VStr("hi")], Intended);
  }

  lemma ParseAny(v: Value, m: Mode)
    ensures m == AsWritten ==> Parse(v, TAny, m) == Err(TypeError("typing.Any cannot be used with isinstance()"))
    ensures m == Intended ==> Parse(v, TAny, m) == Ok(v)
  {
  }

  lemma ParseLiteral(v: Value, opts: seq<Value>, m: Mode)
    ensures m == AsWritten ==> Parse(v, TLiteral(opts), m).Err? && Parse(v, TLiteral(opts), m).error.TypeError?
    ensures m == Intended && v in opts ==> Parse(v, TLiteral(opts), m) == Ok(v)
  {
  }
}
