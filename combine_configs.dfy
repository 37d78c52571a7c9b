// Flattening every dataset stack's Pulumi configuration into one
// production configuration keyed by dataset.
module CombineConfigs {
  import opened Wrappers
  import opened Strings

  /** A value of a parsed YAML (or JSON) document. */
  datatype Yaml =
    | YNull
    | YBool(b: bool)
    | YInt(i: int)
    | YStr(s: string)
    | YList(items: seq<Yaml>)
    | YMap(entries: map<string, Yaml>)

  /** Python truthiness of a parsed value. */
  predicate Truthy(v: Yaml)
  {
    match v
    case YNull => false
    case YBool(b) => b
    case YInt(i) => i != 0
    case YStr(s) => |s| > 0
    case YList(items) => |items| > 0
    case YMap(entries) => |entries| > 0
  }

  datatype CombineError =
    | KeyError(key: string)
    | TypeError(message: string)
    | AttributeError(message: string)
    | ValueError(message: string)
    | JsonDecodeError(text: string)

  const KeysToIgnore: set<string> := {"datasets:customer_id", "gcp:user_project_override", "gcp:billing_project"}

  const GcpHailKeys: seq<(string, string)> :=
    [("gcp_hail_service_account_full", "hail_service_account_full"),
     ("gcp_hail_service_account_standard", "hail_service_account_standard"),
     ("gcp_hail_service_account_test", "hail_service_account_test")]

  const AzureHailKeys: seq<(string, string)> :=
    [("azure_hail_service_account_full", "hail_service_account_full"),
     ("azure_hail_service_account_standard", "hail_service_account_standard"),
     ("azure_hail_service_account_test", "hail_service_account_test")]

  // ---------------------------------------------------------------------
  // Keys kept and renamed

  /** The 'datasets:' keys outside the ignore set, without their prefix. */
  function DatasetKeys(pc: map<string, Yaml>): (r: map<string, Yaml>)
    ensures forall s :: s in r <==> "datasets:" + s in pc && "datasets:" + s !in KeysToIgnore
    ensures forall s :: s in r ==> r[s] == pc["datasets:" + s]
  {
    map s | s in PrefixedSuffixes(pc, "datasets:") && "datasets:" + s !in KeysToIgnore :: pc["datasets:" + s]
  }

  /** The 'gcp:' keys outside the ignore set, without their prefix. */
  function GcpKeys(pc: map<string, Yaml>): (r: map<string, Yaml>)
    ensures forall s :: s in r <==> "gcp:" + s in pc && "gcp:" + s !in KeysToIgnore
    ensures forall s :: s in r ==> r[s] == pc["gcp:" + s]
  {
    map s | s in PrefixedSuffixes(pc, "gcp:") && "gcp:" + s !in KeysToIgnore :: pc["gcp:" + s]
  }

  /** The suffixes after `prefix` of the keys that start with it. */
  function PrefixedSuffixes(pc: map<string, Yaml>, prefix: string): (r: set<string>)
    ensures forall s :: s in r <==> prefix + s in pc
  {
    assert forall s :: prefix + s in pc ==> (prefix + s)[|prefix|..] == s;
    assert forall k :: k in pc && StartsWith(k, prefix) ==> prefix + k[|prefix|..] == k;
    set k | k in pc && StartsWith(k, prefix) :: k[|prefix|..]
  }

  /** The stack's keys before the service accounts move: dataset keys, and the gcp keys under 'gcp'. */
  function BaseConfig(pc: map<string, Yaml>): (r: map<string, Yaml>)
    ensures "gcp" in r && r["gcp"] == YMap(GcpKeys(pc))
    ensures forall s :: s != "gcp" ==> (s in r <==> s in DatasetKeys(pc))
  {
    DatasetKeys(pc)["gcp" := YMap(GcpKeys(pc))]
  }

  /**
   * `config[target][new] = config.pop(oldKey)` when `old` is present; a
   * missing `target` starts as an empty map, a `target` that is not a map
   * cannot take the item.
   */
  function MoveKey(config: map<string, Yaml>, oldKey: string, newKey: string, target: string): (r: Result<map<string, Yaml>, CombineError>)
    requires oldKey != target
    ensures oldKey !in config ==> r == Ok(config)
    ensures r.Err? <==> oldKey in config && target in config && !config[target].YMap?
    ensures r.Ok? && oldKey in config ==>
              oldKey !in r.value && target in r.value && r.value[target].YMap? &&
              r.value[target].entries == (if target in config then config[target].entries else map[])[newKey := config[oldKey]] &&
              forall k :: k != oldKey && k != target ==> (k in r.value <==> k in config) && (k in config ==> r.value[k] == config[k])
  {
    if oldKey !in config then Ok(config)
    else
      var v := config[oldKey];
      var rest := config - {oldKey};
      var sub := if target in rest then rest[target] else YMap(map[]);
      if !sub.YMap? then Err(TypeError("'" + target + "' does not support item assignment"))
      else Ok(rest[target := YMap(sub.entries[newKey := v])])
  }

  /** Every pair moved in turn. */
  function MoveKeys(config: map<string, Yaml>, pairs: seq<(string, string)>, target: string): Result<map<string, Yaml>, CombineError>
    requires forall i :: 0 <= i < |pairs| ==> pairs[i].0 != target
    decreases |pairs|
  {
    if |pairs| == 0 then Ok(config)
    else
      match MoveKey(config, pairs[0].0, pairs[0].1, target)
      case Err(e) => Err(e)
      case Ok(c) => MoveKeys(c, pairs[1..], target)
  }

  /** After the moves none of the moved keys is left at the top level, and no other key disappears. */
  lemma {:induction false} MoveKeysRemoves(config: map<string, Yaml>, pairs: seq<(string, string)>, target: string)
    requires forall i :: 0 <= i < |pairs| ==> pairs[i].0 != target
    requires MoveKeys(config, pairs, target).Ok?
    ensures forall i :: 0 <= i < |pairs| ==> pairs[i].0 !in MoveKeys(config, pairs, target).value
    ensures forall k :: k in config && k != target && (forall i :: 0 <= i < |pairs| ==> pairs[i].0 != k) ==>
              k in MoveKeys(config, pairs, target).value && MoveKeys(config, pairs, target).value[k] == config[k]
    ensures forall k :: k in MoveKeys(config, pairs, target).value && k != target ==> k in config
    ensures target in config ==> target in MoveKeys(config, pairs, target).value
    decreases |pairs|
  {
    if |pairs| > 0 {
      var c := MoveKey(config, pairs[0].0, pairs[0].1, target).value;
      MoveKeysRemoves(c, pairs[1..], target);
      var r := MoveKeys(config, pairs, target).value;
      assert r == MoveKeys(c, pairs[1..], target).value;
      forall i | 0 <= i < |pairs|
        ensures pairs[i].0 !in r
      {
        if i > 0 {
          assert pairs[1..][i - 1] == pairs[i];
        } else {
          assert pairs[0].0 !in c;
        }
      }
      forall k | k in config && k != target && (forall i :: 0 <= i < |pairs| ==> pairs[i].0 != k)
        ensures k in r && r[k] == config[k]
      {
        assert pairs[0].0 != k;
        assert forall i :: 0 <= i < |pairs[1..]| ==> pairs[1..][i] == pairs[i + 1];
      }
    }
  }

  /** The moved service-account key lands in `target` under its new name. */
  lemma MoveKeyLands(config: map<string, Yaml>, oldKey: string, newKey: string, target: string)
    requires oldKey != target && oldKey in config && MoveKey(config, oldKey, newKey, target).Ok?
    ensures var r := MoveKey(config, oldKey, newKey, target).value;
            newKey in r[target].entries && r[target].entries[newKey] == config[oldKey]
  {
  }

  // ---------------------------------------------------------------------
  // Special values

  /** A truthy `enable_release` that is not a bool is read as JSON. */
  function FixEnableRelease(config: map<string, Yaml>, loads: string -> Option<Yaml>): (r: Result<map<string, Yaml>, CombineError>)
    ensures ("enable_release" !in config || !Truthy(config["enable_release"]) || config["enable_release"].YBool?) ==>
              r == Ok(config)
    ensures r.Ok? ==> r.value.Keys == config.Keys && forall k :: k in config && k != "enable_release" ==> r.value[k] == config[k]
    ensures r.Ok? && "enable_release" in config && Truthy(config["enable_release"]) && !config["enable_release"].YBool? ==>
              config["enable_release"].YStr? && loads(config["enable_release"].s) == Some(r.value["enable_release"])
  {
    if "enable_release" !in config then Ok(config)
    else
      var v := config["enable_release"];
      if !Truthy(v) || v.YBool? then Ok(config)
      else if !v.YStr? then Err(TypeError("the JSON object must be str"))
      else
        match loads(v.s)
        case None => Err(JsonDecodeError(v.s))
        case Some(x) => Ok(config["enable_release" := x])
  }

  /** A truthy `archive_age` that is not an int (a bool counts as one) is cast with `int`. */
  function FixArchiveAge(config: map<string, Yaml>): (r: Result<map<string, Yaml>, CombineError>)
    ensures ("archive_age" !in config || !Truthy(config["archive_age"]) ||
             config["archive_age"].YInt? || config["archive_age"].YBool?) ==> r == Ok(config)
    ensures r.Ok? ==> r.value.Keys == config.Keys && forall k :: k in config && k != "archive_age" ==> r.value[k] == config[k]
    ensures r.Ok? && "archive_age" in config && config["archive_age"].YStr? && Truthy(config["archive_age"]) ==>
              ParseInt(config["archive_age"].s).Some? && r.value["archive_age"] == YInt(ParseInt(config["archive_age"].s).value)
  {
    if "archive_age" !in config then Ok(config)
    else
      var v := config["archive_age"];
      if !Truthy(v) || v.YInt? || v.YBool? then Ok(config)
      else if !v.YStr? then Err(TypeError("int() argument must be a string or a number"))
      else
        match ParseInt(v.s)
        case None => Err(ValueError("invalid literal for int() with base 10: '" + v.s + "'"))
        case Some(n) => Ok(config["archive_age" := YInt(n)])
  }

  // ---------------------------------------------------------------------
  // `list(sorted(json.loads(depends_on)))`

  /** A JSON number as Python compares it; a boolean counts as 0 or 1. */
  predicate IsNumber(v: Yaml)
  {
    v.YInt? || v.YBool?
  }

  function NumberValue(v: Yaml): int
  {
    match v
    case YInt(i) => i
    case YBool(b) => if b then 1 else 0
    case _ => 0
  }

  /**
   * Python's order between two values `sorted` compares: strings by code
   * points, numbers by value. Sortable says which lists only ever compare
   * such pairs.
   */
  predicate YamlLessEq(a: Yaml, b: Yaml)
  {
    if a.YStr? && b.YStr? then StrLessEq(a.s, b.s) else NumberValue(a) <= NumberValue(b)
  }

  lemma YamlLessEqTotal(a: Yaml, b: Yaml)
    ensures YamlLessEq(a, b) || YamlLessEq(b, a)
  {
    if a.YStr? && b.YStr? {
      StrLessEqTotal(a.s, b.s);
    }
  }

  predicate SortedYaml(s: seq<Yaml>)
  {
    forall i :: 0 < i < |s| ==> YamlLessEq(s[i - 1], s[i])
  }

  /** Inserting `x` before the first item it does not exceed. */
  function InsertYaml(x: Yaml, s: seq<Yaml>): (r: seq<Yaml>)
    requires SortedYaml(s)
    ensures SortedYaml(r) && multiset(r) == multiset(s) + multiset{x}
    ensures |r| > 0 && (r[0] == x || (|s| > 0 && r[0] == s[0]))
    decreases |s|
  {
    if |s| == 0 then [x]
    else if YamlLessEq(x, s[0]) then [x] + s
    else
      YamlLessEqTotal(x, s[0]);
      var t := InsertYaml(x, s[1..]);
      assert s == [s[0]] + s[1..];
      [s[0]] + t
  }

  /** `sorted` of a list: a stable insertion sort, so equal items keep their order. */
  function SortYaml(s: seq<Yaml>): (r: seq<Yaml>)
    ensures SortedYaml(r) && multiset(r) == multiset(s)
    decreases |s|
  {
    if |s| == 0 then []
    else
      assert s == [s[0]] + s[1..];
      InsertYaml(s[0], SortYaml(s[1..]))
  }

  /** `k` comes first in string order among `keys`. */
  predicate IsLeast(k: string, keys: set<string>)
  {
    forall j :: j in keys ==> StrLessEq(k, j)
  }

  /** A non-empty set of strings has a least element. */
  lemma LeastKeyExists(keys: set<string>)
    requires keys != {}
    ensures exists k :: k in keys && IsLeast(k, keys)
    decreases |keys|
  {
    var x :| x in keys;
    StrLessEqTotal(x, x);
    if keys == {x} {
      assert IsLeast(x, keys);
    } else {
      var rest := keys - {x};
      LeastKeyExists(rest);
      var m :| m in rest && IsLeast(m, rest);
      StrLessEqTotal(x, m);
      if StrLessEq(x, m) {
        forall j | j in keys ensures StrLessEq(x, j) {
          if j != x {
            StrLessEqTransitive(x, m, j);
          }
        }
        assert IsLeast(x, keys);
      } else {
        forall j | j in keys ensures StrLessEq(m, j) {
          if j != x {
            assert j in rest;
          }
        }
        assert IsLeast(m, keys);
      }
    }
  }

  /** The keys of a JSON object in string order, as JSON strings: what `sorted` gives for an object. */
  function KeyItems(keys: set<string>): (r: seq<Yaml>)
    ensures |r| == |keys|
    ensures forall i :: 0 <= i < |r| ==> r[i].YStr? && r[i].s in keys
    ensures forall k :: k in keys ==> YStr(k) in r
    ensures forall i :: 0 < i < |r| ==> StrLessEq(r[i - 1].s, r[i].s)
    decreases |keys|
  {
    if keys == {} then []
    else
      LeastKeyExists(keys);
      LeastKeyUnique(keys);
      var k :| k in keys && IsLeast(k, keys);
      var rest := KeyItems(keys - {k});
      KeyItemsCons(k, keys, rest);
      [YStr(k)] + rest
  }

  lemma LeastKeyUnique(keys: set<string>)
    ensures forall a, b :: a in keys && IsLeast(a, keys) && b in keys && IsLeast(b, keys) ==> a == b
  {
    forall a, b | a in keys && IsLeast(a, keys) && b in keys && IsLeast(b, keys) ensures a == b {
      StrLessEqAntisymmetric(a, b);
    }
  }

  /** Putting the least key in front of the ordered others orders them all. */
  lemma KeyItemsCons(k: string, keys: set<string>, rest: seq<Yaml>)
    requires k in keys && IsLeast(k, keys)
    requires |rest| == |keys - {k}|
    requires forall i :: 0 <= i < |rest| ==> rest[i].YStr? && rest[i].s in keys - {k}
    requires forall j :: j in keys - {k} ==> YStr(j) in rest
    requires forall i :: 0 < i < |rest| ==> StrLessEq(rest[i - 1].s, rest[i].s)
    ensures var r := [YStr(k)] + rest;
            |r| == |keys| &&
            (forall i :: 0 <= i < |r| ==> r[i].YStr? && r[i].s in keys) &&
            (forall j :: j in keys ==> YStr(j) in r) &&
            (forall i :: 0 < i < |r| ==> StrLessEq(r[i - 1].s, r[i].s))
  {
    var r := [YStr(k)] + rest;
    forall i | 0 < i < |r| ensures StrLessEq(r[i - 1].s, r[i].s) {
      if i == 1 {
        assert r[1] == rest[0];
      } else {
        assert r[i - 1] == rest[i - 2] && r[i] == rest[i - 1];
      }
    }
    forall j | j in keys ensures YStr(j) in r {
      if j != k {
        assert YStr(j) in rest;
      }
    }
  }

  /** A string's characters, each a string of one character. */
  function Characters(s: string): (r: seq<Yaml>)
    ensures |r| == |s| && forall i :: 0 <= i < |s| ==> r[i] == YStr([s[i]])
  {
    seq(|s|, i requires 0 <= i < |s| => YStr([s[i]]))
  }

  /**
   * What `sorted` iterates over in a decoded JSON value: a list's items, an
   * object's keys, a string's characters; nothing for a number, a boolean
   * or null, on which `sorted` raises TypeError.
   */
  function Iterated(v: Yaml): (r: Option<seq<Yaml>>)
    ensures r.None? <==> v.YNull? || v.YBool? || v.YInt?
    ensures v.YList? ==> r == Some(v.items)
    ensures v.YStr? ==> r == Some(Characters(v.s))
    ensures v.YMap? ==> r == Some(KeyItems(v.entries.Keys))
  {
    match v
    case YList(items) => Some(items)
    case YStr(s) => Some(Characters(s))
    case YMap(entries) => Some(KeyItems(entries.Keys))
    case _ => None
  }

  /**
   * The items `sorted` orders without raising: at most one item (nothing is
   * compared), all strings, or all numbers. Otherwise two neighbours of the
   * sorted result are a null, an object, or a string and a number, and
   * Python raises TypeError comparing them; lists of lists are the
   * exception (see the README).
   */
  predicate Sortable(items: seq<Yaml>)
  {
    |items| <= 1 || (forall i :: 0 <= i < |items| ==> items[i].YStr?) || (forall i :: 0 <= i < |items| ==> IsNumber(items[i]))
  }

  /**
   * A truthy `depends_on` is decoded as JSON and replaced by the list
   * `sorted` makes of it.
   */
  function FixDependsOn(config: map<string, Yaml>, loads: string -> Option<Yaml>): (r: Result<map<string, Yaml>, CombineError>)
    ensures ("depends_on" !in config || !Truthy(config["depends_on"])) ==> r == Ok(config)
    ensures r.Ok? ==> r.value.Keys == config.Keys && forall k :: k in config && k != "depends_on" ==> r.value[k] == config[k]
    ensures "depends_on" in config && Truthy(config["depends_on"]) && !config["depends_on"].YStr? ==> r.Err? && r.error.TypeError?
    ensures "depends_on" in config && Truthy(config["depends_on"]) && config["depends_on"].YStr? ==>
              var text := config["depends_on"].s;
              (loads(text).None? ==> r == Err(JsonDecodeError(text))) &&
              (loads(text).Some? && Iterated(loads(text).value).None? ==> r.Err? && r.error.TypeError?) &&
              (loads(text).Some? && Iterated(loads(text).value).Some? ==>
                 var items := Iterated(loads(text).value).value;
                 (r.Ok? <==> Sortable(items)) && (r.Err? ==> r.error.TypeError?) &&
                 (r.Ok? ==> r.value["depends_on"].YList? && SortedYaml(r.value["depends_on"].items) &&
                            multiset(r.value["depends_on"].items) == multiset(items)))
  {
    if "depends_on" !in config || !Truthy(config["depends_on"]) then Ok(config)
    else
      var v := config["depends_on"];
      if !v.YStr? then Err(TypeError("the JSON object must be str"))
      else
        match loads(v.s)
        case None => Err(JsonDecodeError(v.s))
        case Some(x) =>
          match Iterated(x)
          case None => Err(TypeError("object is not iterable"))
          case Some(items) =>
            if !Sortable(items) then Err(TypeError("'<' not supported between these instances"))
            else Ok(config["depends_on" := YList(SortYaml(items))])
  }

  /** A `depends_on` list of stack names comes back as the same names in string order. */
  lemma DependsOnSorted(config: map<string, Yaml>, loads: string -> Option<Yaml>)
    requires "depends_on" in config && Truthy(config["depends_on"]) && config["depends_on"].YStr?
    requires loads(config["depends_on"].s).Some? && loads(config["depends_on"].s).value.YList?
    requires forall i :: 0 <= i < |loads(config["depends_on"].s).value.items| ==> loads(config["depends_on"].s).value.items[i].YStr?
    ensures FixDependsOn(config, loads).Ok?
    ensures var items := FixDependsOn(config, loads).value["depends_on"].items;
            var given := loads(config["depends_on"].s).value.items;
            (forall i :: 0 <= i < |items| ==> items[i].YStr?) &&
            (forall i :: 0 < i < |items| ==> StrLessEq(items[i - 1].s, items[i].s)) &&
            multiset(items) == multiset(given)
  {
    var items := FixDependsOn(config, loads).value["depends_on"].items;
    var given := loads(config["depends_on"].s).value.items;
    forall i | 0 <= i < |items| ensures items[i].YStr? {
      assert items[i] in multiset(given);
    }
  }

  /** `sorted` orders numbers by value: `sorted([3, 1, 2]) == [1, 2, 3]`. */
  lemma SortNumbersExample()
    ensures SortYaml([YInt(3), YInt(1), YInt(2)]) == [YInt(1), YInt(2), YInt(3)]
  {
    var two, one := [YInt(1), YInt(2)], [YInt(2)];
    assert two[1..] == one && SortYaml(one) == one;
    assert SortYaml(two) == InsertYaml(YInt(1), one) == two;
    assert [YInt(3), YInt(1), YInt(2)][1..] == two;
    assert InsertYaml(YInt(3), one) == [YInt(2), YInt(3)];
    assert InsertYaml(YInt(3), two) == [YInt(1)] + InsertYaml(YInt(3), one);
  }

  /** `sorted` of an object gives its keys: `sorted({"b": 1, "a": 2}) == ["a", "b"]`. */
  lemma SortKeysExample()
    ensures Iterated(YMap(map["b" := YInt(1), "a" := YInt(2)])) == Some([YStr("a"), YStr("b")])
  {
    var m := map["b" := YInt(1), "a" := YInt(2)];
    assert m.Keys == {"a", "b"};
    var r := KeyItems(m.Keys);
    assert |r| == 2;
    assert YStr("a") in r && YStr("b") in r;
    assert !StrLessEq("b", "a");
    assert r[0].s in m.Keys && r[1].s in m.Keys;
    assert r[0] != r[1];
    assert r[0].s != "b";
    assert r == [YStr("a"), YStr("b")];
  }

  /** `sorted` of a string gives its characters: `sorted("ba") == ["a", "b"]`; a number is not iterable. */
  lemma SortCharactersExample()
    ensures SortYaml(Characters("ba")) == [YStr("a"), YStr("b")]
    ensures Iterated(YInt(5)).None? && !Sortable([YInt(1), YStr("a")])
  {
    var mixed := [YInt(1), YStr("a")];
    assert !IsNumber(mixed[1]) && !mixed[0].YStr?;
    CharactersOfBa();
    SortBa();
  }

  /** The characters of "ba", in order. */
  lemma CharactersOfBa()
    ensures Characters("ba") == [YStr("b"), YStr("a")]
  {
    var c := Characters("ba");
    assert c[0] == YStr(["ba"[0]]) && ["ba"[0]] == "b";
    assert c[1] == YStr(["ba"[1]]) && ["ba"[1]] == "a";
  }

  /** Sorting ["b", "a"] moves "b" after "a". */
  lemma SortBa()
    ensures SortYaml([YStr("b"), YStr("a")]) == [YStr("a"), YStr("b")]
  {
    var a, b := YStr("a"), YStr("b");
    assert [b, a][1..] == [a];
    assert SortYaml([a]) == [a];
    assert !StrLessEq("b", "a");
    assert InsertYaml(b, [a]) == [a] + InsertYaml(b, []);
  }

  // ---------------------------------------------------------------------
  // One stack, and every stack

  /** No renamed key is the name of the map it moves to. */
  lemma HailKeysAvoidTargets()
    ensures forall i :: 0 <= i < |GcpHailKeys| ==> GcpHailKeys[i].0 != "gcp" && GcpHailKeys[i].0 != "azure"
    ensures forall i :: 0 <= i < |AzureHailKeys| ==> AzureHailKeys[i].0 != "azure" && AzureHailKeys[i].0 != "gcp"
  {
    assert |GcpHailKeys| == 3 && |AzureHailKeys| == 3;
    assert |GcpHailKeys[0].0| > 3 && |GcpHailKeys[1].0| > 3 && |GcpHailKeys[2].0| > 3;
    assert |AzureHailKeys[0].0| > 5 && |AzureHailKeys[1].0| > 5 && |AzureHailKeys[2].0| > 5;
  }

  /** The flattened configuration of one stack, before the special values. */
  function MovedConfig(pc: map<string, Yaml>): Result<map<string, Yaml>, CombineError>
  {
    HailKeysAvoidTargets();
    match MoveKeys(BaseConfig(pc), GcpHailKeys, "gcp")
    case Err(e) => Err(e)
    case Ok(c) => MoveKeys(c, AzureHailKeys, "azure")
  }

  /** The flattened configuration of one stack. */
  function StackConfig(pc: map<string, Yaml>, loads: string -> Option<Yaml>): Result<map<string, Yaml>, CombineError>
  {
    match MovedConfig(pc)
    case Err(e) => Err(e)
    case Ok(c) =>
      match FixEnableRelease(c, loads)
      case Err(e) => Err(e)
      case Ok(c1) =>
        match FixArchiveAge(c1)
        case Err(e) => Err(e)
        case Ok(c2) => FixDependsOn(c2, loads)
  }

  /** Two groups of moves leave none of their keys behind and keep the first target. */
  lemma {:induction false} TwoMoves(config: map<string, Yaml>, first: seq<(string, string)>, t1: string,
                                    second: seq<(string, string)>, t2: string)
    requires t1 in config && t1 != t2
    requires forall i :: 0 <= i < |first| ==> first[i].0 != t1 && first[i].0 != t2
    requires forall i :: 0 <= i < |second| ==> second[i].0 != t2 && second[i].0 != t1
    requires MoveKeys(config, first, t1).Ok? && MoveKeys(MoveKeys(config, first, t1).value, second, t2).Ok?
    ensures var m := MoveKeys(MoveKeys(config, first, t1).value, second, t2).value;
            t1 in m &&
            (forall i :: 0 <= i < |first| ==> first[i].0 !in m) &&
            (forall i :: 0 <= i < |second| ==> second[i].0 !in m)
  {
    var c := MoveKeys(config, first, t1).value;
    MoveKeysRemoves(config, first, t1);
    var m := MoveKeys(c, second, t2).value;
    MoveKeysRemoves(c, second, t2);
    forall i | 0 <= i < |first|
      ensures first[i].0 !in m
    {
      assert first[i].0 !in c;
    }
  }

  /** No service-account key is left at the top level once moved, and the 'gcp' map stays. */
  lemma MovedConfigMovesHailKeys(pc: map<string, Yaml>)
    requires MovedConfig(pc).Ok?
    ensures forall i :: 0 <= i < 3 ==> GcpHailKeys[i].0 !in MovedConfig(pc).value && AzureHailKeys[i].0 !in MovedConfig(pc).value
    ensures "gcp" in MovedConfig(pc).value
  {
    HailKeysAvoidTargets();
    TwoMoves(BaseConfig(pc), GcpHailKeys, "gcp", AzureHailKeys, "azure");
  }

  /** No service-account key is left at the top level of a flattened stack. */
  lemma StackConfigMovesHailKeys(pc: map<string, Yaml>, loads: string -> Option<Yaml>)
    requires StackConfig(pc, loads).Ok?
    ensures forall i :: 0 <= i < 3 ==>
              GcpHailKeys[i].0 !in StackConfig(pc, loads).value && AzureHailKeys[i].0 !in StackConfig(pc, loads).value
    ensures "gcp" in StackConfig(pc, loads).value
  {
    MovedConfigMovesHailKeys(pc);
    var m := MovedConfig(pc).value;
    var c1 := FixEnableRelease(m, loads).value;
    var c2 := FixArchiveAge(c1).value;
    assert StackConfig(pc, loads) == FixDependsOn(c2, loads);
    assert StackConfig(pc, loads).value.Keys == m.Keys;
  }

  /** What a parsed stack file contributes: nothing, a configuration, or an error. */
  function StackFile(dataset: string, parsed: Yaml, loads: string -> Option<Yaml>): (r: Result<Option<map<string, Yaml>>, CombineError>)
    ensures dataset == "production" || !Truthy(parsed) ==> r == Ok(None)
    ensures dataset != "production" && Truthy(parsed) && !parsed.YMap? ==> r.Err? && r.error.TypeError?
    ensures dataset != "production" && parsed.YMap? && Truthy(parsed) && "config" !in parsed.entries ==> r == Err(KeyError("config"))
    ensures (dataset != "production" && parsed.YMap? && "config" in parsed.entries && Truthy(parsed.entries["config"]) &&
             !parsed.entries["config"].YMap?) ==> r.Err? && r.error.AttributeError?
    ensures dataset != "production" && parsed.YMap? && "config" in parsed.entries && !Truthy(parsed.entries["config"]) ==> r == Ok(None)
    ensures r.Ok? && r.value.Some? ==>
              parsed.YMap? && "config" in parsed.entries && parsed.entries["config"].YMap? &&
              Truthy(parsed.entries["config"]) &&
              StackConfig(parsed.entries["config"].entries, loads) == Ok(r.value.value)
  {
    if dataset == "production" then Ok(None)
    else if !Truthy(parsed) then Ok(None)
    else if !parsed.YMap? then Err(TypeError("the parsed file is not a mapping"))
    else if "config" !in parsed.entries then Err(KeyError("config"))
    else
      var pc := parsed.entries["config"];
      if !Truthy(pc) then Ok(None)
      else if !pc.YMap? then Err(AttributeError("the configuration has no attribute 'items'"))
      else
        match StackConfig(pc.entries, loads)
        case Err(e) => Err(e)
        case Ok(c) => Ok(Some(c))
  }

  /** The combined configuration of the stack files in order (a later file of a dataset wins), or the first error. */
  function Combined(files: seq<(string, Yaml)>, loads: string -> Option<Yaml>): Result<map<string, map<string, Yaml>>, CombineError>
  {
    CombineWith(files, (name: string, parsed: Yaml) => StackFile(name, parsed, loads))
  }

  /** Combining with any per-file contribution `f`: the loop of the script with `f` in place of one file's rewrite. */
  function CombineWith(files: seq<(string, Yaml)>, f: (string, Yaml) -> Result<Option<map<string, Yaml>>, CombineError>)
    : Result<map<string, map<string, Yaml>>, CombineError>
    decreases |files|
  {
    if |files| == 0 then Ok(map[])
    else
      match CombineWith(files[..|files| - 1], f)
      case Err(e) => Err(e)
      case Ok(sc) =>
        match f(files[|files| - 1].0, files[|files| - 1].1)
        case Err(e) => Err(e)
        case Ok(None) => Ok(sc)
        case Ok(Some(c)) => Ok(sc[files[|files| - 1].0 := c])
  }

  /** A name `f` never contributes for is never combined. */
  lemma {:induction false} CombineWithSkips(files: seq<(string, Yaml)>, f: (string, Yaml) -> Result<Option<map<string, Yaml>>, CombineError>, name: string)
    requires CombineWith(files, f).Ok?
    requires forall i :: 0 <= i < |files| && files[i].0 == name ==> f(files[i].0, files[i].1) == Ok(None)
    ensures name !in CombineWith(files, f).value
    decreases |files|
  {
    if |files| > 0 {
      CombineWithSkips(files[..|files| - 1], f, name);
    }
  }

  /** Every combined entry is what `f` contributes for one of the files with that name. */
  lemma {:induction false} CombineWithEntries(files: seq<(string, Yaml)>, f: (string, Yaml) -> Result<Option<map<string, Yaml>>, CombineError>)
    requires CombineWith(files, f).Ok?
    ensures forall d :: d in CombineWith(files, f).value ==>
              exists i :: 0 <= i < |files| && files[i].0 == d && f(d, files[i].1) == Ok(Some(CombineWith(files, f).value[d]))
    decreases |files|
  {
    if |files| > 0 {
      var init := files[..|files| - 1];
      CombineWithEntries(init, f);
      var sc := CombineWith(init, f).value;
      var r := CombineWith(files, f).value;
      forall d | d in r
        ensures exists i :: 0 <= i < |files| && files[i].0 == d && f(d, files[i].1) == Ok(Some(r[d]))
      {
        if d == files[|files| - 1].0 && f(d, files[|files| - 1].1).value.Some? {
          assert f(d, files[|files| - 1].1) == Ok(Some(r[d]));
        } else {
          var i :| 0 <= i < |init| && init[i].0 == d && f(d, init[i].1) == Ok(Some(sc[d]));
          assert files[i] == init[i];
        }
      }
    }
  }

  /** The production stack never takes part, and every entry is a flattened stack of its dataset. */
  lemma CombinedEntries(files: seq<(string, Yaml)>, loads: string -> Option<Yaml>)
    requires Combined(files, loads).Ok?
    ensures "production" !in Combined(files, loads).value
    ensures forall d :: d in Combined(files, loads).value ==>
              exists i :: 0 <= i < |files| && files[i].0 == d &&
                          StackFile(d, files[i].1, loads) == Ok(Some(Combined(files, loads).value[d]))
  {
    var f := (name: string, parsed: Yaml) => StackFile(name, parsed, loads);
    CombineWithSkips(files, f, "production");
    CombineWithEntries(files, f);
  }

  /** One stack's flattening, moving the service-account keys one at a time. */
  method FlattenStack(pc: map<string, Yaml>, loads: string -> Option<Yaml>) returns (r: Result<map<string, Yaml>, CombineError>)
    ensures r == StackConfig(pc, loads)
  {
    HailKeysAvoidTargets();
    var config := BaseConfig(pc);
    var moved := MoveAll(config, GcpHailKeys, "gcp");
    if moved.Err? {
      return moved;
    }
    moved := MoveAll(moved.value, AzureHailKeys, "azure");
    if moved.Err? {
      return moved;
    }
    var c1 := FixEnableRelease(moved.value, loads);
    if c1.Err? {
      return c1;
    }
    var c2 := FixArchiveAge(c1.value);
    if c2.Err? {
      return c2;
    }
    r := FixDependsOn(c2.value, loads);
  }

  /** The loop over one group of renamed keys. */
  method MoveAll(config: map<string, Yaml>, pairs: seq<(string, string)>, target: string) returns (r: Result<map<string, Yaml>, CombineError>)
    requires forall i :: 0 <= i < |pairs| ==> pairs[i].0 != target
    ensures r == MoveKeys(config, pairs, target)
  {
    var c := config;
    var i := 0;
    while i < |pairs|
      invariant 0 <= i <= |pairs|
      invariant MoveKeys(config, pairs, target) == MoveKeys(c, pairs[i..], target)
    {
      var step := MoveKey(c, pairs[i].0, pairs[i].1, target);
      assert pairs[i..][1..] == pairs[i + 1..];
      if step.Err? {
        return step;
      }
      c := step.value;
      i := i + 1;
    }
    r := Ok(c);
  }

  /** The script: every stack file in order, stopping at the first error; the result is what is written. */
  method CombineAll(files: seq<(string, Yaml)>, loads: string -> Option<Yaml>)
    returns (r: Result<map<string, map<string, Yaml>>, CombineError>)
    ensures r == Combined(files, loads)
  {
    var superConfig: map<string, map<string, Yaml>> := map[];
    var i := 0;
    while i < |files|
      invariant 0 <= i <= |files|
      invariant CombineWith(files[..i], (name: string, parsed: Yaml) => StackFile(name, parsed, loads)) == Ok(superConfig)
    {
      CombineWithStep(files, (name: string, parsed: Yaml) => StackFile(name, parsed, loads), i);
      var one := StackFile(files[i].0, files[i].1, loads);
      if one.Err? {
        CombinedKeepsError(files, loads, i + 1);
        return Err(one.error);
      }
      if one.value.Some? {
        superConfig := superConfig[files[i].0 := one.value.value];
      }
      i := i + 1;
    }
    assert files[..i] == files;
    r := Ok(superConfig);
  }

  /** One more file: the combination so far, then that file's contribution. */
  lemma CombineWithStep(files: seq<(string, Yaml)>, f: (string, Yaml) -> Result<Option<map<string, Yaml>>, CombineError>, i: nat)
    requires i < |files|
    ensures CombineWith(files[..i + 1], f) ==
              match CombineWith(files[..i], f)
              case Err(e) => Err(e)
              case Ok(sc) =>
                match f(files[i].0, files[i].1)
                case Err(e) => Err(e)
                case Ok(None) => Ok(sc)
                case Ok(Some(c)) => Ok(sc[files[i].0 := c])
  {
    assert files[..i + 1][..i] == files[..i];
  }

  lemma {:induction false} CombinedKeepsError(files: seq<(string, Yaml)>, loads: string -> Option<Yaml>, i: nat)
    requires i <= |files| && Combined(files[..i], loads).Err?
    ensures Combined(files, loads) == Combined(files[..i], loads)
    decreases |files| - i
  {
    if i < |files| {
      assert files[..i + 1][..i] == files[..i];
      CombinedKeepsError(files, loads, i + 1);
    } else {
      assert files[..i] == files;
    }
  }
}
