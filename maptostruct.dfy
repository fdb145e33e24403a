/**
 * The key conversion behind `MapToStructEx` and `GenericMapToStruct`: a
 * `map[interface{}]interface{}`, as YAML decoders produce, becomes a
 * `map[string]interface{}`, and so does every such map nested in it as a
 * value. A key that is not a string is a fatal fault.
 */
module MapToStruct {
  import opened Wrappers
  import opened Values

  /**
   * Every key of `v`, if `v` is a `map[interface{}]interface{}`, and of every
   * such map reached from it through values, is a string. Values of any other
   * type, `map[string]interface{}` included, are not looked into.
   */
  predicate StringKeyed(v: Value)
  {
    match v
    case AnyMap(m) => forall k | k in m :: k.Str? && StringKeyed(m[k])
    case _ => true
  }

  /** The strings among `keys`. */
  function Strings(keys: set<Value>): set<string>
  {
    set k | k in keys && k.Str? :: k.s
  }

  lemma StringsMembers(keys: set<Value>)
    ensures forall s :: s in Strings(keys) <==> Str(s) in keys
  {
    forall s | s in Strings(keys)
      ensures Str(s) in keys
    {
      var k :| k in keys && k.Str? && k.s == s;
    }
  }

  /** What the conversion makes of a value it stores: nested `map[interface{}]interface{}` are converted, everything else is kept. */
  ghost function Converted(v: Value): (r: Value)
    requires StringKeyed(v)
    ensures v.AnyMap? ==> r.StringMap?
    ensures !v.AnyMap? ==> r == v
    ensures !r.AnyMap?
  {
    match v
    case AnyMap(m) =>
      StringsMembers(m.Keys);
      StringMap(map s | s in Strings(m.Keys) :: Converted(m[Str(s)]))
    case _ => v
  }

  /** Every child of `m` can be converted without a fault. */
  predicate ChildrenStringKeyed(m: map<string, Value>)
  {
    forall k | k in m :: StringKeyed(m[k])
  }

  /** What the loop of `ToMapWithStringKey` has stored after handling the `handled` keys of `m`. */
  ghost function ConvertedPart(m: map<Value, Value>, handled: set<Value>): (r: map<string, Value>)
    requires handled <= m.Keys
    requires forall k | k in handled :: k.Str? && StringKeyed(m[k])
  {
    StringsMembers(handled);
    map s | s in Strings(handled) :: Converted(m[Str(s)])
  }

  /** What the loop of `ChildMapsToStringKey` has stored after handling the `handled` keys of `m`. */
  ghost function ConvertedChildren(m: map<string, Value>, handled: set<string>): (r: map<string, Value>)
    requires handled <= m.Keys
    requires forall k | k in handled :: StringKeyed(m[k])
  {
    map k | k in handled :: Converted(m[k])
  }

  lemma ConvertedChildrenStep(m: map<string, Value>, handled: set<string>, k: string)
    requires handled <= m.Keys && k in m && k !in handled
    requires forall j | j in handled :: StringKeyed(m[j])
    requires StringKeyed(m[k])
    ensures ConvertedChildren(m, handled)[k := Converted(m[k])] == ConvertedChildren(m, handled + {k})
  {
  }

  lemma ConvertedChildrenAll(m: map<string, Value>, handled: set<string>)
    requires handled == m.Keys
    requires forall k | k in handled :: StringKeyed(m[k])
    ensures ChildrenStringKeyed(m)
    ensures ConvertedChildren(m, handled) == map k | k in m :: Converted(m[k])
  {
  }

  lemma ConvertedPartStep(m: map<Value, Value>, handled: set<Value>, k: Value)
    requires handled <= m.Keys && k in m && k !in handled
    requires forall j | j in handled :: j.Str? && StringKeyed(m[j])
    requires k.Str? && StringKeyed(m[k])
    ensures ConvertedPart(m, handled)[k.s := Converted(m[k])] == ConvertedPart(m, handled + {k})
  {
    StringsMembers(handled);
    StringsMembers(handled + {k});
    assert Strings(handled + {k}) == Strings(handled) + {k.s};
  }

  /** One key that is not a string, or one value that cannot be converted, spoils the whole map. */
  lemma EntryFaults(m: map<Value, Value>, k: Value)
    requires k in m && (!k.Str? || !StringKeyed(m[k]))
    ensures !StringKeyed(AnyMap(m))
  {
  }

  /**
   * `ToMapWithStringKey(convertMap)`: fills a fresh map key by key; the call
   * faults exactly when some key, at any depth, is not a string, and
   * otherwise returns the conversion of the whole map.
   */
  method ToMapWithStringKey(convertMap: map<Value, Value>) returns (temp: map<string, Value>, panics: bool)
    ensures panics <==> !StringKeyed(AnyMap(convertMap))
    ensures !panics ==> StringMap(temp) == Converted(AnyMap(convertMap))
    decreases AnyMap(convertMap)
  {
    temp := map[];
    var todo := convertMap.Keys;
    ghost var handled: set<Value> := {};
    while todo != {}
      invariant handled + todo == convertMap.Keys && handled !! todo
      invariant forall k | k in handled :: k.Str? && StringKeyed(convertMap[k])
      invariant temp == ConvertedPart(convertMap, handled)
      decreases todo
    {
      var k :| k in todo;
      var v := convertMap[k];
      if v.AnyMap? {
        assert v < AnyMap(convertMap);
        var child, childPanics := ToMapWithStringKey(v.pairs);
        if childPanics {
          EntryFaults(convertMap, k);
          return temp, true;
        }
        v := StringMap(child);
      }
      if !k.Str? {
        EntryFaults(convertMap, k);
        return temp, true;
      }
      ConvertedPartStep(convertMap, handled, k);
      temp := temp[k.s := v];
      todo := todo - {k};
      handled := handled + {k};
    }
    assert handled == convertMap.Keys;
    panics := false;
  }

  /**
   * `ChildMapsToStringKey(convertMap)`: a fresh map with the same keys in
   * which only the `map[interface{}]interface{}` values are converted; it
   * faults exactly when one of them cannot be.
   */
  method ChildMapsToStringKey(convertMap: map<string, Value>) returns (temp: map<string, Value>, panics: bool)
    ensures panics <==> !ChildrenStringKeyed(convertMap)
    ensures !panics ==> temp == map k | k in convertMap :: Converted(convertMap[k])
  {
    temp := map[];
    var todo := convertMap.Keys;
    ghost var handled: set<string> := {};
    while todo != {}
      invariant handled + todo == convertMap.Keys && handled !! todo
      invariant forall k | k in handled :: StringKeyed(convertMap[k])
      invariant temp == ConvertedChildren(convertMap, handled)
      decreases todo
    {
      var k :| k in todo;
      var v := convertMap[k];
      if v.AnyMap? {
        var child, childPanics := ToMapWithStringKey(v.pairs);
        if childPanics {
          assert !StringKeyed(convertMap[k]);
          return temp, true;
        }
        v := StringMap(child);
      }
      ConvertedChildrenStep(convertMap, handled, k);
      temp := temp[k := v];
      todo := todo - {k};
      handled := handled + {k};
    }
    ConvertedChildrenAll(convertMap, handled);
    panics := false;
  }

  /** The converted map has the input's keys, as strings, each holding the conversion of its value. */
  lemma ConvertedKeys(m: map<Value, Value>)
    requires StringKeyed(AnyMap(m))
    ensures var e := Converted(AnyMap(m)).entries;
      (forall s :: s in e <==> Str(s) in m) &&
      (forall s | s in e :: e[s] == Converted(m[Str(s)]) && !e[s].AnyMap?)
  {
    StringsMembers(m.Keys);
  }

  /** The child values `ChildMapsToStringKey` keeps unchanged: every one but a `map[interface{}]interface{}`. */
  lemma ChildrenPassThrough(m: map<string, Value>)
    requires ChildrenStringKeyed(m)
    ensures var c := map k | k in m :: Converted(m[k]);
      c.Keys == m.Keys &&
      (forall k | k in m && !m[k].AnyMap? :: c[k] == m[k]) &&
      (forall k | k in m && m[k].AnyMap? :: c[k].StringMap?)
  {
  }

  /** The value reached from `v` by following string keys through `map[interface{}]interface{}` levels. */
  function AnyPath(v: Value, path: seq<string>): Option<Value>
    decreases |path|
  {
    if path == [] then Some(v)
    else if v.AnyMap? && Str(path[0]) in v.pairs then AnyPath(v.pairs[Str(path[0])], path[1..])
    else None
  }

  /** The value reached from `v` by following keys through `map[string]interface{}` levels. */
  function StringPath(v: Value, path: seq<string>): Option<Value>
    decreases |path|
  {
    if path == [] then Some(v)
    else if v.StringMap? && path[0] in v.entries then StringPath(v.entries[path[0]], path[1..])
    else None
  }

  /** Every key path of the input is a key path of the result, ending at the conversion of what it ends at in the input. */
  lemma {:induction false} PathsPreserved(v: Value, path: seq<string>)
    requires StringKeyed(v)
    requires AnyPath(v, path).Some?
    ensures StringKeyed(AnyPath(v, path).value)
    ensures StringPath(Converted(v), path) == Some(Converted(AnyPath(v, path).value))
    decreases |path|
  {
    if path != [] {
      var m := v.pairs;
      ConvertedKeys(m);
      PathsPreserved(m[Str(path[0])], path[1..]);
    }
  }

  /** A key that is not a string, at any depth reachable through `map[interface{}]interface{}` values, makes the conversion fault. */
  lemma {:induction false} NonStringKeyFaults(v: Value, path: seq<string>, m: map<Value, Value>, k: Value)
    requires AnyPath(v, path) == Some(AnyMap(m))
    requires k in m && !k.Str?
    ensures !StringKeyed(v)
    decreases |path|
  {
    if path != [] {
      NonStringKeyFaults(v.pairs[Str(path[0])], path[1..], m, k);
    }
  }

  /** A `map[string]interface{}` nested in the input is not looked into, whatever it holds. */
  lemma StringMapUntouched(entries: map<string, Value>)
    ensures StringKeyed(StringMap(entries))
    ensures Converted(StringMap(entries)) == StringMap(entries)
  {
  }
}
