/**
 * Turning a struct into a `map[string]interface{}` under one tag key: tag
 * parsing, the exported-field filter, and the per-field rules of `IntoMap`
 * (key naming, `omitempty`, `omitnested`, `string`, `flatten`). A struct is
 * given by its field records; what reflection would compute about a value
 * is part of the record.
 */
module StructToMap {
  import opened Wrappers
  import opened Values
  import Errors

  // ------------------------------------------------------------- tag text

  /** `strings.Split(s, ",")`. */
  function Split(s: string): (parts: seq<string>)
    ensures |parts| >= 1
    decreases |s|
  {
    if s == [] then [""]
    else if s[0] == ',' then [""] + Split(s[1..])
    else
      var rest := Split(s[1..]);
      [[s[0]] + rest[0]] + rest[1..]
  }

  predicate CommaFree(s: string)
  {
    forall i :: 0 <= i < |s| ==> s[i] != ','
  }

  /** Joining the pieces with "," gives the text back, and no piece holds a comma. */
  lemma {:induction false} SplitJoin(s: string)
    ensures Errors.Join(Split(s), ",") == s
    ensures forall k :: 0 <= k < |Split(s)| ==> CommaFree(Split(s)[k])
    decreases |s|
  {
    if s != [] {
      SplitJoin(s[1..]);
      var rest := Split(s[1..]);
      if s[0] == ',' {
        assert s == [','] + s[1..];
        assert Split(s)[1..] == rest;
      } else {
        var first := [s[0]] + rest[0];
        assert Split(s) == [first] + rest[1..];
        if |rest| == 1 {
          assert s == [s[0]] + rest[0];
        } else {
          assert Errors.Join(rest, ",") == rest[0] + "," + Errors.Join(rest[1..], ",");
          assert ([first] + rest[1..])[1..] == rest[1..];
          assert s == [s[0]] + (rest[0] + "," + Errors.Join(rest[1..], ","));
        }
        forall k | 0 <= k < |Split(s)|
          ensures CommaFree(Split(s)[k])
        {
          if k > 0 {
            assert Split(s)[k] == rest[k];
          } else {
            assert CommaFree(rest[0]);
          }
        }
      }
    }
  }

  /** Splitting comma-free pieces joined with "," gives the pieces back. */
  lemma {:induction false} JoinSplit(parts: seq<string>)
    requires |parts| >= 1
    requires forall k :: 0 <= k < |parts| ==> CommaFree(parts[k])
    ensures Split(Errors.Join(parts, ",")) == parts
    decreases |parts|, |parts[0]|
  {
    if |parts| == 1 {
      SplitCommaFree(parts[0]);
    } else if parts[0] == [] {
      var tail := Errors.Join(parts[1..], ",");
      assert Errors.Join(parts, ",") == [','] + tail;
      JoinSplit(parts[1..]);
      assert ([','] + tail)[1..] == tail;
      assert parts == [""] + parts[1..];
    } else {
      var s := Errors.Join(parts, ",");
      var shorter := [parts[0][1..]] + parts[1..];
      assert CommaFree(parts[0][1..]) by {
        forall i | 0 <= i < |parts[0][1..]| ensures parts[0][1..][i] != ',' {
          assert parts[0][1..][i] == parts[0][i + 1];
        }
      }
      JoinSplit(shorter);
      assert shorter[1..] == parts[1..];
      assert Errors.Join(shorter, ",") == parts[0][1..] + "," + Errors.Join(parts[1..], ",");
      assert s == [parts[0][0]] + Errors.Join(shorter, ",");
      assert s[0] == parts[0][0] && s[0] != ',';
      assert s[1..] == Errors.Join(shorter, ",");
      assert [parts[0][0]] + parts[0][1..] == parts[0];
      assert [parts[0]] + parts[1..] == parts;
    }
  }

  lemma {:induction false} SplitCommaFree(s: string)
    requires CommaFree(s)
    ensures Split(s) == [s]
    decreases |s|
  {
    if s != [] {
      assert CommaFree(s[1..]) by {
        forall i | 0 <= i < |s[1..]| ensures s[1..][i] != ',' {
          assert s[1..][i] == s[i + 1];
        }
      }
      SplitCommaFree(s[1..]);
      assert [s[0]] + s[1..] == s;
    }
  }

  /** `parseTag`: the name before the first comma, and the options after it in order. */
  function ParseTag(tag: string): (r: (string, seq<string>))
    ensures Errors.Join([r.0] + r.1, ",") == tag
    ensures CommaFree(r.0) && forall k :: 0 <= k < |r.1| ==> CommaFree(r.1[k])
  {
    var res := Split(tag);
    SplitJoin(tag);
    assert [res[0]] + res[1..] == res;
    (res[0], res[1..])
  }

  /** Writing a name and options out as a tag and parsing it gives them back. */
  lemma ParseTagRoundTrip(name: string, opts: seq<string>)
    requires CommaFree(name) && forall k :: 0 <= k < |opts| ==> CommaFree(opts[k])
    ensures ParseTag(Errors.Join([name] + opts, ",")) == (name, opts)
  {
    var parts := [name] + opts;
    forall k | 0 <= k < |parts| ensures CommaFree(parts[k]) {
      if k > 0 {
        assert parts[k] == opts[k - 1];
      }
    }
    JoinSplit(parts);
    assert parts[1..] == opts;
  }

  /** The tags without a name: the empty tag, and options alone. */
  lemma ParseTagUnnamedExamples()
    ensures ParseTag("") == ("", [])
    ensures ParseTag(",opt") == ("", ["opt"])
  {
    assert ",opt" == Errors.Join(["", "opt"], ",");
    ParseTagRoundTrip("", ["opt"]);
  }

  /** The tags with a name: alone, and followed by two options. */
  lemma ParseTagNamedExamples()
    ensures ParseTag("name") == ("name", [])
    ensures ParseTag("name,opt,opt2") == ("name", ["opt", "opt2"])
  {
    assert "name" == Errors.Join(["name"], ",");
    ParseTagRoundTrip("name", []);
    assert ",opt2" == "," + Errors.Join(["opt2"], ",");
    assert "opt,opt2" == Errors.Join(["opt", "opt2"], ",");
    assert "name,opt,opt2" == Errors.Join(["name", "opt", "opt2"], ",");
    ParseTagRoundTrip("name", ["opt", "opt2"]);
  }

  /** `tagOptions.Has`. */
  function Has(opts: seq<string>, opt: string): (r: bool)
    ensures r <==> opt in opts
  {
    if opts == [] then false
    else if opts[0] == opt then true
    else Has(opts[1..], opt)
  }

  // --------------------------------------------------------- field records

  /** What reflection tells `IntoMap` about one field's value. */
  datatype FieldValue = FieldValue(
    plain: Value,              // val.Interface()
    isZero: bool,              // equal (reflect.DeepEqual) to its type's zero value
    stringer: Option<string>,  // String(), when the value is a fmt.Stringer
    nested: Value,             // the MapConverter's map, or the nested conversion of the value
    isSubStruct: bool)         // not a MapConverter, and a map or struct (after one pointer)

  /** A struct field: its name, package path (empty when exported), tag values by key, embedding. */
  datatype StructField = StructField(
    name: string,
    pkgPath: string,
    tags: map<string, string>,
    anonymous: bool,
    value: FieldValue)

  /** `field.Tag.Get(key)`: the value under the key, "" when absent. */
  function TagGet(f: StructField, key: string): string
  {
    if key in f.tags then f.tags[key] else ""
  }

  /** A struct value: its fields in declaration order, read under the tag key `tagName`. */
  datatype StructVal = StructVal(fields: seq<StructField>, tagName: string)

  predicate Kept(f: StructField, tagName: string)
  {
    f.pkgPath == "" && TagGet(f, tagName) != "-"
  }

  /** The fields `structFields` keeps, in order. */
  function KeptFields(fields: seq<StructField>, tagName: string): (r: seq<StructField>)
    ensures |r| <= |fields|
    decreases |fields|
  {
    if fields == [] then []
    else
      var front := KeptFields(fields[..|fields| - 1], tagName);
      if Kept(fields[|fields| - 1], tagName) then front + [fields[|fields| - 1]] else front
  }

  /** A field is kept iff it is exported and its tag is not "-". */
  lemma {:induction false} KeptFieldsMembers(fields: seq<StructField>, tagName: string)
    ensures forall f :: f in KeptFields(fields, tagName) <==> f in fields && Kept(f, tagName)
    decreases |fields|
  {
    if fields != [] {
      var n := |fields| - 1;
      var front := fields[..n];
      KeptFieldsMembers(front, tagName);
      assert fields == front + [fields[n]];
      forall f ensures f in KeptFields(fields, tagName) <==> f in fields && Kept(f, tagName) {
        assert f in fields <==> f in front || f == fields[n];
      }
    }
  }

  /** Filtering a concatenation is concatenating the filtered parts, so kept fields keep their order. */
  lemma {:induction false} KeptFieldsAppend(a: seq<StructField>, b: seq<StructField>, tagName: string)
    ensures KeptFields(a + b, tagName) == KeptFields(a, tagName) + KeptFields(b, tagName)
    decreases |b|
  {
    if b == [] {
      assert a + b == a;
    } else {
      var n := |b| - 1;
      KeptFieldsAppend(a, b[..n], tagName);
      assert (a + b)[..|a + b| - 1] == a + b[..n];
      assert (a + b)[|a + b| - 1] == b[n];
    }
  }

  /** `structFields`: the exported fields whose tag is not "-", in declaration order. */
  method StructFields(s: StructVal) returns (f: seq<StructField>)
    ensures f == KeptFields(s.fields, s.tagName)
  {
    f := [];
    var i := 0;
    while i < |s.fields|
      invariant 0 <= i <= |s.fields|
      invariant f == KeptFields(s.fields[..i], s.tagName)
    {
      assert s.fields[..i + 1][..i] == s.fields[..i];
      var field := s.fields[i];
      if field.pkgPath != "" {
        i := i + 1;
        continue;
      }
      if TagGet(field, s.tagName) == "-" {
        i := i + 1;
        continue;
      }
      f := f + [field];
      i := i + 1;
    }
    assert s.fields[..i] == s.fields;
  }

  // ----------------------------------------------------------------- IntoMap

  /** The key a field is stored under: its tag name, or its own name when the tag names none. */
  function KeyName(f: StructField, tagName: string): (key: string)
    ensures ParseTag(TagGet(f, tagName)).0 != "" ==> key == ParseTag(TagGet(f, tagName)).0
    ensures ParseTag(TagGet(f, tagName)).0 == "" ==> key == f.name
  {
    var (name, _) := ParseTag(TagGet(f, tagName));
    if name != "" then name else f.name
  }

  /**
   * One field of `IntoMap`'s loop over the map `out`: the new map, and
   * whether it panics (flattening a value that is not a string-keyed map).
   */
  function FieldStep(out: map<string, Value>, f: StructField, tagName: string): (r: (map<string, Value>, bool))
    ensures out.Keys <= r.0.Keys
    ensures r.1 ==> r.0 == out && f.value.isSubStruct && !f.value.nested.StringMap?
    ensures r.0.Keys <= out.Keys + {KeyName(f, tagName)} || (f.value.isSubStruct && f.value.nested.StringMap?)
  {
    var (tagKey, opts) := ParseTag(TagGet(f, tagName));
    var name := KeyName(f, tagName);
    if Has(opts, "omitempty") && f.value.isZero then (out, false)
    else
      var nestedPath := !Has(opts, "omitnested");
      var finalVal := if nestedPath then f.value.nested else f.value.plain;
      var isSubStruct := nestedPath && f.value.isSubStruct;
      var forceFlatten := isSubStruct && f.anonymous && |tagKey| == 0;
      if Has(opts, "string") then
        (if f.value.stringer.Some? then out[name := Str(f.value.stringer.value)] else out, false)
      else if isSubStruct && (forceFlatten || Has(opts, "flatten")) then
        (if finalVal.StringMap? then (out + finalVal.entries, false) else (out, true))
      else (out[name := finalVal], false)
  }

  /** The fields in order, stopping at the first panic; no key is ever removed. */
  function FieldsInto(out: map<string, Value>, fields: seq<StructField>, tagName: string): (r: (map<string, Value>, bool))
    ensures out.Keys <= r.0.Keys
    ensures r.1 ==> fields != []
    decreases |fields|
  {
    if fields == [] then (out, false)
    else
      var (m, panicked) := FieldsInto(out, fields[..|fields| - 1], tagName);
      if panicked then (m, true) else FieldStep(m, fields[|fields| - 1], tagName)
  }

  /** An `omitempty` field holding its zero value adds no key. */
  lemma OmitEmptySkips(out: map<string, Value>, f: StructField, tagName: string)
    requires "omitempty" in ParseTag(TagGet(f, tagName)).1 && f.value.isZero
    ensures FieldStep(out, f, tagName) == (out, false)
  {
  }

  /** A field on the plain path is stored under its key name, and every other key is kept. */
  lemma PlainFieldStored(out: map<string, Value>, f: StructField, tagName: string)
    requires var opts := ParseTag(TagGet(f, tagName)).1;
      !("omitempty" in opts && f.value.isZero) && "string" !in opts && "flatten" !in opts && !f.anonymous
    ensures var r := FieldStep(out, f, tagName);
      !r.1 && r.0.Keys == out.Keys + {KeyName(f, tagName)} &&
      r.0[KeyName(f, tagName)] == (if "omitnested" in ParseTag(TagGet(f, tagName)).1 then f.value.plain else f.value.nested) &&
      forall k :: k in out && k != KeyName(f, tagName) ==> r.0[k] == out[k]
  {
  }

  /** The `string` option stores `String()` when there is one and nothing otherwise; it never flattens. */
  lemma StringOptionStored(out: map<string, Value>, f: StructField, tagName: string)
    requires var opts := ParseTag(TagGet(f, tagName)).1;
      !("omitempty" in opts && f.value.isZero) && "string" in opts
    ensures f.value.stringer.Some? ==> FieldStep(out, f, tagName) == (out[KeyName(f, tagName) := Str(f.value.stringer.value)], false)
    ensures f.value.stringer.None? ==> FieldStep(out, f, tagName) == (out, false)
  {
  }

  /** Go's map: a reference that may be nil, filled in place. */
  class MapRef {
    var entries: map<string, Value>

    constructor ()
      ensures entries == map[]
    {
      entries := map[];
    }
  }

  /** One pass of `IntoMap`'s loop body: the field's effect on `out`, and whether it panics. */
  method FieldInto(field: StructField, tagName: string, out: MapRef) returns (panics: bool)
    modifies out
    ensures (out.entries, panics) == FieldStep(old(out.entries), field, tagName)
  {
    panics := false;
    var (tagKey, opts) := ParseTag(TagGet(field, tagName));
    var name := if tagKey != "" then tagKey else field.name;
    if Has(opts, "omitempty") && field.value.isZero {
      return;
    }
    var isSubStruct := false;
    var forceFlatten := false;
    var finalVal: Value;
    if !Has(opts, "omitnested") {
      finalVal := field.value.nested;
      if field.value.isSubStruct {
        isSubStruct := true;
        forceFlatten := field.anonymous && |tagKey| == 0;
      }
    } else {
      finalVal := field.value.plain;
    }
    if Has(opts, "string") {
      if field.value.stringer.Some? {
        out.entries := out.entries[name := Str(field.value.stringer.value)];
      }
      return;
    }
    if isSubStruct && (forceFlatten || Has(opts, "flatten")) {
      if !finalVal.StringMap? {
        return true;
      }
      out.entries := out.entries + finalVal.entries;
    } else {
      out.entries := out.entries[name := finalVal];
    }
  }

  /** `IntoMap`: nothing for a nil map; otherwise the kept fields in order, stopping at a panic. */
  method IntoMap(s: StructVal, out: MapRef?) returns (panics: bool)
    modifies out
    ensures out == null ==> !panics
    ensures out != null ==> (out.entries, panics) == FieldsInto(old(out.entries), KeptFields(s.fields, s.tagName), s.tagName)
  {
    if out == null {
      return false;
    }
    var fields := StructFields(s);
    ghost var start := out.entries;
    panics := false;
    var i := 0;
    while i < |fields| && !panics
      invariant 0 <= i <= |fields|
      invariant (out.entries, panics) == FieldsInto(start, fields[..i], s.tagName)
    {
      FieldsIntoNext(start, fields, i, s.tagName);
      panics := FieldInto(fields[i], s.tagName, out);
      i := i + 1;
    }
    if panics {
      PanicSticks(start, fields, i, s.tagName);
    }
    assert fields[..|fields|] == fields;
  }

  lemma FieldsIntoNext(out: map<string, Value>, fields: seq<StructField>, i: nat, tagName: string)
    requires i < |fields| && !FieldsInto(out, fields[..i], tagName).1
    ensures FieldsInto(out, fields[..i + 1], tagName) == FieldStep(FieldsInto(out, fields[..i], tagName).0, fields[i], tagName)
  {
    assert fields[..i + 1][..i] == fields[..i];
  }

  /** Once a field panics, the fields after it change nothing. */
  lemma {:induction false} PanicSticks(out: map<string, Value>, fields: seq<StructField>, i: nat, tagName: string)
    requires i <= |fields|
    requires FieldsInto(out, fields[..i], tagName).1
    ensures FieldsInto(out, fields, tagName) == FieldsInto(out, fields[..i], tagName)
    decreases |fields| - i
  {
    if i < |fields| {
      assert fields[..i + 1][..i] == fields[..i];
      PanicSticks(out, fields, i + 1, tagName);
    } else {
      assert fields[..i] == fields;
    }
  }
}
