/**
 * The conversions of a dynamic value to `int32`, `int`, `int64`, `bool` and
 * `string`: a switch on the value's type, with the integer cases following
 * Go's conversion rules and every failure but `ToInt32`'s wrapped in a
 * conversion-failed `*Error`.
 */
module TypeConversions {
  import opened Wrappers
  import opened GoInts
  import opened Errors
  import opened ErrorTemplates
  import opened ApiErrors

  /** The dynamic value passed as `interface{}`, for the types the conversions tell apart. */
  datatype Input =
    | Str(s: string)
    | U8(u8: Uint8)
    | U16(u16: Uint16)
    | U32(u32: Uint32)
    | U64(u64: Uint64)
    | UInt(u: Uint64)
    | I8(i8: Int8)
    | I16(i16: Int16)
    | I32(i32: Int32)
    | IInt(i: Int64)
    | I64(i64: Int64)
    | IntPtr(intTarget: Option<Int64>)  // *int; None is a nil pointer
    | Int64Ptr(int64Target: Option<Int64>)  // *int64
    | BoolIn(b: bool)
    | BoolPtr(boolTarget: Option<bool>)  // *bool
    | StrPtr(strTarget: Option<string>)  // *string
    | Other(typeName: string, stringer: Option<string>)  // any other type: its `%T` name and, for a `fmt.Stringer`, its `String()`

  /** The `%T` names of the types listed above. */
  const ListedTypes: set<string> := {
    "string", "uint8", "uint16", "uint32", "uint64", "uint", "int8", "int16", "int32", "int", "int64",
    "*int", "*int64", "bool", "*bool", "*string"
  }

  /** The float types, whose branches in the integer conversions are not modelled. */
  const FloatTypes: set<string> := {"float32", "float64"}

  /** An `Other` is a type none of the listed cases name. */
  predicate WellTyped(input: Input)
  {
    input.Other? ==> input.typeName !in ListedTypes
  }

  /** An input the integer conversions cover: well typed, and not a float. */
  predicate Modelled(input: Input)
  {
    WellTyped(input) && (input.Other? ==> input.typeName !in FloatTypes)
  }

  /** The `%T` text of the input's type. */
  function TypeName(input: Input): (name: string)
    ensures input.Other? ==> name == input.typeName
  {
    match input
    case Str(_) => "string"
    case U8(_) => "uint8"
    case U16(_) => "uint16"
    case U32(_) => "uint32"
    case U64(_) => "uint64"
    case UInt(_) => "uint"
    case I8(_) => "int8"
    case I16(_) => "int16"
    case I32(_) => "int32"
    case IInt(_) => "int"
    case I64(_) => "int64"
    case IntPtr(_) => "*int"
    case Int64Ptr(_) => "*int64"
    case BoolIn(_) => "bool"
    case BoolPtr(_) => "*bool"
    case StrPtr(_) => "*string"
    case Other(name, _) => name
  }

  /** The number an integer-typed input holds; `None` for every other type. */
  function IntValue(input: Input): Option<int>
  {
    match input
    case U8(x) => Some(x)
    case U16(x) => Some(x)
    case U32(x) => Some(x)
    case U64(x) => Some(x)
    case UInt(x) => Some(x)
    case I8(x) => Some(x)
    case I16(x) => Some(x)
    case I32(x) => Some(x)
    case IInt(x) => Some(x)
    case I64(x) => Some(x)
    case _ => None
  }

  /** The integers that fit the target width are kept by Go's conversion to it. */
  lemma IntValueFits(input: Input)
    ensures IntValue(input).Some? && !input.U64? && !input.UInt? ==>
      ToInt64Bits(IntValue(input).value) == IntValue(input).value
    ensures input.U8? || input.U16? || input.I8? || input.I16? || input.I32? ==>
      ToInt32Bits(IntValue(input).value) == IntValue(input).value
  {
    if IntValue(input).Some? && !input.U64? && !input.UInt? {
      ToInt64BitsFits(IntValue(input).value);
    }
    if input.U8? || input.U16? || input.I8? || input.I16? || input.I32? {
      ToInt32BitsFits(IntValue(input).value);
    }
  }

  /** What a conversion does: returns a value and an error, or panics on a nil pointer. */
  datatype Outcome<T> = Returned(value: T, err: Option<GoError>) | Panicked

  /** `strconv.ParseInt(s, 0, bitSize)` and `strconv.ParseBool(s)`, which are not part of this model. */
  type ParseIntFn = (string, nat) -> (Int64, Option<GoError>)
  type ParseBoolFn = string -> (bool, Option<GoError>)

  /** `ErrConversionFailed.Instance(what).WithInner(err)`. */
  function ConversionError(what: string, err: GoError): (r: GoError)
    ensures r.Api? && r.e.id == ErrConversionFailedID && r.e.etype == EtError
    ensures r.e.inner == NewErrorFromError(Some(err))
    ensures r.e.message == Instance(ErrConversionFailed, [what]).message
  {
    Api(Instance(ErrConversionFailed, [what]).WithInner(Some(err)))
  }

  /** `ToInt32`: integers keep their low 32 bits; strings parse at 32 bits; its errors are not wrapped. */
  function ToInt32(input: Input, parseInt: ParseIntFn): (r: Outcome<Int32>)
    requires Modelled(input)
    ensures r.Returned?
    ensures IntValue(input).Some? ==> r == Returned(ToInt32Bits(IntValue(input).value), None)
    ensures input.Str? ==> var (n, e) := parseInt(input.s, 32);
      r == (if e.None? then Returned(ToInt32Bits(n), None) else Returned(0, e))
    ensures !input.Str? && IntValue(input).None? ==> r == Returned(0, Some(Plain("wrong type")))
  {
    var r: Outcome<Int32> :=
      match input
      case Str(s) =>
        var (n, e) := parseInt(s, 32);
        if e.None? then Returned(ToInt32Bits(n), None) else Returned(0, e)
      case U8(x) => Returned(x as Int32, None)
      case U16(x) => Returned(x as Int32, None)
      case U32(x) => Returned(ToInt32Bits(x), None)
      case U64(x) => Returned(ToInt32Bits(x), None)
      case UInt(x) => Returned(ToInt32Bits(x), None)
      case I8(x) => Returned(x as Int32, None)
      case I16(x) => Returned(x as Int32, None)
      case I32(x) => Returned(x as Int32, None)
      case IInt(x) => Returned(ToInt32Bits(x), None)
      case I64(x) => Returned(ToInt32Bits(x), None)
      case _ => Returned(0, Some(Plain("wrong type")))
    ;
    IntValueFits(input);
    r
  }

  /** The switch of `ToInt` before its errors are wrapped. */
  function ToIntRaw(input: Input, parseInt: ParseIntFn): Outcome<Int64>
  {
    var r: Outcome<Int64> :=
      match input
      case Str(s) =>
        var (n, e) := parseInt(s, 64);
        if e.None? then Returned(n, None) else Returned(0, e)
      case U8(x) => Returned(x as Int64, None)
      case U16(x) => Returned(x as Int64, None)
      case U32(x) => Returned(x as Int64, None)
      case U64(x) => Returned(ToInt64Bits(x), None)
      case I8(x) => Returned(x as Int64, None)
      case I16(x) => Returned(x as Int64, None)
      case I32(x) => Returned(x as Int64, None)
      case UInt(x) => Returned(ToInt64Bits(x), None)
      case IInt(x) => Returned(x as Int64, None)
      case IntPtr(p) => if p.Some? then Returned(p.value, None) else Panicked
      case I64(x) => Returned(x as Int64, None)
      case _ => Returned(0, Some(Plain("cannot convert " + TypeName(input) + " to int")))
    ;
    r
  }

  /** Every error leaves the function wrapped under `what`. */
  function Wrap<T>(what: string, r: Outcome<T>): (w: Outcome<T>)
    ensures r.Panicked? <==> w.Panicked?
    ensures r.Returned? ==> w.value == r.value && (w.err.None? <==> r.err.None?)
    ensures r.Returned? && r.err.Some? ==> w.err == Some(ConversionError(what, r.err.value))
  {
    match r
    case Returned(v, Some(e)) => Returned(v, Some(ConversionError(what, e)))
    case _ => r
  }

  /**
   * `ToInt` (`int` is 64 bits wide): integers convert by Go's rules, `*int`
   * is dereferenced, strings parse at 64 bits, other types fail; every
   * error is a conversion-failed `*Error` around the original.
   */
  function ToInt(input: Input, parseInt: ParseIntFn): (r: Outcome<Int64>)
    requires Modelled(input)
    ensures r.Panicked? <==> input == IntPtr(None)
    ensures IntValue(input).Some? ==> r == Returned(ToInt64Bits(IntValue(input).value), None)
    ensures input.IntPtr? && input.intTarget.Some? ==> r == Returned(input.intTarget.value, None)
    ensures r.Returned? && r.err.Some? ==> r.value == 0 && r.err.value.Api? && r.err.value.e.id == ErrConversionFailedID
    ensures input.Str? ==> var (n, e) := parseInt(input.s, 64);
      r == (if e.None? then Returned(n, None) else Returned(0, Some(ConversionError("to int", e.value))))
    ensures !input.Str? && !input.IntPtr? && IntValue(input).None? ==>
      r == Returned(0, Some(ConversionError("to int", Plain("cannot convert " + TypeName(input) + " to int"))))
  {
    IntValueFits(input);
    Wrap("to int", ToIntRaw(input, parseInt))
  }

  /** The switch of `ToInt64` before its errors are wrapped. */
  function ToInt64Raw(input: Input, parseInt: ParseIntFn): Outcome<Int64>
  {
    var r: Outcome<Int64> :=
      match input
      case Str(s) => var (n, e) := parseInt(s, 64); Returned(n, e)
      case U8(x) => Returned(x as Int64, None)
      case U16(x) => Returned(x as Int64, None)
      case U32(x) => Returned(x as Int64, None)
      case U64(x) => Returned(ToInt64Bits(x), None)
      case UInt(x) => Returned(ToInt64Bits(x), None)
      case I8(x) => Returned(x as Int64, None)
      case I16(x) => Returned(x as Int64, None)
      case I32(x) => Returned(x as Int64, None)
      case IInt(x) => Returned(x as Int64, None)
      case I64(x) => Returned(x as Int64, None)
      case Int64Ptr(p) => if p.Some? then Returned(p.value, None) else Panicked
      case _ => Returned(0, Some(Plain("cannot convert " + TypeName(input) + " to int64")))
    ;
    r
  }

  /**
   * `ToInt64`: as `ToInt`, but it dereferences `*int64` instead of `*int`
   * and returns the parser's value even when parsing fails.
   */
  function ToInt64(input: Input, parseInt: ParseIntFn): (r: Outcome<Int64>)
    requires Modelled(input)
    ensures r.Panicked? <==> input == Int64Ptr(None)
    ensures IntValue(input).Some? ==> r == Returned(ToInt64Bits(IntValue(input).value), None)
    ensures input.Int64Ptr? && input.int64Target.Some? ==> r == Returned(input.int64Target.value, None)
    ensures r.Returned? && r.err.Some? ==> r.err.value.Api? && r.err.value.e.id == ErrConversionFailedID
    ensures input.Str? ==> var (n, e) := parseInt(input.s, 64);
      r == Returned(n, if e.None? then None else Some(ConversionError("to int64", e.value)))
    ensures !input.Str? && !input.Int64Ptr? && IntValue(input).None? ==>
      r == Returned(0, Some(ConversionError("to int64", Plain("cannot convert " + TypeName(input) + " to int64"))))
  {
    IntValueFits(input);
    Wrap("to int64", ToInt64Raw(input, parseInt))
  }

  /** `ToBool`: a bool is itself, `*bool` is dereferenced, an `int` is compared with 0, a string is parsed. */
  function ToBool(input: Input, parseBool: ParseBoolFn): (r: Outcome<bool>)
    requires WellTyped(input)
    ensures r.Panicked? <==> input == BoolPtr(None)
    ensures input.BoolIn? ==> r == Returned(input.b, None)
    ensures input.BoolPtr? && input.boolTarget.Some? ==> r == Returned(input.boolTarget.value, None)
    ensures input.IInt? ==> r == Returned(input.i != 0, None)
    ensures input.Str? ==> var (b, e) := parseBool(input.s);
      r == Returned(b, if e.None? then None else Some(ConversionError("to bool", e.value)))
    ensures !(input.Str? || input.BoolIn? || input.BoolPtr? || input.IInt?) ==>
      r == Returned(false, Some(ConversionError("to bool", Plain("the type " + TypeName(input) + " could not be converted to bool"))))
  {
    var raw: Outcome<bool> := match input
      case Str(s) => var (b, e) := parseBool(s); Returned(b, e)
      case BoolIn(b) => Returned(b, None)
      case BoolPtr(p) => if p.Some? then Returned(p.value, None) else Panicked
      case IInt(x) => Returned(x != 0, None)
      case _ => Returned(false, Some(Plain("the type " + TypeName(input) + " could not be converted to bool")));
    Wrap("to bool", raw)
  }

  /** `ToString`: a string is itself, a nil `*string` is "", a `fmt.Stringer` gives `String()`. */
  function ToString(input: Input): (r: Outcome<string>)
    requires WellTyped(input)
    ensures r.Returned?
    ensures input.Str? ==> r == Returned(input.s, None)
    ensures input.StrPtr? ==> r == Returned(input.strTarget.GetOr(""), None)
    ensures input.Other? && input.stringer.Some? ==> r == Returned(input.stringer.value, None)
    ensures r.err.Some? <==> !input.Str? && !input.StrPtr? && !(input.Other? && input.stringer.Some?)
    ensures r.err.Some? ==> r.value == ""
    ensures r.err.Some? ==>
      r.err == Some(ConversionError("to string", Plain("the type " + TypeName(input) + " could not be converted to string")))
  {
    var raw: Outcome<string> := match input
      case Str(s) => Returned(s, None)
      case StrPtr(p) => Returned(if p.Some? then p.value else "", None)
      case Other(_, Some(text)) => Returned(text, None)
      case _ => Returned("", Some(Plain("the type " + TypeName(input) + " could not be converted to string")));
    Wrap("to string", raw)
  }

  /** Signed integers, and unsigned ones narrower than 64 bits, come out of `ToInt64` unchanged. */
  lemma ToInt64KeepsValue(input: Input, parseInt: ParseIntFn)
    requires input.U8? || input.U16? || input.U32? || input.I8? || input.I16? || input.I32? || input.IInt? || input.I64?
    ensures ToInt64(input, parseInt) == Returned(IntValue(input).value, None)
  {
    ToInt64BitsFits(IntValue(input).value);
  }

  /** A 64-bit unsigned value is reread as two's complement: the largest comes out as -1. */
  lemma ToInt64Unsigned(x: Uint64, parseInt: ParseIntFn)
    ensures ToInt64(U64(x), parseInt) == ToInt64(UInt(x), parseInt)
    ensures ToInt64(U64(x), parseInt).value == if x < 0x8000_0000_0000_0000 then x else x - TWO_64
    ensures ToInt64(U64(MaxUint64), parseInt) == Returned(-1, None)
  {
  }

  /** `ToInt32` of an integer is the low 32 bits of what `ToInt64` gives for it. */
  lemma ToInt32IsLowBitsOfToInt64(input: Input, parseInt: ParseIntFn)
    requires IntValue(input).Some?
    ensures ToInt32(input, parseInt).value == ToInt32Bits(ToInt64(input, parseInt).value)
    ensures ToInt32(input, parseInt).err.None?
  {
    var v := IntValue(input).value;
    ToInt32BitsCongruent(ToInt64Bits(v), v);
  }

  /** `ToInt` and `ToInt64` agree except on strings the parser rejects and on the pointer types each accepts. */
  lemma ToIntMatchesToInt64(input: Input, parseInt: ParseIntFn)
    requires Modelled(input)
    ensures IntValue(input).Some? ==> ToInt(input, parseInt) == ToInt64(input, parseInt)
    ensures input.Str? ==> (parseInt(input.s, 64).1.None? ==> ToInt(input, parseInt) == ToInt64(input, parseInt))
    ensures input.IntPtr? && input.intTarget.Some? ==> ToInt(input, parseInt).err.None? && ToInt64(input, parseInt).err.Some?
    ensures input.Int64Ptr? && input.int64Target.Some? ==> ToInt64(input, parseInt).err.None? && ToInt(input, parseInt).err.Some?
  {
  }
}
