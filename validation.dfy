/**
 * What the validators of the `data` package see of an item: whether it is
 * nil, which validation methods it has, and what calling them returns.
 * Reflection is replaced by these capability records; both builds share
 * `isNilFixed` and the reflective call helpers defined here.
 */
module Validation {
  import opened Wrappers
  import opened Errors
  import opened ErrorTemplates
  import opened ApiErrors

  /** The `reflect.Kind` of a non-nil item, as far as `isNilFixed` tells kinds apart. */
  datatype Kind =
    | PointerKind
    | MapKind
    | ArrayKind
    | ChanKind
    | SliceKind
    | StructKind
      /** any other kind: scalars, strings, functions, ... */
    | OtherKind

  /** What a method found by reflection returns, as the `interface{}` `CallMethodWithItem` yields. */
  datatype Returned =
    | NilReturned
    | ErrorReturned(err: GoError)
      /** a non-nil value that is not an `error` */
    | OtherReturned

  /**
   * An item handed to a validator: the nil interface, or a value of some kind.
   * `isNil` is what `reflect.ValueOf(item).IsNil()` reports for the kinds that
   * have a nil value. `validate` is present when the item implements
   * `IValidation`, holding what `Validate()` returns; `validateDeep` likewise
   * for the extra method of `IValidationDeep`; `methods` are the methods a
   * reflective lookup by name finds, on the value or on a pointer to it.
   */
  datatype Item =
    | NilItem
    | Item(
        kind: Kind,
        isNil: bool,
        validate: Option<Option<GoError>>,
        validateDeep: Option<Option<GoError>>,
        methods: map<string, Returned>)

  /** `item.(IValidation)` succeeds. */
  predicate ImplementsValidation(item: Item)
  {
    item.Item? && item.validate.Some?
  }

  /** `item.(IValidationDeep)` succeeds; the interface embeds `IValidation`. */
  predicate ImplementsValidationDeep(item: Item)
  {
    ImplementsValidation(item) && item.validateDeep.Some?
  }

  /** A computation that returns a value or panics. */
  datatype Outcome<T> = Returns(value: T) | Panics

  /** The kinds `isNilFixed` hands to `IsNil`. */
  predicate AskedIsNil(k: Kind)
  {
    k.PointerKind? || k.MapKind? || k.ArrayKind? || k.ChanKind? || k.SliceKind?
  }

  /**
   * `isNilFixed` as written: the nil interface is nil; for pointer, map,
   * array, channel and slice kinds the answer is `IsNil()`, which panics on
   * an array; every other kind is not nil.
   */
  function IsNilFixedAsWritten(item: Item): (r: Outcome<bool>)
    ensures r.Panics? <==> item.Item? && item.kind.ArrayKind?
  {
    match item
    case NilItem => Returns(true)
    case Item(kind, isNil, _, _, _) =>
      if AskedIsNil(kind) then
        if kind.ArrayKind? then Panics else Returns(isNil)
      else Returns(false)
  }

  /** An array value, which can never be nil, makes the function as written panic. */
  lemma ArrayMakesIsNilPanic(validate: Option<Option<GoError>>, methods: map<string, Returned>)
    ensures IsNilFixedAsWritten(Item(ArrayKind, false, validate, None, methods)) == Panics
  {
  }

  /** `isNilFixed` as evidently intended: array values are not nil. */
  function IsNilFixed(item: Item): (r: bool)
    ensures item.NilItem? ==> r
    ensures r ==> item.NilItem? || item.isNil
    ensures item.Item? && (item.kind.ArrayKind? || !AskedIsNil(item.kind)) ==> !r
  {
    match item
    case NilItem => true
    case Item(kind, isNil, _, _, _) =>
      (kind.PointerKind? || kind.MapKind? || kind.ChanKind? || kind.SliceKind?) && isNil
  }

  /**
   * The corrected function is true of the nil interface and of nil pointers,
   * maps, channels and slices, and of nothing else; it never panics and
   * agrees with the function as written wherever that one returns.
   */
  lemma IsNilFixedMeaning(item: Item)
    ensures IsNilFixed(item) <==>
      item.NilItem? || (item.kind in {PointerKind, MapKind, ChanKind, SliceKind} && item.isNil)
    ensures IsNilFixedAsWritten(item).Returns? ==> IsNilFixedAsWritten(item).value == IsNilFixed(item)
    ensures item.Item? && item.kind in {ArrayKind, StructKind, OtherKind} ==> !IsNilFixed(item)
  {
  }

  /** `_err.(error)` after the reflective call: an error is kept, anything else gives nil. */
  function ErrorOf(r: Returned): (err: Option<GoError>)
    ensures err.Some? <==> r.ErrorReturned?
    ensures err.Some? ==> err.value == r.err
  {
    if r.ErrorReturned? then Some(r.err) else None
  }

  /** `CallMethodWithItem(i, method)`: the call's result for a valid method, nil for an invalid one. */
  function CallMethodWithItem(found: Option<Returned>): (r: Returned)
    ensures found.None? ==> r == NilReturned
    ensures found.Some? ==> r == found.value
  {
    if found.Some? then found.value else NilReturned
  }

  /**
   * `CallMethod(i, methodName)`: nil when no method of that name is found,
   * otherwise what calling it returns. Looking up a method on the nil
   * interface or through a nil pointer panics inside reflection.
   */
  function CallMethod(item: Item, methodName: string): (r: Outcome<Returned>)
    ensures r.Panics? <==> item.NilItem? || (item.kind.PointerKind? && item.isNil)
    ensures r.Returns? && methodName !in item.methods ==> r.value == NilReturned
    ensures r.Returns? && methodName in item.methods ==> r.value == item.methods[methodName]
  {
    if item.NilItem? || (item.kind.PointerKind? && item.isNil) then Panics
    else
      var found := if methodName in item.methods then Some(item.methods[methodName]) else None;
      Returns(CallMethodWithItem(found))
  }

  /** `errors.ErrArgumentNull.Instance("item")`, the error both builds return for a nil item. */
  const ItemNull: GoError := Api(Instance(ErrArgumentNull, ["item"]))

  lemma ItemNullIsArgumentNull()
    ensures ItemNull.Api? && ItemNull.e.id == ErrArgumentNullID
    ensures Ptr(ItemNull.e).IsError() && Ptr(ItemNull.e).GetHTTPStatusCode() == 400
    ensures ItemNull.e.message == "the argument, " + "item" + ", cannot be null"
  {
    ArgumentNullInstance("item");
  }

  /** How `MustValidate` and `MustValidateNotNil` end: normally, or panicking with the error. */
  datatype Completion = Completes | PanicsWith(value: GoError)

  /** `if errors.IsError(err) { panic(err) }`. */
  function PanicOnError(err: Option<GoError>): (c: Completion)
    ensures c.PanicsWith? <==> IsError(err)
    ensures c.PanicsWith? ==> Some(c.value) == err
  {
    if IsError(err) then PanicsWith(err.value) else Completes
  }
}
