/**
 * The validators of the default (debug) build: an `IValidationDeep` item is
 * validated deeply, an `IValidation` one plainly, and any other item through
 * a reflective lookup of `ValidateDeep`, then `Validate`.
 */
module ValidateDebug {
  import opened Wrappers
  import opened Errors
  import opened Validation

  /** The method a reflective lookup settles on: `ValidateDeep` if found, else `Validate`, else none. */
  function ReflectiveMethod(item: Item): (m: Option<Returned>)
    requires item.Item?
    ensures "ValidateDeep" in item.methods ==> m == Some(item.methods["ValidateDeep"])
    ensures "ValidateDeep" !in item.methods && "Validate" in item.methods ==> m == Some(item.methods["Validate"])
    ensures m.None? <==> "ValidateDeep" !in item.methods && "Validate" !in item.methods
  {
    if "ValidateDeep" in item.methods then Some(item.methods["ValidateDeep"])
    else if "Validate" in item.methods then Some(item.methods["Validate"])
    else None
  }

  /** `Validate(item)`. */
  function Validate(item: Item): (err: Option<GoError>)
    ensures IsNilFixed(item) ==> err.None?
    ensures !ImplementsValidation(item) && (item.NilItem? || ReflectiveMethod(item).None?) ==> err.None?
  {
    if IsNilFixed(item) then None
    else if ImplementsValidationDeep(item) then item.validateDeep.value
    else if ImplementsValidation(item) then item.validate.value
    else
      var found := ReflectiveMethod(item);
      if found.Some? then ErrorOf(CallMethodWithItem(found)) else None
  }

  /** `ValidateLight(item)`: only `IValidation.Validate` is ever called. */
  function ValidateLight(item: Item): (err: Option<GoError>)
    ensures IsNilFixed(item) || !ImplementsValidation(item) ==> err.None?
    ensures !IsNilFixed(item) && ImplementsValidation(item) ==> err == item.validate.value
  {
    if !IsNilFixed(item) && ImplementsValidation(item) then item.validate.value else None
  }

  /** `ValidateNotNil(item)`. */
  function ValidateNotNil(item: Item): (err: Option<GoError>)
    ensures IsNilFixed(item) ==> err == Some(ItemNull)
    ensures !IsNilFixed(item) ==> err == Validate(item)
  {
    if IsNilFixed(item) then Some(ItemNull) else Validate(item)
  }

  /** `ValidateNotNilLight(item)`. */
  function ValidateNotNilLight(item: Item): (err: Option<GoError>)
    ensures IsNilFixed(item) ==> err == Some(ItemNull)
    ensures !IsNilFixed(item) ==> err == ValidateLight(item)
  {
    if IsNilFixed(item) then Some(ItemNull)
    else if ImplementsValidation(item) then item.validate.value
    else None
  }

  /** `MustValidate(item)`: panics exactly when `Validate` reports an error, with that error. */
  function MustValidate(item: Item): (c: Completion)
    ensures c.PanicsWith? <==> Validate(item).Some?
    ensures c.PanicsWith? ==> Some(c.value) == Validate(item)
  {
    PanicOnError(Validate(item))
  }

  /** `MustValidateNotNil(item)`: panics exactly when `ValidateNotNil` reports an error, with that error. */
  function MustValidateNotNil(item: Item): (c: Completion)
    ensures c.PanicsWith? <==> ValidateNotNil(item).Some?
    ensures c.PanicsWith? ==> Some(c.value) == ValidateNotNil(item)
  {
    PanicOnError(ValidateNotNil(item))
  }

  // ------------------------------------------------ which method decides

  /**
   * An `IValidationDeep` item is decided by `ValidateDeep` alone: what its
   * `Validate` or any reflectively found method would return does not matter.
   */
  lemma DeepItemUsesOnlyValidateDeep(item: Item, other: Option<GoError>, methods: map<string, Returned>)
    requires !IsNilFixed(item) && ImplementsValidationDeep(item)
    ensures Validate(item) == item.validateDeep.value
    ensures Validate(item.(validate := Some(other), methods := methods)) == Validate(item)
  {
  }

  /** Otherwise an `IValidation` item is decided by its `Validate`; reflection is not consulted. */
  lemma PlainItemUsesOnlyValidate(item: Item, methods: map<string, Returned>)
    requires !IsNilFixed(item) && ImplementsValidation(item) && !ImplementsValidationDeep(item)
    ensures Validate(item) == item.validate.value == ValidateLight(item)
    ensures Validate(item.(methods := methods)) == Validate(item)
  {
  }

  /**
   * An item implementing neither interface is decided by the method the
   * reflective lookup finds, `ValidateDeep` before `Validate`; a method that
   * returns something other than an error yields nil.
   */
  lemma ReflectivePrefersDeep(item: Item)
    requires !IsNilFixed(item) && !ImplementsValidation(item)
    ensures "ValidateDeep" in item.methods ==> Validate(item) == ErrorOf(item.methods["ValidateDeep"])
    ensures "ValidateDeep" !in item.methods && "Validate" in item.methods ==>
      Validate(item) == ErrorOf(item.methods["Validate"])
    ensures Validate(item).Some? ==> exists name :: name in item.methods && item.methods[name].ErrorReturned?
  {
  }

  /** A nil item yields no error whatever methods it has, and calls none of them. */
  lemma NilItemNeverValidated(item: Item, validate: Option<Option<GoError>>, deep: Option<Option<GoError>>,
                              methods: map<string, Returned>)
    requires item.Item? && IsNilFixed(item)
    ensures Validate(item.(validate := validate, validateDeep := deep, methods := methods)) == None
    ensures ValidateLight(item.(validate := validate, validateDeep := deep, methods := methods)) == None
  {
  }

  /** `ValidateLight` never looks at `ValidateDeep`, nor at what reflection finds. */
  lemma LightIgnoresDeep(item: Item, deep: Option<Option<GoError>>, methods: map<string, Returned>)
    requires item.Item?
    ensures ValidateLight(item.(validateDeep := deep, methods := methods)) == ValidateLight(item)
    ensures ValidateNotNilLight(item.(validateDeep := deep, methods := methods)) == ValidateNotNilLight(item)
  {
  }

  /** Both not-nil validators turn the nil interface into the argument-null error, and so both `Must` forms panic on it. */
  lemma NilInterfaceRejected()
    ensures ValidateNotNil(NilItem) == ValidateNotNilLight(NilItem) == Some(ItemNull)
    ensures MustValidateNotNil(NilItem) == PanicsWith(ItemNull)
    ensures MustValidate(NilItem) == Completes
  {
  }
}
