/**
 * The validators of the `RELEASE` build: only `IValidation.Validate` is ever
 * called, `ValidateLight` does nothing, and `ValidateRequiredOpt` only
 * rejects a nil item.
 */
module ValidateRelease {
  import opened Wrappers
  import opened Errors
  import opened Validation
  import ValidateDebug

  /** `Validate(item)`: no deep and no reflective validation in this build. */
  function Validate(item: Item): (err: Option<GoError>)
    ensures IsNilFixed(item) || !ImplementsValidation(item) ==> err.None?
    ensures !IsNilFixed(item) && ImplementsValidation(item) ==> err == item.validate.value
  {
    if !IsNilFixed(item) && ImplementsValidation(item) then item.validate.value else None
  }

  /** `ValidateLight(item)`: always nil. */
  function ValidateLight(item: Item): (err: Option<GoError>)
    ensures err.None?
  {
    None
  }

  /** `ValidateNotNil(item)`. */
  function ValidateNotNil(item: Item): (err: Option<GoError>)
    ensures IsNilFixed(item) ==> err == Some(ItemNull)
    ensures !IsNilFixed(item) ==> err == Validate(item)
  {
    if IsNilFixed(item) then Some(ItemNull) else Validate(item)
  }

  /** `ValidateRequiredOpt(item)`: the argument-null error exactly for a nil item; nothing is validated. */
  function ValidateRequiredOpt(item: Item): (err: Option<GoError>)
    ensures err.Some? <==> IsNilFixed(item)
    ensures err.Some? ==> err == Some(ItemNull)
  {
    if IsNilFixed(item) then Some(ItemNull) else None
  }

  /**
   * `MustValidate(item)` in this build. `validation.go` defines it once, but
   * it calls whichever `Validate` the build tag selects, so each build's
   * module has its own copy over its own validators.
   */
  function MustValidate(item: Item): (c: Completion)
    ensures c.PanicsWith? <==> Validate(item).Some?
    ensures c.PanicsWith? ==> Some(c.value) == Validate(item)
  {
    PanicOnError(Validate(item))
  }

  /** `MustValidateNotNil(item)` in this build, over this build's `ValidateNotNil`, as for `MustValidate`. */
  function MustValidateNotNil(item: Item): (c: Completion)
    ensures c.PanicsWith? <==> ValidateNotNil(item).Some?
    ensures c.PanicsWith? ==> Some(c.value) == ValidateNotNil(item)
  {
    PanicOnError(ValidateNotNil(item))
  }

  /** `Validate` never looks at `ValidateDeep` or at what reflection finds. */
  lemma ValidateIgnoresDeep(item: Item, deep: Option<Option<GoError>>, methods: map<string, Returned>)
    requires item.Item?
    ensures Validate(item.(validateDeep := deep, methods := methods)) == Validate(item)
  {
  }

  /** `ValidateRequiredOpt` depends on nothing but whether the item is nil. */
  lemma RequiredOptNeverValidates(item: Item, validate: Option<Option<GoError>>, deep: Option<Option<GoError>>,
                                  methods: map<string, Returned>)
    requires item.Item?
    ensures ValidateRequiredOpt(item.(validate := validate, validateDeep := deep, methods := methods))
      == ValidateRequiredOpt(item)
  {
  }

  /**
   * The two builds agree on `Validate` and `ValidateNotNil` for every item
   * that is nil or is validated through `IValidation` alone; the release
   * `Validate` is the debug `ValidateLight`.
   */
  lemma BuildsAgree(item: Item)
    ensures Validate(item) == ValidateDebug.ValidateLight(item)
    ensures IsNilFixed(item) || (ImplementsValidation(item) && !ImplementsValidationDeep(item)) ==>
      Validate(item) == ValidateDebug.Validate(item) && ValidateNotNil(item) == ValidateDebug.ValidateNotNil(item)
  {
  }
}
