/** The package's error IDs and its table of error templates. */
module ApiErrors {
  import opened Errors
  import opened ErrorTemplates

  const ErrInternalErrorID := "api/internal"
  const ErrNotImplementedID := "api/not-implemented"
  const ErrArgumentExceptionID := "api/arg/exception"
  const ErrArgumentNullID := "api/arg/null"
  const ErrArgumentEmptyID := "api/arg/empty"
  const ErrArgumentOutOfRangeID := "api/arg/range"
  const ErrRequiredValueMissingID := "api/data/required"
  const ErrDataIntegrityID := "api/data/bad"
  const ErrConversionFailedID := "api/data/failed/conversion"
  const ErrDataValidationFailedID := "api/data/failed/validation"
  const ErrAccessDeniedID := "api/resource/access-denied"
  const ErrResourceNotFoundID := "api/resource/not-found"

  const ErrInternalError := NewErrorTemplate(
    ErrInternalErrorID, "an unexpected internal error occurred", StatusInternalServerError, false)
  const ErrArgumentException := NewErrorTemplate(
    ErrArgumentExceptionID, "the argument, '%s', cannot be %s", StatusBadRequest, false)
  const ErrArgumentNull := NewErrorTemplate(
    ErrArgumentNullID, "the argument, %s, cannot be null", StatusBadRequest, false)
  const ErrArgumentEmpty := NewErrorTemplate(
    ErrArgumentEmptyID, "the argument, %s, is empty", StatusBadRequest, false)
  const ErrArgumentOutOfRange := NewErrorTemplate(
    ErrArgumentOutOfRangeID, "the argument, '%s', is out of range", StatusBadRequest, false)
  const ErrAccessDenied := NewErrorTemplate(
    ErrAccessDeniedID, "access to a requested resource is denied", StatusForbidden, false)
  const ErrRequiredValueMissing := NewErrorTemplate(
    ErrRequiredValueMissingID, "the required field '%s' is missing", StatusBadRequest, false)
  const ErrDataIntegrity := NewErrorTemplate(
    ErrDataIntegrityID, "the value for '%s' is unexpected", StatusInternalServerError, false)
  const ErrResourceNotFound := NewErrorTemplate(
    ErrResourceNotFoundID, "the resource '%s' was not found", StatusNotFound, false)
  const ErrNotImplemented := NewErrorTemplate(
    ErrNotImplementedID, "'%s' is not implemented", StatusNotImplemented, false)
  const ErrConversionFailed := NewErrorTemplate(
    ErrConversionFailedID, "the conversion '%s' could not be performed", StatusBadRequest, false)
  const ErrDataValidationFailed := NewErrorTemplate(
    ErrDataValidationFailedID, "the validation of '%s' failed", StatusBadRequest, false)

  /** Every ID the package declares, in declaration order. */
  const IDs: seq<string> := [
    ErrInternalErrorID, ErrNotImplementedID, ErrArgumentExceptionID, ErrArgumentNullID,
    ErrArgumentEmptyID, ErrArgumentOutOfRangeID, ErrRequiredValueMissingID, ErrDataIntegrityID,
    ErrConversionFailedID, ErrDataValidationFailedID, ErrAccessDeniedID, ErrResourceNotFoundID]

  /** The template declared for each ID, in the order of `IDs`. */
  const Templates: seq<ErrorTemplate> := [
    ErrInternalError, ErrNotImplemented, ErrArgumentException, ErrArgumentNull,
    ErrArgumentEmpty, ErrArgumentOutOfRange, ErrRequiredValueMissing, ErrDataIntegrity,
    ErrConversionFailed, ErrDataValidationFailed, ErrAccessDenied, ErrResourceNotFound]

  /** No two declared IDs are equal, and none is the generic or the OK ID. */
  lemma IDsDistinct()
    ensures forall i, j :: 0 <= i < j < |IDs| ==> IDs[i] != IDs[j]
    ensures ErrGenericAPIErrorID !in IDs && StatusOKID !in IDs
  {
  }

  /** Each template carries the ID of its own constant, is an error, and is not transient. */
  lemma TemplatesAreErrors()
    ensures |Templates| == |IDs|
    ensures forall i :: 0 <= i < |Templates| ==> Templates[i].id == IDs[i]
    ensures forall t :: t in Templates ==> t.etype == EtError && !t.transient
  {
  }

  /** The status codes the table declares. */
  lemma TemplateStatusCodes()
    ensures ErrArgumentException.httpStatus == ErrArgumentNull.httpStatus == ErrArgumentEmpty.httpStatus
      == ErrArgumentOutOfRange.httpStatus == ErrRequiredValueMissing.httpStatus
      == ErrConversionFailed.httpStatus == ErrDataValidationFailed.httpStatus == 400
    ensures ErrAccessDenied.httpStatus == 403
    ensures ErrResourceNotFound.httpStatus == 404
    ensures ErrNotImplemented.httpStatus == 501
    ensures ErrInternalError.httpStatus == ErrDataIntegrity.httpStatus == 500
    ensures forall t :: t in Templates ==> t.httpStatus != 0
  {
  }

  lemma ArgumentNullFormat()
    ensures ErrArgumentNull.messageFmt == "the argument, " + "%s" + ", cannot be null"
  {
  }

  lemma ArgumentNullPlain()
    ensures '%' !in "the argument, " && '%' !in ", cannot be null"
  {
  }

  /** The instance the validators return for a nil item. */
  lemma ArgumentNullInstance(name: string)
    ensures Instance(ErrArgumentNull, [name]).id == "api/arg/null"
    ensures Instance(ErrArgumentNull, [name]).message == "the argument, " + name + ", cannot be null"
    ensures Ptr(Instance(ErrArgumentNull, [name])).GetHTTPStatusCode() == 400
  {
    ArgumentNullFormat();
    ArgumentNullPlain();
    InstanceOneArg(ErrArgumentNull, "the argument, ", name, ", cannot be null");
  }

  /** The instance the conversions wrap their errors in: a 400 error under the conversion ID. */
  lemma ConversionFailedInstance(what: string)
    ensures Instance(ErrConversionFailed, [what]).id == "api/data/failed/conversion"
    ensures Ptr(Instance(ErrConversionFailed, [what])).IsError()
    ensures Ptr(Instance(ErrConversionFailed, [what])).GetHTTPStatusCode() == 400
  {
  }
}
