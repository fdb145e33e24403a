/**
 * The errors package: the context-rich `*Error` value, its rendering, the
 * builders that change it in place, and the free functions that inspect a
 * Go `error`.
 */
module Errors {
  import opened Wrappers
  import opened GoInts
  import opened Values
  import Fmt

  // ---------------------------------------------------------------- types

  /** Go's `ErrorType`, an alias of the 64-bit `uint`; its values are bit flags. */
  type ErrorType = bv64

  const EtError: ErrorType := 0x8000_0000
  const EtWarning: ErrorType := 0x4000_0000
  const EtReserved2: ErrorType := 0x2000_0000
  const EtReserved1: ErrorType := 0x1000_0000
  const EtStatus: ErrorType := 0
  const ErrorTypeMask: ErrorType := 0xF000_0000

  /** The tags are bits 31, 30, 29 and 28 (and no bit), all inside the mask. */
  lemma TypeTagsInsideMask()
    ensures EtError == 1 << 31 && EtWarning == 1 << 30
    ensures EtReserved2 == 1 << 29 && EtReserved1 == 1 << 28
    ensures EtError & ErrorTypeMask == EtError && EtWarning & ErrorTypeMask == EtWarning
    ensures EtReserved2 & ErrorTypeMask == EtReserved2 && EtReserved1 & ErrorTypeMask == EtReserved1
    ensures EtStatus & ErrorTypeMask == EtStatus
  {
  }

  // HTTP status codes used by the package (net/http).
  const StatusOK: Int64 := 200
  const StatusBadRequest: Int64 := 400
  const StatusForbidden: Int64 := 403
  const StatusNotFound: Int64 := 404
  const StatusInternalServerError: Int64 := 500
  const StatusNotImplemented: Int64 := 501

  const StatusOKID := "api/ok"
  const ErrGenericAPIErrorID := "api/error"

  /** The separator `Error()` puts between an error and its inner error. */
  const InnerSeparator := "\n\t-> "

  /** The fields of an `Error`. The inner error is held as a value. */
  datatype ErrorRecord = ErrorRecord(
    id: string,
    etype: ErrorType,
    message: string,
    httpStatus: Int64,
    transient: bool,
    inner: ErrorPtr,
    context: Option<map<string, Value>>,
    code: Int64)
  {
    // The new value of the receiver after each in-place builder.

    /** Only the message changes. */
    function WithMessage(message: string): (r: ErrorRecord)
      ensures r.message == message
      ensures r.(message := this.message) == this
    {
      this.(message := message)
    }

    /** A nil inner error leaves the record alone; any other is converted to an `*Error` and stored. */
    function WithInner(inner: Option<GoError>): (r: ErrorRecord)
      ensures inner.None? ==> r == this
      ensures inner.Some? ==> r.inner.Ptr? && r.inner == NewErrorFromError(inner)
      ensures r.(inner := this.inner) == this
    {
      if inner.None? then this else this.(inner := NewErrorFromError(inner))
    }

    /** The context exists afterwards, holds every given pair and keeps the other old pairs; nothing else changes. */
    function WithContext(context: map<string, Value>): (r: ErrorRecord)
      ensures r.context.Some?
      ensures r.context.value.Keys == this.context.GetOr(map[]).Keys + context.Keys
      ensures forall k :: k in context ==> r.context.value[k] == context[k]
      ensures forall k :: k in this.context.GetOr(map[]) && k !in context ==>
        r.context.value[k] == this.context.GetOr(map[])[k]
      ensures r.(context := this.context) == this
    {
      this.(context := Some(MergeContext(this.context, context)))
    }

    /** The context exists afterwards and maps `key` to `value`; the other pairs and fields are kept. */
    function WithContextValue(key: string, value: Value): (r: ErrorRecord)
      ensures r.context.Some? && r.context.value.Keys == this.context.GetOr(map[]).Keys + {key}
      ensures r.context.value[key] == value
      ensures forall k :: k in this.context.GetOr(map[]) && k != key ==> r.context.value[k] == this.context.GetOr(map[])[k]
      ensures r.(context := this.context) == this
    {
      this.(context := Some(this.context.GetOr(map[])[key := value]))
    }

    /** Only the transient flag changes. */
    function WithTransient(isTransient: bool): (r: ErrorRecord)
      ensures Ptr(r).IsTransient() == isTransient
      ensures r.(transient := this.transient) == this
    {
      this.(transient := isTransient)
    }

    /** Only the status changes; a non-zero one is what `GetHTTPStatusCode` then reports. */
    function WithHTTPStatus(httpStatus: Int64): (r: ErrorRecord)
      ensures r.(httpStatus := this.httpStatus) == this
      ensures httpStatus != 0 ==> Ptr(r).GetHTTPStatusCode() == httpStatus
      ensures httpStatus == 0 ==> Ptr(r).GetHTTPStatusCode() == (if r.etype == EtError then StatusInternalServerError else StatusOK)
    {
      this.(httpStatus := httpStatus)
    }
  }

  /** A Go `*Error`: nil, or a pointer to an `Error`. */
  datatype ErrorPtr = NilError | Ptr(rec: ErrorRecord)
  {
    /** `(*Error).Error()`: empty only for nil, and otherwise led by the `[ID]: Message` line. */
    function Text(): (r: string)
      ensures r == "" <==> NilError?
      ensures Ptr? ==> Line(rec) <= r
    {
      match this
      case NilError => ""
      case Ptr(e) =>
        Line(e) + (if e.inner.Ptr? then InnerSeparator + e.inner.Text() else "")
    }

    predicate IsError()
    {
      Ptr? && rec.etype == EtError
    }

    predicate IsWarning()
    {
      Ptr? && rec.etype == EtWarning
    }

    predicate IsStatus()
    {
      Ptr? && rec.etype == EtStatus
    }

    predicate IsTransient()
    {
      Ptr? && rec.transient
    }

    predicate IsEqual(errID: string)
    {
      Ptr? && rec.id == errID
    }

    /** `(*Error).GetHTTPStatusCode()`. */
    function GetHTTPStatusCode(): Int64
    {
      if NilError? then StatusOK
      else if rec.httpStatus != 0 then rec.httpStatus
      else if IsError() then StatusInternalServerError
      else StatusOK
    }
  }

  /** A Go value of the `error` interface that the modelled code handles. */
  datatype GoError =
    | Api(e: ErrorRecord)  // a non-nil *Error
    | Canceled  // context.Canceled
    | DeadlineExceeded  // context.DeadlineExceeded
    | Plain(msg: string)  // errors.New / fmt.Errorf
    | Wrapped(cause: GoError, msg: string)  // github.com/pkg/errors Wrap
  {
    /**
     * The `Error()` text of the value. Only an empty plain message gives an
     * empty text; a wrap puts its message before the cause's text.
     */
    function Text(): (r: string)
      ensures r == "" <==> this == Plain("")
      ensures Api? ==> Line(e) <= r
      ensures Wrapped? ==> msg + ": " <= r
    {
      match this
      case Api(e) => Ptr(e).Text()
      case Canceled => "context canceled"
      case DeadlineExceeded => "context deadline exceeded"
      case Plain(m) => m
      case Wrapped(c, m) => m + ": " + c.Text()
    }
  }

  /** The first line of an error's text: `[ID]: Message`. */
  function Line(e: ErrorRecord): string
  {
    "[" + e.id + "]: " + e.message
  }

  /** The `*Error` values reachable through the inner-error links, outermost first. */
  function Chain(p: ErrorPtr): seq<ErrorRecord>
  {
    match p
    case NilError => []
    case Ptr(e) => [e] + Chain(e.inner)
  }

  function Lines(chain: seq<ErrorRecord>): seq<string>
  {
    if chain == [] then [] else [Line(chain[0])] + Lines(chain[1..])
  }

  function Join(parts: seq<string>, sep: string): string
  {
    if parts == [] then ""
    else if |parts| == 1 then parts[0]
    else parts[0] + sep + Join(parts[1..], sep)
  }

  /** `Error()` is the `[ID]: Message` lines of the whole chain, joined by the arrow separator. */
  lemma {:induction false} TextIsJoinedChain(p: ErrorPtr)
    ensures p.Text() == Join(Lines(Chain(p)), InnerSeparator)
    ensures |Chain(p)| == 0 <==> p.Text() == ""
  {
    match p
    case NilError =>
    case Ptr(e) =>
      TextIsJoinedChain(e.inner);
      assert Chain(p)[1..] == Chain(e.inner);
      if e.inner.NilError? {
        assert Lines(Chain(p)) == [Line(e)];
      } else {
        assert Lines(Chain(p)) == [Line(e)] + Lines(Chain(e.inner));
      }
  }

  // ---------------------------------------------------------- constructors

  /** The `*Error` made for an `error` that is not one, under the given ID. */
  function Converted(errID: string, err: GoError): ErrorRecord
  {
    ErrorRecord(errID, EtError, err.Text(), StatusInternalServerError, false, NilError, None, 0)
  }

  /** `NewErrorFromError`: nil stays nil, an `*Error` is kept, anything else becomes an `api/error`. */
  function NewErrorFromError(err: Option<GoError>): (r: ErrorPtr)
    ensures r.NilError? <==> err.None?
    ensures err.Some? && err.value.Api? ==> r == Ptr(err.value.e)
    ensures err.Some? && !err.value.Api? ==>
      r.IsError() && r.rec.id == ErrGenericAPIErrorID && r.rec.message == err.value.Text()
      && r.Text() == "[" + ErrGenericAPIErrorID + "]: " + err.value.Text()
    ensures r.GetHTTPStatusCode() == GetHTTPStatusCode(err)
  {
    NewErrorWithID(ErrGenericAPIErrorID, err)
  }

  /** `NewErrorWithID`: as `NewErrorFromError`, under a caller-chosen ID. */
  function NewErrorWithID(errID: string, err: Option<GoError>): (r: ErrorPtr)
    ensures r.NilError? <==> err.None?
    ensures err.Some? && err.value.Api? ==> r == Ptr(err.value.e)
    ensures err.Some? && !err.value.Api? ==>
      r.IsError() && r.rec.id == errID && r.rec.message == err.value.Text()
      && r.GetHTTPStatusCode() == StatusInternalServerError && r.rec.inner.NilError?
  {
    match err
    case None => NilError
    case Some(Api(e)) => Ptr(e)
    case Some(other) => Ptr(Converted(errID, other))
  }

  /** Converting twice is converting once. */
  lemma NewErrorFromErrorIdempotent(err: Option<GoError>)
    requires err.Some?
    ensures NewErrorFromError(Some(Api(NewErrorFromError(err).rec))) == NewErrorFromError(err)
  {
  }

  /** `NewErrorFormatted`: an error-typed `*Error` with a formatted message and status 500. */
  function NewErrorFormatted(errID: string, msgFormat: string, args: seq<string>): (r: ErrorRecord)
    ensures Ptr(r).IsError() && Ptr(r).GetHTTPStatusCode() == StatusInternalServerError
    ensures Ptr(r).Text() == "[" + errID + "]: " + Fmt.Sprintf(msgFormat, args)
  {
    ErrorRecord(errID, EtError, Fmt.Sprintf(msgFormat, args), StatusInternalServerError,
                false, NilError, None, 0)
  }

  /** The package's `OK` status value. */
  const OK: ErrorRecord :=
    ErrorRecord(StatusOKID, EtStatus, "The operation was successful", StatusOK, false, NilError, None, 0)

  lemma OKIsStatus()
    ensures Ptr(OK).IsStatus() && !Ptr(OK).IsError()
    ensures Ptr(OK).GetHTTPStatusCode() == StatusOK
    ensures Ptr(OK).Text() == "[" + StatusOKID + "]: " + "The operation was successful"
  {
  }

  // -------------------------------------------------------- the builders

  /** The pairs of `m` under the keys in `keys`. */
  function Restrict(m: map<string, Value>, keys: set<string>): map<string, Value>
    requires keys <= m.Keys
  {
    map k | k in keys :: m[k]
  }

  lemma RestrictStep(start: map<string, Value>, m: map<string, Value>, keys: set<string>, k: string)
    requires keys <= m.Keys && k in m
    ensures (start + Restrict(m, keys))[k := m[k]] == start + Restrict(m, keys + {k})
  {
  }

  lemma RestrictAll(m: map<string, Value>, keys: set<string>)
    requires keys == m.Keys
    ensures Restrict(m, keys) == m
  {
  }

  /** The context after `WithContext`: the old pairs, overwritten or extended by the given ones. */
  function MergeContext(current: Option<map<string, Value>>, context: map<string, Value>): (r: map<string, Value>)
    ensures r.Keys == current.GetOr(map[]).Keys + context.Keys
    ensures forall k :: k in context ==> r[k] == context[k]
    ensures forall k :: k in current.GetOr(map[]) && k !in context ==> r[k] == current.GetOr(map[])[k]
  {
    current.GetOr(map[]) + context
  }

  /** A Go `Error` struct; the builders change it in place. */
  class Error {
    var id: string
    var etype: ErrorType
    var message: string
    var httpStatus: Int64
    var transient: bool
    var innerError: ErrorPtr
    var context: Option<map<string, Value>>
    var code: Int64

    /** The value of every field. */
    function Snapshot(): ErrorRecord
      reads this
    {
      ErrorRecord(id, etype, message, httpStatus, transient, innerError, context, code)
    }

    /** `&Error{...}`: a fresh `Error` holding the given fields. */
    constructor (rec: ErrorRecord)
      ensures Snapshot() == rec
    {
      id, etype, message, httpStatus := rec.id, rec.etype, rec.message, rec.httpStatus;
      transient, innerError, context, code := rec.transient, rec.inner, rec.context, rec.code;
    }

    static method WithMessage(err: Error?, message: string) returns (r: Error?)
      modifies err
      ensures r == err
      ensures err != null ==> err.Snapshot() == old(err.Snapshot()).WithMessage(message)
    {
      if err == null {
        return null;
      }
      err.message := message;
      return err;
    }

    static method WithMessageF(err: Error?, fmtMsg: string, args: seq<string>) returns (r: Error?)
      modifies err
      ensures r == err
      ensures err != null ==> err.Snapshot() == old(err.Snapshot()).WithMessage(Fmt.Sprintf(fmtMsg, args))
    {
      if err == null {
        return null;
      }
      err.message := Fmt.Sprintf(fmtMsg, args);
      return err;
    }

    static method WithInner(err: Error?, inner: Option<GoError>) returns (r: Error?)
      modifies err
      ensures r == err
      ensures err != null ==> err.Snapshot() == old(err.Snapshot()).WithInner(inner)
      ensures err != null && inner.None? ==> err.innerError == old(err.innerError)
    {
      if err == null {
        return null;
      }
      if inner.Some? {
        err.innerError := NewErrorFromError(inner);
      }
      return err;
    }

    static method WithContext(err: Error?, context: map<string, Value>) returns (r: Error?)
      modifies err
      ensures r == err
      ensures err != null ==> err.Snapshot() == old(err.Snapshot()).WithContext(context)
    {
      if err == null {
        return null;
      }
      if err.context.None? {
        err.context := Some(map[]);
      }
      ghost var start := err.context.value;
      var pending := context.Keys;
      ghost var handled: set<string> := {};
      assert start + Restrict(context, handled) == start;
      while pending != {}
        invariant handled + pending == context.Keys && handled !! pending
        invariant err.context == Some(start + Restrict(context, handled))
        invariant err.Snapshot() == old(err.Snapshot()).(context := err.context)
        decreases pending
      {
        var k :| k in pending;
        RestrictStep(start, context, handled, k);
        err.context := Some(err.context.value[k := context[k]]);
        pending := pending - {k};
        handled := handled + {k};
      }
      RestrictAll(context, handled);
      return err;
    }

    static method WithContextValue(err: Error?, key: string, value: Value) returns (r: Error?)
      modifies err
      ensures r == err
      ensures err != null ==> err.Snapshot() == old(err.Snapshot()).WithContextValue(key, value)
    {
      if err == null {
        return null;
      }
      if err.context.None? {
        err.context := Some(map[]);
      }
      err.context := Some(err.context.value[key := value]);
      return err;
    }

    static method WithTransient(err: Error?, isTransient: bool) returns (r: Error?)
      modifies err
      ensures r == err
      ensures err != null ==> err.Snapshot() == old(err.Snapshot()).WithTransient(isTransient)
    {
      if err == null {
        return null;
      }
      err.transient := isTransient;
      return err;
    }

    static method WithHTTPStatus(err: Error?, httpStatus: Int64) returns (r: Error?)
      modifies err
      ensures r == err
      ensures err != null ==> err.Snapshot() == old(err.Snapshot()).WithHTTPStatus(httpStatus)
    {
      if err == null {
        return null;
      }
      err.httpStatus := httpStatus;
      return err;
    }
  }

  // ------------------------------------------------- queries on *Error

  /** At most one of the type tests holds, and none holds on nil. */
  lemma TypeTestsExclusive(p: ErrorPtr)
    ensures !(p.IsError() && p.IsWarning()) && !(p.IsError() && p.IsStatus())
    ensures !(p.IsWarning() && p.IsStatus())
    ensures p.NilError? ==>
      !p.IsError() && !p.IsWarning() && !p.IsStatus() && !p.IsTransient() && !p.IsEqual("")
  {
  }

  /** A status code is never 0: an unset one falls back to 500 for errors and to 200 otherwise. */
  lemma StatusCodeDefaults(p: ErrorPtr)
    ensures p.GetHTTPStatusCode() != 0
    ensures p.NilError? ==> p.GetHTTPStatusCode() == StatusOK
    ensures p.Ptr? && p.rec.httpStatus != 0 ==> p.GetHTTPStatusCode() == p.rec.httpStatus
    ensures p.Ptr? && p.rec.httpStatus == 0 && p.IsError() ==> p.GetHTTPStatusCode() == StatusInternalServerError
    ensures p.Ptr? && p.rec.httpStatus == 0 && (p.IsWarning() || p.IsStatus()) ==> p.GetHTTPStatusCode() == StatusOK
  {
  }

  // ------------------------------------------------ functions on `error`

  predicate IsNotError(err: Option<GoError>)
  {
    err.None?
  }

  predicate NoError(err: Option<GoError>)
  {
    err.None?
  }

  predicate IsError(err: Option<GoError>)
  {
    err.Some?
  }

  /** `IsNotError` and `NoError` agree, and both are the negation of `IsError`. */
  lemma NilTestsAgree(err: Option<GoError>)
    ensures IsNotError(err) == NoError(err) == !IsError(err)
  {
  }

  /** The free `GetHTTPStatusCode`: as the method for an `*Error`, 500 for any other error. */
  function GetHTTPStatusCode(err: Option<GoError>): (r: Int64)
    ensures err.None? ==> r == StatusOK
    ensures err.Some? && !err.value.Api? ==> r == StatusInternalServerError
  {
    match err
    case None => StatusOK
    case Some(Api(e)) =>
      if e.httpStatus != 0 then e.httpStatus
      else if e.etype == EtError then StatusInternalServerError
      else StatusOK
    case Some(_) => StatusInternalServerError
  }

  /** The free function and the method agree wherever both apply. */
  lemma StatusCodeFunctionMatchesMethod(err: Option<GoError>)
    requires err.None? || err.value.Api?
    ensures GetHTTPStatusCode(err) == GetError(err).GetHTTPStatusCode()
  {
  }

  /** `GetError`: the `*Error` inside `err`, or nil. */
  function GetError(err: Option<GoError>): (r: ErrorPtr)
    ensures r.Ptr? <==> err.Some? && err.value.Api?
    ensures r.Ptr? ==> err.value == Api(r.rec)
  {
    match err
    case Some(Api(e)) => Ptr(e)
    case _ => NilError
  }

  /** `GetErrorID`: the ID of an `*Error`, "" for nil and for any other error. */
  function GetErrorID(err: Option<GoError>): (r: string)
    ensures GetError(err).Ptr? ==> r == GetError(err).rec.id
    ensures GetError(err).NilError? ==> r == ""
  {
    match err
    case Some(Api(e)) => e.id
    case _ => ""
  }

  function IsErrorID(err: Option<GoError>, errID: string): bool
  {
    if err.None? then false else GetErrorID(err) == errID
  }

  /** `IsErrorID` holds of an `*Error` with that ID, and (the ID of any other error being "") of any other error when the ID asked for is "". */
  lemma IsErrorIDMeaning(err: Option<GoError>, errID: string)
    ensures IsErrorID(err, errID) <==>
      (err.Some? && err.value.Api? && err.value.e.id == errID)
      || (err.Some? && !err.value.Api? && errID == "")
    ensures IsErrorID(err, errID) ==> GetError(err).IsEqual(errID) || errID == ""
  {
  }

  function IsAPIError(err: Option<GoError>): bool
  {
    if err.None? then false else IsErrorID(err, ErrGenericAPIErrorID)
  }

  /** `IsAPIError` holds exactly of an `*Error` with the generic ID; any other error gives false. */
  lemma IsAPIErrorMeaning(err: Option<GoError>)
    ensures IsAPIError(err) <==> err.Some? && err.value.Api? && err.value.e.id == ErrGenericAPIErrorID
    ensures err.Some? && !err.value.Api? ==> !IsAPIError(err)
    ensures err.Some? && !err.value.Api? ==> NewErrorFromError(err).IsEqual(ErrGenericAPIErrorID)
  {
  }

  function IsStatusError(err: Option<GoError>): bool
  {
    if err.None? then false
    else
      var ours := GetError(err);
      if ours.NilError? then false else ours.IsStatus()
  }

  /** `IsStatusError` is the status test on the `*Error` inside `err`. */
  lemma IsStatusErrorMeaning(err: Option<GoError>)
    ensures IsStatusError(err) <==> GetError(err).IsStatus()
    ensures IsStatusError(err) ==> GetErrorID(err) == GetError(err).rec.id
  {
  }
}
