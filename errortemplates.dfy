/** Error templates: a fixed ID, type, status and message format, instantiated into `*Error` values. */
module ErrorTemplates {
  import opened Wrappers
  import opened GoInts
  import opened Errors
  import Fmt

  datatype ErrorTemplate = ErrorTemplate(
    id: string,
    etype: ErrorType,
    messageFmt: string,
    transient: bool,
    httpStatus: Int64)

  function NewErrorTemplate(id: string, messageFmt: string, httpStatus: Int64, isTransient: bool): (t: ErrorTemplate)
    ensures t.etype == EtError
    ensures t.id == id && t.messageFmt == messageFmt && t.httpStatus == httpStatus && t.transient == isTransient
  {
    ErrorTemplate(id, EtError, messageFmt, isTransient, httpStatus)
  }

  function NewWarningTemplate(id: string, messageFmt: string, httpStatus: Int64): (t: ErrorTemplate)
    ensures t.etype == EtWarning && !t.transient
    ensures t.id == id && t.messageFmt == messageFmt && t.httpStatus == httpStatus
  {
    ErrorTemplate(id, EtWarning, messageFmt, false, httpStatus)
  }

  function NewStatusTemplate(id: string, messageFmt: string, httpStatus: Int64): (t: ErrorTemplate)
    ensures t.etype == EtStatus && !t.transient
    ensures t.id == id && t.messageFmt == messageFmt && t.httpStatus == httpStatus
  {
    ErrorTemplate(id, EtStatus, messageFmt, false, httpStatus)
  }

  /**
   * `Instancef`: a new `*Error` carrying the template's ID, type, transient
   * flag and status, whose message is the format itself when there are no
   * arguments and the formatted text otherwise.
   */
  function Instancef(t: ErrorTemplate, fmtString: string, args: seq<string>): (r: ErrorRecord)
    ensures r.id == t.id && r.etype == t.etype && r.transient == t.transient && r.httpStatus == t.httpStatus
    ensures r.inner.NilError? && r.context.None? && r.code == 0
    ensures args == [] ==> r.message == fmtString
    ensures args != [] ==> r.message == Fmt.Sprintf(fmtString, args)
  {
    var blank := ErrorRecord(t.id, t.etype, "", t.httpStatus, t.transient, NilError, None, 0);
    if |args| > 0 then blank.WithMessage(Fmt.Sprintf(fmtString, args))
    else blank.WithMessage(fmtString)
  }

  /** `Instance`: `Instancef` with the template's own message format. */
  function Instance(t: ErrorTemplate, args: seq<string>): (r: ErrorRecord)
    ensures r == Instancef(t, t.messageFmt, args)
  {
    Instancef(t, t.messageFmt, args)
  }

  /** A template whose format has one `%s` between plain text puts its one argument there. */
  lemma InstanceOneArg(t: ErrorTemplate, prefix: string, arg: string, suffix: string)
    requires t.messageFmt == prefix + "%s" + suffix
    requires '%' !in prefix && '%' !in suffix
    ensures Instance(t, [arg]).message == prefix + arg + suffix
  {
    Fmt.SprintfOne(prefix, arg, suffix);
  }

  /** The kind the template constructors choose is the kind the instances report. */
  lemma InstanceKinds(id: string, messageFmt: string, httpStatus: Int64, isTransient: bool, args: seq<string>)
    ensures Ptr(Instance(NewErrorTemplate(id, messageFmt, httpStatus, isTransient), args)).IsError()
    ensures Ptr(Instance(NewErrorTemplate(id, messageFmt, httpStatus, isTransient), args)).IsTransient() == isTransient
    ensures Ptr(Instance(NewWarningTemplate(id, messageFmt, httpStatus), args)).IsWarning()
    ensures !Ptr(Instance(NewWarningTemplate(id, messageFmt, httpStatus), args)).IsTransient()
    ensures Ptr(Instance(NewStatusTemplate(id, messageFmt, httpStatus), args)).IsStatus()
    ensures !Ptr(Instance(NewStatusTemplate(id, messageFmt, httpStatus), args)).IsTransient()
  {
  }

  /** An instance's status code is the template's, defaulted by its kind when the template gives 0. */
  lemma InstanceStatusCode(t: ErrorTemplate, fmtString: string, args: seq<string>)
    ensures Ptr(Instancef(t, fmtString, args)).GetHTTPStatusCode() ==
      if t.httpStatus != 0 then t.httpStatus
      else if t.etype == EtError then StatusInternalServerError
      else StatusOK
    ensures Ptr(Instancef(t, fmtString, args)).Text() == "[" + t.id + "]: " + Instancef(t, fmtString, args).message
  {
  }

  /** With a format free of directives, passing no arguments or formatting with none give the same message. */
  lemma InstancefPlainFormat(t: ErrorTemplate, fmtString: string)
    requires '%' !in fmtString
    ensures Instancef(t, fmtString, []).message == Fmt.Sprintf(fmtString, [])
  {
  }

  /** Without arguments a `%` is kept as written; formatting would have annotated it. */
  lemma InstancefKeepsPercent(t: ErrorTemplate)
    ensures Instancef(t, "100%", []).message == "100%"
    ensures Fmt.Sprintf("100%", []) == "100%!(NOVERB)"
  {
    assert Fmt.Sprintf("%", []) == "%!(NOVERB)";
    Fmt.SprintfPrefix("100", "%", []);
    assert "100" + "%" == "100%";
  }
}
