/** The error model of pkg/utils/errors.go, together with the other kinds of
    Go error value the core produces or passes on: errors of the native
    client libraries (known only by their text), `fmt.Errorf` wrappers and
    the two context errors. */
module Errors {

  import opened Types
  import opened GoStd

  /** The nine error categories. */
  datatype ErrorType =
    | Connection | Validation | Timeout | Authentication | NotFound
    | Internal | Network | Config | Subscription

  function TypeName(t: ErrorType): string
  {
    match t
    case Connection => "CONNECTION"
    case Validation => "VALIDATION"
    case Timeout => "TIMEOUT"
    case Authentication => "AUTHENTICATION"
    case NotFound => "NOT_FOUND"
    case Internal => "INTERNAL"
    case Network => "NETWORK"
    case Config => "CONFIG"
    case Subscription => "SUBSCRIPTION"
  }

  /** The structured application error. The captured call stack is not
      modelled. */
  datatype AppError = AppError(
    kind: ErrorType,
    code: string,
    message: string,
    details: string,
    cause: Option<Error>)

  /** A Go `error` value.
      - `App`: an application error;
      - `Foreign`: an error made elsewhere (a client library, the database,
        or `fmt.Errorf` without `%w`), known by its text;
      - `Wrapped`: `fmt.Errorf(prefix + "%w", inner)`;
      - `Canceled`, `DeadlineExceeded`: the errors of package context. */
  datatype Error =
    | App(app: AppError)
    | Foreign(text: string)
    | Wrapped(prefix: string, inner: Error)
    | Canceled
    | DeadlineExceeded

  /** AppError.Error(): "[TYPE:CODE] message", then " - details" when the
      details are not empty. The cause is not part of the text. */
  function Render(e: AppError): (r: string)
    ensures IsPrefix("[" + TypeName(e.kind) + ":" + e.code + "] " + e.message, r)
    ensures e.details == "" <==> |r| == |"[" + TypeName(e.kind) + ":" + e.code + "] " + e.message|
  {
    var head := "[" + TypeName(e.kind) + ":" + e.code + "] " + e.message;
    if e.details != "" then head + " - " + e.details else head
  }

  /** err.Error() for every kind of error. */
  function ErrorText(err: Error): string
  {
    match err
    case App(e) => Render(e)
    case Foreign(t) => t
    case Wrapped(p, inner) => p + ErrorText(inner)
    case Canceled => "context canceled"
    case DeadlineExceeded => "context deadline exceeded"
  }

  /** errors.Unwrap. */
  function Unwrap(err: Error): (r: Option<Error>)
    ensures r.Some? ==> r.value < err
  {
    match err
    case App(e) => e.cause
    case Wrapped(_, inner) => Some(inner)
    case _ => None
  }

  /** `fmt.Errorf(prefix + "%v", err)`: only the text of `err` survives. */
  function Formatted(prefix: string, err: Error): Error
  {
    Foreign(prefix + ErrorText(err))
  }

  /** The rendered text is the bracketed header alone when there are no
      details, and the header, " - " and the details otherwise. */
  lemma RenderShape(e: AppError)
    ensures e.details == "" ==> Render(e) == "[" + TypeName(e.kind) + ":" + e.code + "] " + e.message
    ensures e.details != "" ==> Render(e) == "[" + TypeName(e.kind) + ":" + e.code + "] " + e.message + " - " + e.details
  {
  }

  /** The code can always be found in the rendered text. */
  lemma RenderContainsCode(e: AppError)
    ensures HasSubstring(Render(e), e.code)
  {
    var a := "[" + TypeName(e.kind) + ":";
    var b := "] " + e.message + (if e.details != "" then " - " + e.details else "");
    assert Render(e) == a + e.code + b;
    HasSubstringMiddle(a, e.code, b);
  }

  /** The cause never shows in the text: two errors that differ only in
      their cause print alike. */
  lemma RenderIgnoresCause(e: AppError, c: Option<Error>)
    ensures Render(e.(cause := c)) == Render(e)
  {
  }

  /** Wrapping keeps the wrapped error's text as a suffix and its identity
      reachable through Unwrap. */
  lemma WrappedText(prefix: string, inner: Error)
    ensures ErrorText(Wrapped(prefix, inner)) == prefix + ErrorText(inner)
    ensures Unwrap(Wrapped(prefix, inner)) == Some(inner)
    ensures HasSubstring(ErrorText(Wrapped(prefix, inner)), ErrorText(inner))
  {
    assert prefix + ErrorText(inner) == prefix + ErrorText(inner) + "";
    HasSubstringMiddle(prefix, ErrorText(inner), "");
  }

  // ---------------------------------------------------------------------
  // Constructors

  function NewError(kind: ErrorType, code: string, message: string): (e: AppError)
    ensures IsErrorType(Some(App(e)), kind) && GetErrorCode(Some(App(e))) == code
    ensures e.message == message && e.details == "" && Unwrap(App(e)) == None
  {
    AppError(kind, code, message, "", None)
  }

  function NewErrorWithCause(kind: ErrorType, code: string, message: string, cause: Option<Error>): (e: AppError)
    ensures IsErrorType(Some(App(e)), kind) && GetErrorCode(Some(App(e))) == code
    ensures e.message == message && e.details == "" && Unwrap(App(e)) == cause
  {
    AppError(kind, code, message, "", cause)
  }

  function NewErrorWithDetails(kind: ErrorType, code: string, message: string, details: string): (e: AppError)
    ensures IsErrorType(Some(App(e)), kind) && GetErrorCode(Some(App(e))) == code
    ensures e.message == message && e.details == details && Unwrap(App(e)) == None
  {
    AppError(kind, code, message, details, None)
  }

  function NewConnectionError(message: string, cause: Option<Error>): (e: AppError)
    ensures IsErrorType(Some(App(e)), Connection) && GetErrorCode(Some(App(e))) == "CONN_001"
    ensures e.message == message && e.details == "" && Unwrap(App(e)) == cause
  {
    NewErrorWithCause(Connection, "CONN_001", message, cause)
  }

  function NewValidationError(message: string, details: string): (e: AppError)
    ensures IsErrorType(Some(App(e)), Validation) && GetErrorCode(Some(App(e))) == "VAL_001"
    ensures e.message == message && e.details == details && Unwrap(App(e)) == None
  {
    NewErrorWithDetails(Validation, "VAL_001", message, details)
  }

  function NewTimeoutError(message: string): (e: AppError)
    ensures IsErrorType(Some(App(e)), Timeout) && GetErrorCode(Some(App(e))) == "TIMEOUT_001"
    ensures e.message == message && e.details == "" && Unwrap(App(e)) == None
  {
    NewError(Timeout, "TIMEOUT_001", message)
  }

  function NewAuthError(message: string): (e: AppError)
    ensures IsErrorType(Some(App(e)), Authentication) && GetErrorCode(Some(App(e))) == "AUTH_001"
    ensures e.message == message && e.details == "" && Unwrap(App(e)) == None
  {
    NewError(Authentication, "AUTH_001", message)
  }

  function NewNotFoundError(resource: string, id: string): (e: AppError)
    ensures IsErrorType(Some(App(e)), NotFound) && GetErrorCode(Some(App(e))) == "NOT_FOUND_001"
    ensures e.message == resource + " not found: " + id && e.details == "" && Unwrap(App(e)) == None
  {
    NewError(NotFound, "NOT_FOUND_001", resource + " not found: " + id)
  }

  function NewInternalError(message: string, cause: Option<Error>): (e: AppError)
    ensures IsErrorType(Some(App(e)), Internal) && GetErrorCode(Some(App(e))) == "INT_001"
    ensures e.message == message && e.details == "" && Unwrap(App(e)) == cause
  {
    NewErrorWithCause(Internal, "INT_001", message, cause)
  }

  function NewNetworkError(message: string, cause: Option<Error>): (e: AppError)
    ensures IsErrorType(Some(App(e)), Network) && GetErrorCode(Some(App(e))) == "NET_001"
    ensures e.message == message && e.details == "" && Unwrap(App(e)) == cause
  {
    NewErrorWithCause(Network, "NET_001", message, cause)
  }

  function NewConfigError(message: string, details: string): (e: AppError)
    ensures IsErrorType(Some(App(e)), Config) && GetErrorCode(Some(App(e))) == "CFG_001"
    ensures e.message == message && e.details == details && Unwrap(App(e)) == None
  {
    NewErrorWithDetails(Config, "CFG_001", message, details)
  }

  function NewSubscriptionError(message: string, cause: Option<Error>): (e: AppError)
    ensures IsErrorType(Some(App(e)), Subscription) && GetErrorCode(Some(App(e))) == "SUB_001"
    ensures e.message == message && e.details == "" && Unwrap(App(e)) == cause
  {
    NewErrorWithCause(Subscription, "SUB_001", message, cause)
  }

  /** The shorthands used throughout the adapters. */
  function ConnErr(message: string, cause: Option<Error>): Error
  {
    App(NewConnectionError(message, cause))
  }

  function ValErr(message: string, details: string): Error
  {
    App(NewValidationError(message, details))
  }

  function SubErr(message: string, cause: Option<Error>): Error
  {
    App(NewSubscriptionError(message, cause))
  }

  /** A connection error prints its category, its code and its message,
      and never its cause. */
  lemma ConnectionErrorText(message: string, cause: Option<Error>)
    ensures Render(NewConnectionError(message, cause)) == "[CONNECTION:CONN_001] " + message
  {
    assert "[" + "CONNECTION" + ":" + "CONN_001" + "] " == "[CONNECTION:CONN_001] ";
  }

  /** The not-found error names the resource and the missing id. */
  lemma NotFoundErrorText(resource: string, id: string)
    ensures Render(NewNotFoundError(resource, id))
         == "[NOT_FOUND:NOT_FOUND_001] " + resource + " not found: " + id
  {
    assert "[" + "NOT_FOUND" + ":" + "NOT_FOUND_001" + "] " == "[NOT_FOUND:NOT_FOUND_001] ";
  }

  /** Each predefined constructor has its own category and its own code. */
  lemma ConstructorCodes(message: string, details: string, cause: Option<Error>, resource: string, id: string)
    ensures var all := [NewConnectionError(message, cause), NewValidationError(message, details),
                        NewTimeoutError(message), NewAuthError(message), NewNotFoundError(resource, id),
                        NewInternalError(message, cause), NewNetworkError(message, cause),
                        NewConfigError(message, details), NewSubscriptionError(message, cause)];
            forall i, j :: 0 <= i < j < |all| ==> all[i].kind != all[j].kind && all[i].code != all[j].code
  {
  }

  /** Only the constructors that take a cause remember one, and Unwrap gives
      it back. */
  lemma ConstructorCauses(message: string, details: string, cause: Option<Error>)
    ensures Unwrap(App(NewConnectionError(message, cause))) == cause
    ensures Unwrap(App(NewInternalError(message, cause))) == cause
    ensures Unwrap(App(NewNetworkError(message, cause))) == cause
    ensures Unwrap(App(NewSubscriptionError(message, cause))) == cause
    ensures Unwrap(App(NewValidationError(message, details))) == None
    ensures Unwrap(App(NewConfigError(message, details))) == None
    ensures Unwrap(App(NewTimeoutError(message))) == None
    ensures Unwrap(App(NewAuthError(message))) == None
  {
  }

  /** Every connection error prints "CONN_", also behind any number of
      `%w` prefixes. */
  lemma {:induction false} ConnectionTextHasConnMarker(err: Error)
    requires IsConnectionChain(err)
    ensures HasSubstring(ErrorText(err), "CONN_")
  {
    match err
    case App(e) =>
      CodeHasConnMarker(e);
    case Wrapped(p, inner) =>
      ConnectionTextHasConnMarker(inner);
      SuffixKeepsSubstring(p, ErrorText(inner), "CONN_");
  }

  /** The code CONN_001 puts "CONN_" into the text, with or without details. */
  lemma CodeHasConnMarker(e: AppError)
    requires e.code == "CONN_001"
    ensures HasSubstring(Render(e), "CONN_")
  {
    var a := "[" + TypeName(e.kind) + ":";
    var b := "] " + e.message + (if e.details != "" then " - " + e.details else "");
    assert Render(e) == a + e.code + b;
    assert e.code == "CONN_" + "001";
    assert Render(e) == a + "CONN_" + ("001" + b);
    HasSubstringMiddle(a, "CONN_", "001" + b);
  }

  /** A connection error (category CONNECTION, code CONN_001, with or
      without details), possibly behind `%w` prefixes. */
  predicate IsConnectionChain(err: Error)
  {
    match err
    case App(e) => e.kind == Connection && e.code == "CONN_001"
    case Wrapped(_, inner) => IsConnectionChain(inner)
    case _ => false
  }

  lemma {:induction false} SuffixKeepsSubstring(p: string, s: string, sub: string)
    requires HasSubstring(s, sub)
    ensures HasSubstring(p + s, sub)
    decreases |p|
  {
    if p != [] {
      assert (p + s)[1..] == p[1..] + s;
      SuffixKeepsSubstring(p[1..], s, sub);
    } else {
      assert p + s == s;
    }
  }

  // ---------------------------------------------------------------------
  // Queries on errors; `None` plays the nil error

  /** WrapError: nil stays nil, an application error is returned as it is,
      anything else becomes an INTERNAL/WRAP_001 error caused by it. */
  function WrapError(err: Option<Error>, message: string): (r: Option<AppError>)
    ensures err.None? <==> r.None?
    ensures err.Some? && err.value.App? ==> r == Some(err.value.app)
    ensures err.Some? && !err.value.App? ==>
              r.Some? && r.value.kind == Internal && r.value.code == "WRAP_001"
              && r.value.message == message && r.value.cause == err && r.value.details == ""
  {
    match err
    case None => None
    case Some(App(e)) => Some(e)
    case Some(e) => Some(NewErrorWithCause(Internal, "WRAP_001", message, Some(e)))
  }

  /** Wrapping twice is wrapping once, whatever the second message. */
  lemma WrapErrorIdempotent(err: Option<Error>, m1: string, m2: string)
    requires err.Some?
    ensures WrapError(Some(App(WrapError(err, m1).value)), m2) == WrapError(err, m1)
  {
  }

  /** IsErrorType: true exactly for an application error of that category;
      a wrapped application error does not match. */
  predicate IsErrorType(err: Option<Error>, t: ErrorType)
    ensures err.None? || !err.value.App? ==> !IsErrorType(err, t)
    ensures err.Some? && err.value.App? ==> (IsErrorType(err, t) <==> err.value.app.kind == t)
  {
    err.Some? && err.value.App? && err.value.app.kind == t
  }

  /** GetErrorCode: the code of an application error, "UNKNOWN" otherwise. */
  function GetErrorCode(err: Option<Error>): (code: string)
    ensures err.Some? && err.value.App? ==> code == err.value.app.code
    ensures !(err.Some? && err.value.App?) ==> code == "UNKNOWN"
  {
    if err.Some? && err.value.App? then err.value.app.code else "UNKNOWN"
  }

  /** GetErrorMessage: "" for nil, the error's text otherwise. */
  function GetErrorMessage(err: Option<Error>): (text: string)
    ensures err.None? ==> text == ""
    ensures err.Some? ==> text == ErrorText(err.value)
  {
    if err.None? then "" else ErrorText(err.value)
  }

  /** The category and code survive WrapError for every error, and a
      non-application error is classed INTERNAL with code WRAP_001. */
  lemma WrapErrorCodes(err: Error, message: string)
    ensures var w := Some(App(WrapError(Some(err), message).value));
            (err.App? ==> GetErrorCode(w) == err.app.code && IsErrorType(w, err.app.kind))
            && (!err.App? ==> GetErrorCode(w) == "WRAP_001" && IsErrorType(w, Internal))
  {
  }
}
