/**
 * The client's exception classes as one datatype, with the text each
 * `__str__` produces, and the other Python exceptions a caller can see.
 */
module Errors {
  import opened Wrappers
  import opened Text

  datatype KrakenError =
    /** The remote API answered with a non-empty error list (or any other message). */
    | ApiError(status: int, message: Option<seq<string>>)
    /** The transport failed; `base` is str() of the underlying exception, if there was one. */
    | TransportError(base: Option<string>)
    /** A non-retriable HTTP status; a TransportError subclass that never sets `base`. */
    | HTTPError(statusCode: int)
    /** The retry budget is exhausted, or the transport itself timed out. */
    | Timeout
    /** Raised by a body extractor to ask `_post` for another attempt. */
    | RetriableRequest
    | InvalidRequest
    /** `detail` is the source's `message` attribute. */
    | BadParamterError(detail: string)
    | RequiredParameterError(required: string)

  /** `isinstance(e, TransportError)`. */
  predicate IsTransportError(e: KrakenError) {
    e.TransportError? || e.HTTPError?
  }

  /** What a caller of the client can see raised. */
  datatype Raised =
    | Kraken(error: KrakenError)
    /** Raised by the Client constructor (and by `collections.deque` inside it). */
    | ValueError(message: string)
    /** Raised when `BadParamterError()` is called without its required message. */
    | TypeError(message: string)
    /** Raised by `d[key]` on a dict without that key. */
    | KeyError(key: string)

  /** Python's TypeError text for `BadParamterError()`. */
  const MissingMessageText := "__init__() missing 1 required positional argument: 'message'"

  /** str(x) of a Python str inside a list: the string between single quotes. */
  function Quote(s: string): string {
    "'" + s + "'"
  }

  function ReprItems(xs: seq<string>): string {
    if |xs| == 0 then ""
    else if |xs| == 1 then Quote(xs[0])
    else Quote(xs[0]) + ", " + ReprItems(xs[1..])
  }

  /** repr of a list of strings, as "%s" formats one. */
  function ListRepr(xs: seq<string>): string {
    "[" + ReprItems(xs) + "]"
  }

  /**
   * ApiError.__str__ as written: it returns the int status itself when there
   * is no message, and Python's str() raises TypeError on a non-string
   * result (None here).
   */
  function ApiErrorStrAsWritten(status: int, message: Option<seq<string>>): Option<string> {
    if message.None? then None
    else Some(IntToDecimal(status) + " (" + ListRepr(message.value) + ")")
  }

  /** The text of each exception; ApiError without a message renders its status in decimal. */
  function Str(e: KrakenError): string {
    match e
    case ApiError(status, message) =>
      if message.None? then IntToDecimal(status)
      else IntToDecimal(status) + " (" + ListRepr(message.value) + ")"
    case TransportError(base) =>
      if base.Some? then base.value else "An unknown error occurred."
    case HTTPError(code) => "HTTP Error: " + IntToDecimal(code)
    case Timeout => ""
    case RetriableRequest => ""
    case InvalidRequest => ""
    case BadParamterError(detail) => "Bad parameter error: " + detail
    case RequiredParameterError(required) => "Parameter " + required + " is required"
  }

  /** "HTTP Error: " followed by the decimal status, from which the status is recovered. */
  lemma HTTPErrorText(code: int)
    ensures |Str(HTTPError(code))| > 12
    ensures Str(HTTPError(code))[..12] == "HTTP Error: "
    ensures ParseDecimal(Str(HTTPError(code))[12..]) == Some(code)
  {
    var s := Str(HTTPError(code));
    assert s[12..] == IntToDecimal(code);
    DecimalRoundTrip(code);
  }

  /** An HTTPError is a TransportError without a base exception; its text never falls back to the unknown-error text. */
  lemma HTTPErrorIsTransportError(code: int)
    ensures IsTransportError(HTTPError(code))
    ensures Str(HTTPError(code)) != Str(TransportError(None))
  {
    HTTPErrorText(code);
    assert Str(TransportError(None))[..12] == "An unknown e";
  }

  /** Two RequiredParameterErrors print the same exactly when they name the same parameter. */
  lemma RequiredParameterTextInjective(a: string, b: string)
    ensures Str(RequiredParameterError(a)) == Str(RequiredParameterError(b)) <==> a == b
  {
    var s, t := Str(RequiredParameterError(a)), Str(RequiredParameterError(b));
    assert s[10..|s| - 12] == a;
    assert t[10..|t| - 12] == b;
  }

  /** Two BadParamterErrors print the same exactly when their messages agree. */
  lemma BadParamterTextInjective(a: string, b: string)
    ensures Str(BadParamterError(a)) == Str(BadParamterError(b)) <==> a == b
  {
    var s, t := Str(BadParamterError(a)), Str(BadParamterError(b));
    assert s[21..] == a;
    assert t[21..] == b;
  }

  /** An ApiError with a message begins with the decimal status followed by " (". */
  lemma ApiErrorText(status: int, message: seq<string>)
    ensures var s := Str(ApiError(status, Some(message)));
      var n := |IntToDecimal(status)|;
      |s| > n + 2 && ParseDecimal(s[..n]) == Some(status) && s[n..n + 2] == " ("
  {
    var s := Str(ApiError(status, Some(message)));
    var n := |IntToDecimal(status)|;
    assert s[..n] == IntToDecimal(status);
    DecimalRoundTrip(status);
  }

  /** Without a message, the source's ApiError.__str__ fails where the intended text is the status. */
  lemma ApiErrorStrWithoutMessage(status: int)
    ensures ApiErrorStrAsWritten(status, None) == None
    ensures ParseDecimal(Str(ApiError(status, None))) == Some(status)
  {
    DecimalRoundTrip(status);
  }

  /** Where the source does produce text, it agrees with Str. */
  lemma ApiErrorStrAgrees(status: int, message: Option<seq<string>>)
    ensures ApiErrorStrAsWritten(status, message).Some? <==> message.Some?
    ensures ApiErrorStrAsWritten(status, message).Some? ==>
      ApiErrorStrAsWritten(status, message).value == Str(ApiError(status, message))
  {
  }
}
