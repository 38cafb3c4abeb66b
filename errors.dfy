/** The library's error values (base/errors.go): a BingAdsError carrying a
    code, a message and an optional cause, or any other Go `error`, of which
    only the text matters here. */
module Errors {
  import opened Wrappers

  // request errors
  const ErrInvalidInput := "INVALID_INPUT"
  const ErrSerializationFail := "SERIALIZATION_FAIL"
  // network errors
  const ErrNetworkFail := "NETWORK_FAIL"
  const ErrHTTPRequestFail := "HTTP_REQUEST_FAIL"
  // response errors
  const ErrInvalidResponse := "INVALID_RESPONSE"
  const ErrDeserializationFail := "DESERIALIZATION_FAIL"
  // API errors
  const ErrAPIError := "API_ERROR"
  const ErrAuthError := "AUTH_ERROR"
  const ErrRateLimitError := "RATE_LIMIT_ERROR"

  datatype Error =
    | BingAdsError(code: string, message: string, cause: Option<Error>)
      /** An error of another type, such as one built by fmt.Errorf. */
    | OtherError(text: string)

  function NewError(code: string, message: string, cause: Option<Error>): (e: Error)
    ensures e.BingAdsError? && e.code == code && e.message == message && e.cause == cause
  {
    BingAdsError(code, message, cause)
  }

  const ErrorPrefix := "BingAds API 错误 ["

  /** `Error()`: the code in brackets, the message, and ` - ` with the
      cause's own text only when there is a cause. */
  function ErrorString(e: Error): (s: string)
    ensures e.OtherError? ==> s == e.text
    // without a cause: the code in brackets after the prefix, then the message
    ensures e.BingAdsError? && e.cause.None? ==> s == ErrorPrefix + e.code + "]: " + e.message
    // with one: that same text, then ` - ` and the cause's own text
    ensures e.BingAdsError? && e.cause.Some? ==>
      s == ErrorPrefix + e.code + "]: " + e.message + " - " + ErrorString(e.cause.value)
    decreases e
  {
    match e
    case OtherError(text) => text
    case BingAdsError(code, message, cause) =>
      if cause.Some? then ErrorPrefix + code + "]: " + message + " - " + ErrorString(cause.value)
      else ErrorPrefix + code + "]: " + message
  }

  function IsAuthError(e: Error): (b: bool)
    ensures b <==> e.BingAdsError? && e.code == ErrAuthError
  {
    match e
    case BingAdsError(code, _, _) => code == ErrAuthError
    case OtherError(_) => false
  }

  function IsRateLimitError(e: Error): (b: bool)
    ensures b <==> e.BingAdsError? && e.code == ErrRateLimitError
  {
    match e
    case BingAdsError(code, _, _) => code == ErrRateLimitError
    case OtherError(_) => false
  }

  function IsAPIError(e: Error): (b: bool)
    ensures b <==> e.BingAdsError? && e.code == ErrAPIError
  {
    match e
    case BingAdsError(code, _, _) => code == ErrAPIError
    case OtherError(_) => false
  }

  // ----------------------------------------------------------------------
  // Properties

  /** The three classifiers are mutually exclusive. */
  lemma ClassifiersExclusive(e: Error)
    ensures !(IsAuthError(e) && IsRateLimitError(e))
    ensures !(IsAuthError(e) && IsAPIError(e))
    ensures !(IsRateLimitError(e) && IsAPIError(e))
  {
  }

  /** A new error is classified by its code alone; message and cause play no part. */
  lemma NewErrorClassified(code: string, message: string, cause: Option<Error>)
    ensures IsAuthError(NewError(code, message, cause)) <==> code == ErrAuthError
    ensures IsRateLimitError(NewError(code, message, cause)) <==> code == ErrRateLimitError
    ensures IsAPIError(NewError(code, message, cause)) <==> code == ErrAPIError
  {
  }

  /** An error of any other type is never classified. */
  lemma OtherErrorsUnclassified(text: string)
    ensures !IsAuthError(OtherError(text)) && !IsRateLimitError(OtherError(text)) && !IsAPIError(OtherError(text))
  {
  }

  /** The text of t up to its first ']', if it has one. */
  function UntilBracket(t: string): Option<string>
    decreases |t|
  {
    if t == [] then None
    else if t[0] == ']' then Some([])
    else match UntilBracket(t[1..])
      case None => None
      case Some(rest) => Some([t[0]] + rest)
  }

  /** Reads the code back out of a BingAdsError's text. */
  function ReadCode(s: string): Option<string>
  {
    if |s| >= |ErrorPrefix| && s[..|ErrorPrefix|] == ErrorPrefix then UntilBracket(s[|ErrorPrefix|..])
    else None
  }

  lemma {:induction false} UntilBracketOf(code: string, rest: string)
    requires ']' !in code
    ensures UntilBracket(code + "]" + rest) == Some(code)
    decreases |code|
  {
    if code == [] {
      assert (code + "]" + rest)[0] == ']';
    } else {
      assert (code + "]" + rest)[1..] == code[1..] + "]" + rest;
      UntilBracketOf(code[1..], rest);
      assert [code[0]] + code[1..] == code;
    }
  }

  /** A code without ']' can be read back from the error's text, with or
      without a cause. */
  lemma CodeRoundTrip(code: string, message: string, cause: Option<Error>)
    requires ']' !in code
    ensures ReadCode(ErrorString(NewError(code, message, cause))) == Some(code)
  {
    var s := ErrorString(NewError(code, message, cause));
    var rest := if cause.Some? then ": " + message + " - " + ErrorString(cause.value) else ": " + message;
    assert s == ErrorPrefix + (code + "]" + rest);
    assert s[..|ErrorPrefix|] == ErrorPrefix;
    assert s[|ErrorPrefix|..] == code + "]" + rest;
    UntilBracketOf(code, rest);
  }

  /** With a cause, the text ends with the cause's own text after ` - `;
      the part before is the text the same error has without a cause. */
  lemma CauseIsSuffix(code: string, message: string, cause: Error)
    ensures var withCause := ErrorString(NewError(code, message, Some(cause)));
            var without := ErrorString(NewError(code, message, None));
            withCause == without + " - " + ErrorString(cause)
  {
  }
}
