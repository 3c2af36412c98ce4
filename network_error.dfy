/** The closed set of remote-call failure categories, their messages and their retry advice. */
module NetworkErrors {
  import opened Wrappers
  import opened Text

  /** The causes (`Throwable?`) the variants carry are not modelled. */
  datatype NetworkError =
    | BadResponse(statusCode: int, responseMessage: Option<string>)
    | MissingConfig
    | UrlBuildFailed(attemptedUrl: Option<string>)
    | NoConnection
    | Timeout
    | ParseError(jsonString: Option<string>)
    | Unknown(errorMessage: Option<string>)

  const ParseErrorMessage: string := "Failed to parse API response"
  const UnknownDefaultMessage: string := "An unknown network error occurred"
  const MissingConfigMessage: string := "API configuration is missing. Restart the app and try again."
  const NoConnectionMessage: string := "No internet connection. Please check your network settings."
  const TimeoutMessage: string := "Request timed out. Please try again."

  /** `isClientError()`: the status class, the hundreds digit, is 4. */
  predicate IsClientError(statusCode: int): (b: bool)
    ensures b <==> statusCode / 100 == 4
  {
    400 <= statusCode <= 499
  }

  /** `isServerError()`: the status class, the hundreds digit, is 5. */
  predicate IsServerError(statusCode: int): (b: bool)
    ensures b <==> statusCode / 100 == 5
  {
    500 <= statusCode <= 599
  }

  /** No status code is both a client error and a server error. */
  lemma ClientAndServerErrorsDisjoint(statusCode: int)
    ensures !(IsClientError(statusCode) && IsServerError(statusCode))
  {
  }

  /** The exception message each variant passes to `Exception(message)`. */
  function Message(e: NetworkError): (m: string)
    ensures e.BadResponse? ==>
      m == "HTTP Error " + IntToDecimal(e.statusCode) + ": " + OrElse(e.responseMessage, "Unknown error")
    ensures e.UrlBuildFailed? ==>
      && StartsWith(m, "Failed to build URL")
      && (m == "Failed to build URL" <==> e.attemptedUrl.None?)
      && (e.attemptedUrl.Some? ==> m == "Failed to build URL: " + e.attemptedUrl.value)
    ensures e.MissingConfig? ==> m == MissingConfigMessage
    ensures e.NoConnection? ==> m == NoConnectionMessage
    ensures e.Timeout? ==> m == TimeoutMessage
    ensures e.ParseError? ==> m == ParseErrorMessage
    ensures e.Unknown? ==> (e.errorMessage.Some? ==> m == e.errorMessage.value) && (e.errorMessage.None? ==> m == UnknownDefaultMessage)
  {
    match e
    case BadResponse(code, msg) => "HTTP Error " + IntToDecimal(code) + ": " + OrElse(msg, "Unknown error")
    case MissingConfig => MissingConfigMessage
    case UrlBuildFailed(url) =>
      "Failed to build URL" + (match url case Some(u) => ": " + u case None => "")
    case NoConnection => NoConnectionMessage
    case Timeout => TimeoutMessage
    case ParseError(_) => ParseErrorMessage
    case Unknown(msg) => OrElse(msg, UnknownDefaultMessage)
  }

  /** The status code, and the response message or its placeholder, can be read back from a bad response's message. */
  lemma BadResponseMessageInjective(c1: int, r1: Option<string>, c2: int, r2: Option<string>)
    requires Message(BadResponse(c1, r1)) == Message(BadResponse(c2, r2))
    ensures c1 == c2 && OrElse(r1, "Unknown error") == OrElse(r2, "Unknown error")
  {
    var prefix := "HTTP Error ";
    var m1 := Message(BadResponse(c1, r1));
    assert m1 == prefix + (IntToDecimal(c1) + [':'] + (" " + OrElse(r1, "Unknown error")));
    assert Message(BadResponse(c2, r2)) == prefix + (IntToDecimal(c2) + [':'] + (" " + OrElse(r2, "Unknown error")));
    assert m1[|prefix|..] == IntToDecimal(c1) + [':'] + (" " + OrElse(r1, "Unknown error"));
    assert m1[|prefix|..] == IntToDecimal(c2) + [':'] + (" " + OrElse(r2, "Unknown error"));
    DecimalThenSeparatorInjective(c1, c2, ':', " " + OrElse(r1, "Unknown error"), " " + OrElse(r2, "Unknown error"));
    assert OrElse(r1, "Unknown error") == (" " + OrElse(r1, "Unknown error"))[1..];
  }

  /** The parse error's message ignores the captured text. */
  lemma ParseErrorMessageIgnoresJson(a: Option<string>, b: Option<string>)
    ensures Message(ParseError(a)) == Message(ParseError(b))
  {
  }

  const InvalidRequestText: string := "Invalid request. Please try again."
  const ServerErrorText: string := "Server error. Please try again later."
  const NetworkErrorText: string := "Network error occurred."
  const MissingConfigText: string := "App configuration error. Please reinstall the app."
  const UrlBuildFailedText: string := "Invalid URL. Please contact support."
  const NoConnectionText: string := "No internet connection. Please check your network."
  const TimeoutText: string := "Request timed out. Please try again."
  const ParseErrorText: string := "Error processing data. Please try again."
  const UnknownFallbackText: string := "Something went wrong. Please try again."

  /** The text shown to the user for each category. */
  function UserMessage(e: NetworkError): (m: string)
    ensures e.BadResponse? ==>
      && (m == InvalidRequestText <==> IsClientError(e.statusCode))
      && (m == ServerErrorText <==> IsServerError(e.statusCode))
      && (m == NetworkErrorText <==> !IsClientError(e.statusCode) && !IsServerError(e.statusCode))
    ensures e.MissingConfig? ==> m == MissingConfigText
    ensures e.UrlBuildFailed? ==> m == UrlBuildFailedText
    ensures e.NoConnection? ==> m == NoConnectionText
    ensures e.Timeout? ==> m == TimeoutText
    ensures e.ParseError? ==> m == ParseErrorText
    ensures e.Unknown? && e.errorMessage.Some? ==> m == e.errorMessage.value
    ensures e.Unknown? && e.errorMessage.None? ==> m == UnknownFallbackText
  {
    match e
    case BadResponse(code, _) =>
      if IsClientError(code) then InvalidRequestText
      else if IsServerError(code) then ServerErrorText
      else NetworkErrorText
    case MissingConfig => MissingConfigText
    case UrlBuildFailed(_) => UrlBuildFailedText
    case NoConnection => NoConnectionText
    case Timeout => TimeoutText
    case ParseError(_) => ParseErrorText
    case Unknown(msg) => OrElse(msg, UnknownFallbackText)
  }

  /** Only connectivity failures, timeouts and 5xx responses are worth retrying. */
  function IsRetryable(e: NetworkError): (b: bool)
    ensures b <==> e.NoConnection? || e.Timeout? || (e.BadResponse? && 500 <= e.statusCode <= 599)
  {
    match e
    case BadResponse(code, _) => IsServerError(code)
    case NoConnection => true
    case Timeout => true
    case MissingConfig => false
    case UrlBuildFailed(_) => false
    case ParseError(_) => false
    case Unknown(_) => false
  }
}
