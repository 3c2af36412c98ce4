/**
 * The exceptions the repository can meet and Kotlin's `Result<T>`. An exception's own message
 * (`Throwable.message`) is an input, except for a `NetworkError`, whose message the model computes.
 */
module Failures {
  import opened Wrappers
  import opened NetworkErrors

  datatype Throwable =
    | UnknownHostException(detail: Option<string>)
    | SocketTimeoutException(detail: Option<string>)
      /** An HTTP response with a non-2xx status; `responseMessage` is what `message()` returns. */
    | HttpException(code: int, responseMessage: string, detail: Option<string>)
    | NetworkException(error: NetworkError)
    | OtherException(detail: Option<string>)

  /** `Throwable.message`. */
  function MessageOf(e: Throwable): (m: Option<string>)
    ensures e.NetworkException? ==> m == Some(Message(e.error))
    ensures !e.NetworkException? ==> m == e.detail
  {
    match e
    case NetworkException(err) => Some(Message(err))
    case UnknownHostException(d) => d
    case SocketTimeoutException(d) => d
    case HttpException(_, _, d) => d
    case OtherException(d) => d
  }

  /** Kotlin's `Result<T>`: a value or the exception that replaced it. */
  datatype Result<+T> = Success(value: T) | Failure(exception: Throwable)

  /** `Result.getOrElse { default }`. */
  function GetOrElse<T>(r: Result<T>, default: T): T
  {
    match r
    case Success(v) => v
    case Failure(_) => default
  }
}
