/** The app's three-state `Resource` wrapper and its helpers. */
module Resources {
  import opened Wrappers
  import opened Failures

  /** `Error.message` defaults to the exception's own message; build it with `ErrorOf`. */
  datatype Resource<+T> = Loading | Success(data: T) | Error(exception: Throwable, message: Option<string>)

  /** `Resource.Error(exception)` with the default message. */
  function ErrorOf<T>(exception: Throwable): (r: Resource<T>)
    ensures r.Error? && r.exception == exception && r.message == MessageOf(exception)
  {
    Error(exception, MessageOf(exception))
  }

  /** Which callback `handle` invokes, and with what argument. */
  datatype Invocation<+T> = OnLoading | OnSuccess(data: T) | OnError(exception: Throwable)

  /** `handle`: exactly the callback matching the variant, given the data or the exception. */
  function Handle<T>(r: Resource<T>): (call: Invocation<T>)
    ensures call.OnLoading? <==> IsLoading(r)
    ensures call.OnSuccess? <==> IsSuccess(r)
    ensures call.OnError? <==> IsError(r)
    ensures call.OnSuccess? ==> call.data == r.data
    ensures call.OnError? ==> call.exception == r.exception
  {
    match r
    case Loading => OnLoading
    case Success(d) => OnSuccess(d)
    case Error(e, _) => OnError(e)
  }

  /** `dataOrNull`: the data of a success, null otherwise. */
  function DataOrNull<T>(r: Resource<T>): (d: Option<T>)
    ensures d.Some? <==> IsSuccess(r)
    ensures d.Some? ==> d.value == r.data
  {
    if r.Success? then Some(r.data) else None
  }

  /** `isSuccess()`: neither loading nor failed. */
  predicate IsSuccess<T>(r: Resource<T>): (b: bool)
    ensures b <==> !r.Loading? && !r.Error?
  {
    r.Success?
  }

  /** `isLoading()`: neither holding data nor failed. */
  predicate IsLoading<T>(r: Resource<T>): (b: bool)
    ensures b <==> !r.Success? && !r.Error?
  {
    r.Loading?
  }

  /** `isError()`: neither loading nor holding data. */
  predicate IsError<T>(r: Resource<T>): (b: bool)
    ensures b <==> !r.Loading? && !r.Success?
  {
    r.Error?
  }

  /** Every value is in exactly one of the three states. */
  lemma ExactlyOneState<T>(r: Resource<T>)
    ensures (if IsSuccess(r) then 1 else 0) + (if IsLoading(r) then 1 else 0) + (if IsError(r) then 1 else 0) == 1
  {
  }
}
