/** Optional values and the results of calls that may fail with one of the SDK's error codes. */
module Results {
  datatype Option<+T> = None | Some(value: T)

  datatype ErrorCode =
    | InvalidArgument | StaleReference | Conflict | PermissionDenied | NotFound
    | ResourceExhausted | Cancelled | BackendFailed

  datatype Result<+T> = Ok(value: T) | Err(code: ErrorCode) {
    predicate IsFailure() { Err? }
    function PropagateFailure<U>(): Result<U> requires Err? { Err(code) }
    function Extract(): T requires Ok? { value }
  }

  datatype Unit = Unit

  /** `requireCondition`. */
  function Require(condition: bool, code: ErrorCode): Result<Unit> {
    if condition then Ok(Unit) else Err(code)
  }
}
