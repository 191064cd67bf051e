/**
 * The error classes declared in lib/tara.rb, and the failure-compatible
 * result type the model uses in place of Ruby exceptions: a step that raises
 * returns `Err`, and `:-` propagates it, aborting everything after it.
 */
module Errors {

  datatype Error =
    | ExecError(message: string)              // a shell command exited non-zero
    | NotFoundError(message: string)          // HTTP 404 from the release server
    | TooManyRedirectsError(message: string)  // redirect budget exhausted
    | UnknownResponseError(message: string)   // any other HTTP status
    | FileError(reason: string, path: string) // an Errno raised by File / FileUtils

  datatype Result<+T> = Ok(value: T) | Err(error: Error) {

    predicate IsFailure() {
      Err?
    }

    function PropagateFailure<U>(): Result<U>
      requires Err?
    {
      Err(error)
    }

    function Extract(): T
      requires Ok?
    {
      value
    }
  }

  datatype Option<+T> = None | Some(value: T)

  /** Whether a step that yields no value ran to its end or raised. */
  datatype Status = Completed | Raised(error: Error)

  function StatusOf<T>(r: Result<T>): (s: Status)
    ensures s.Raised? <==> r.Err?
    ensures r.Err? ==> s.error == r.error
  {
    match r
    case Ok(_) => Completed
    case Err(e) => Raised(e)
  }
}
