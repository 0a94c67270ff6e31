/** Shared vocabulary of the model: optional values, the error taxonomy the
    controllers report, and the result-or-error variant every operation returns.
    HTTP status codes are not modelled; an error carries its kind and the
    human-readable message the handler throws. */
module Common {

  /** Record identifiers (document-store object ids, compared as strings). */
  type Id = string

  /** A calendar date as a day stamp. */
  type Day = int

  datatype Option<+T> = None | Some(value: T) {

    /** The wrapped value, or `default` when absent (JavaScript `x ?? default`). */
    function GetOr(default: T): T {
      match this
      case Some(v) => v
      case None => default
    }
  }

  /** The kinds of failure a request can end in. */
  datatype ErrorKind =
    | Validation     // a missing or malformed field
    | NotFound       // the record looked up does not exist
    | NotAuthorized  // the requester does not own the record, or bad credentials
    | Forbidden      // a public read of a private portfolio
    | Conflict       // a duplicate unique value or a second portfolio
    | Internal       // a failure the handler wraps into a generic message

  datatype Error = Error(kind: ErrorKind, message: string)

  datatype Result<+T> = Ok(value: T) | Err(error: Error) {

    predicate IsFailure() {
      Err?
    }

    function PropagateFailure<U>(): Result<U>
      requires Err?
    {
      Err(error)
    }

    function Extract(): T
      requires Ok?
    {
      value
    }
  }

  /** The error a handler throws, as a result. */
  function Fail<T>(kind: ErrorKind, message: string): Result<T> {
    Err(Error(kind, message))
  }
}
