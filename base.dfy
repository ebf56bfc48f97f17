/** Error values and the failure-compatible wrappers every other module uses. */
module Base {

  datatype Option<+T> = None | Some(value: T)

  /** The classes of Go `error` the operator distinguishes. */
  datatype ErrorKind =
    | NotFound         // a Kubernetes "not found" status error (k8serr.IsNotFound)
    | Conflict         // a Kubernetes resource-version conflict (k8serr.IsConflict)
    | NotExist         // a file-system "no such file or directory" error (os.IsNotExist)
    | SpecFileMissing  // the ErrFileNotExist sentinel of controllers/helpers.go
    | Other            // any other error, e.g. one built by errors.New

  /** A Go `error`: its class and the text `err.Error()` returns. */
  datatype Error = Error(kind: ErrorKind, msg: string)

  /** A Go `(value, error)` pair in which the value is never used when the error is set. */
  datatype Result<+T> = Ok(value: T) | Err(error: Error) {
    predicate IsFailure() { Err? }

    function PropagateFailure<U>(): Result<U>
      requires Err?
    {
      Err(error)
    }

    function Extract(): T
      requires Ok?
    {
      value
    }
  }

  /** `errors.New(msg)`: an error of no particular class. */
  function NewError(msg: string): Error {
    Error(Other, msg)
  }

  /** `client.IgnoreNotFound(err)` of controller-runtime: nil for a not-found error, the error otherwise. */
  function IgnoreNotFound(e: Error): (r: Option<Error>)
    ensures r.None? <==> e.kind == NotFound
    ensures r.Some? ==> r.value == e
  {
    if e.kind == NotFound then None else Some(e)
  }
}
