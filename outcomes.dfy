/** The exceptions the loader can raise, and the failure-compatible types that carry them. */
module Outcomes {

  /** The Python exceptions that reach the loader's callers. */
  datatype Error =
    | FileNotFound              // FileNotFoundError from open, listdir or remove
    | IsADirectory              // IsADirectoryError: the path names a directory
    | FileExists                // FileExistsError from makedirs
    | MalformedJson             // json.JSONDecodeError from json.load
    | NotAnObject               // TypeError: the parsed document is not a JSON object
    | MissingField(key: string) // KeyError on a lookup into the parsed document
    | NotAString                // TypeError: write() given a value that is not a str

  datatype Option<+T> = None | Some(value: T)

  /** A value, or the exception that was raised instead of producing it. */
  datatype Result<+T> = Ok(value: T) | Err(error: Error) {
    predicate IsFailure() { Err? }

    function PropagateFailure<U>(): Result<U>
      requires Err?
    {
      Err(error)
    }

    function Extract(): T
      requires Ok?
    {
      value
    }
  }

  /** How a side-effecting step ended: normally, or with an exception. */
  datatype Outcome = Done | Failed(error: Error)
}
