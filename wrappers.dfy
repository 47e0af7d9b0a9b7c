// Outcomes of handlers and store statements.

module Wrappers {

  datatype Option<T> = None | Some(value: T)

  /** Why an operation stopped. Go's error strings and their wrapping are not
      modelled; only the root cause is kept. */
  datatype Error =
    | MissingAttribute(key: string)   // an event lacks an attribute the handler reads
    | DbError                         // the store rejected a statement
    | NoRows                          // a lookup matched no row
    | SourceError                     // a chain query failed
    | DecodeError                     // a genesis section could not be decoded
    | EncodeError                     // a value could not be marshalled to JSON
    | ParseError(what: string)        // a string did not parse as the handler expected
    | Panic(what: string)             // the Go code would panic here

  datatype Result<T> = Ok(value: T) | Err(error: Error)
  {
    predicate IsFailure() { Err? }

    function PropagateFailure<U>(): Result<U>
      requires Err?
    {
      Err(error)
    }

    function Extract(): T
      requires Ok?
    {
      value
    }
  }

  /** The `error` a Go function returns: nil (`Pass`) or an error. */
  datatype Outcome = Pass | Fail(error: Error)

  /** One SQL statement sent to the store: it is accepted or rejected, for reasons
      (constraints, connectivity) outside this model. */
  method Exec() returns (r: Outcome)
    ensures r == Pass || r == Fail(DbError)
  {
    var accepted: bool :| true;
    r := if accepted then Pass else Fail(DbError);
  }
}
