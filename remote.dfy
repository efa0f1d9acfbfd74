/** What the application gets back from the services it calls (the database client, the
    payment providers): either a value or a failure. The calls themselves are not modelled;
    each reply is a parameter of the operation that awaits it. */
module Remote {

  /** A failure as the catching code sees it: whether the thrown value is an `Error`
      instance, and its `message` property (`""` when it has none). A `catch` block that tests
      `instanceof Error` shows the message only for an `Error`; one that reads
      `err.message || fallback` shows any non-empty message, whatever was thrown.
      Database-client errors may or may not be `Error` instances. */
  datatype Failure = Failure(isError: bool, message: string)

  datatype Reply<T> = Ok(value: T) | Err(failure: Failure)

  /** `throw new Error(message)`. */
  function Thrown(message: string): (f: Failure)
    ensures f.isError && f.message == message
  {
    Failure(true, message)
  }

  /** `error instanceof Error ? error.message : fallback`. */
  function ErrorText(f: Failure, fallback: string): (r: string)
    ensures f.isError ==> r == f.message
    ensures !f.isError ==> r == fallback
  {
    if f.isError then f.message else fallback
  }

  /** `err.message || fallback` for a thrown value: its message when non-empty, whether or
      not the value is an `Error`, and the fallback otherwise. */
  function MessageOr(f: Failure, fallback: string): (r: string)
    ensures f.message != "" ==> r == f.message
    ensures f.message == "" ==> r == fallback
  {
    if f.message != "" then f.message else fallback
  }
}
