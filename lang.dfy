/** Java's null references and exceptions, as values. */
module Lang {

  /** A reference that may be null: `None` stands for Java's `null`. */
  datatype Option<+T> = None | Some(value: T)

  /** The outcome of a step that may throw; failure-compatible, so `:-` propagates `Err`. */
  datatype Result<+T, +E> = Ok(value: T) | Err(error: E) {
    predicate IsFailure() {
      Err?
    }

    function PropagateFailure<U>(): Result<U, E>
      requires Err?
    {
      Err(error)
    }

    function Extract(): T
      requires Ok?
    {
      value
    }
  }

  /** The exceptions the appender throws or catches. */
  datatype Exception =
    | IllegalState(message: string)  // java.lang.IllegalStateException
    | IOError(message: string)       // java.io.IOException and its subclasses
    | ClassCast(message: string)     // java.lang.ClassCastException

  /** Returns `arg` when it is non-null and throws an IllegalStateException carrying `message` otherwise. */
  function CheckNotNull<T>(arg: Option<T>, message: string): (r: Result<T, Exception>)
    ensures r.Ok? <==> arg.Some?
    ensures r.Ok? ==> r.value == arg.value
    ensures r.Err? ==> r.error == IllegalState(message)
  {
    if arg.None? then Err(IllegalState(message)) else Ok(arg.value)
  }
}
