/** Optional values and results shared by the modules of this model. */
module Common {

  /** A value that may be absent: `null` / `undefined` in the application. */
  datatype Option<+T> = None | Some(value: T)

  /** The outcome of an operation that may throw: its value, or the message of the error it throws. */
  datatype Result<+T> = Ok(value: T) | Err(message: string)

  /** A React context read through its hook: the value inside the provider; outside it, the error
      the hook throws with the given message. */
  function UseContext<T>(context: Option<T>, message: string): (r: Result<T>)
    ensures r.Ok? <==> context.Some?
    ensures r.Ok? ==> r.value == context.value
    ensures r.Err? ==> r.message == message
  {
    match context
    case Some(v) => Ok(v)
    case None => Err(message)
  }
}
