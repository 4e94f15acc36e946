/** Option and Result, the two wrappers the rest of the model is built on. */
module Common {

  /** A value that may be absent: a DOM lookup that found nothing, a parse that gave NaN. */
  datatype Option<T> = None | Some(value: T)

  /** The outcome of a call that may throw: the value it resolved to, or the reason it threw. */
  datatype Result<T> = Ok(value: T) | Err(cause: string)

  /** `x || ''` for an optional string: the value when present, else the empty string. */
  function OrEmpty(x: Option<string>): (r: string)
    ensures x.Some? ==> r == x.value
    ensures x.None? ==> r == ""
  {
    match x
    case Some(v) => v
    case None => ""
  }
}
