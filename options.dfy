/** `null`-or-value, and the normal-or-thrown end of an event handler. */
module Options {

  datatype Option<T> = None | Some(value: T)

  /** How a handler ended: normally, or by throwing the named error. */
  datatype Outcome = Completed | Threw(error: string)
}
