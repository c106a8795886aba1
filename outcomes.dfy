/** Optional values and the exceptions the engines raise, as return values. */
module Outcomes {

  datatype Option<+T> = None | Some(value: T)

  /** The exceptions of the source: a failed `assert`, the `Exception` a
      self-closing tag raises when called, and the `TypeError`s of calling
      `SelfClosingTag.__init__` with positional arguments or iterating `None`. */
  datatype Error = AssertionFailed | SelfClosingCall | TypeError

  datatype Result<+T> = Ok(value: T) | Err(error: Error)
}
