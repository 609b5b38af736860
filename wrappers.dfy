/** Small value wrappers shared by every module. */
module Wrappers {

  /** A value that may be absent: JavaScript's `undefined` / `null`. */
  datatype Option<+T> = None | Some(value: T)

  /**
   * The outcome of one REST call, supplied by the caller: the HTTP layer
   * either delivers a decoded body or fails (transport error, non-2xx
   * status, decoding error), which the services treat alike.
   */
  datatype Remote<+T> = Succeeded(value: T) | Failed
}
