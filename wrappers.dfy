/** Option, and the shape of an HTTP exchange whose other end is not modelled. */
module Wrappers {

  datatype Option<+T> = None | Some(value: T)

  /** What a call to an HTTP client gives the caller: either the call threw
      (network error, DNS failure, timeout) with a message, or it returned a
      status code and a body that was then parsed as `J`. */
  datatype Reply<+J> = Threw(message: string) | Replied(code: int, body: Body<J>)

  /** The result of parsing a response body: parsing can throw with a message. */
  datatype Body<+J> = Malformed(message: string) | Parsed(value: J)
}
