/**
 The error kinds the streaming client reports, and the crate's `Result<T>`
 (a value or one `Error`). Only the variants this core produces appear here.
 `Disconnected` is not one of the crate's variants: it stands for the `Msg`
 the code builds from a close frame.
 */
module Errors {

  import opened Options

  /** Payload of a close frame: the status code and the reason text. */
  datatype CloseFrame = CloseFrame(code: nat, reason: string)

  datatype Error =
    | Msg(text: string)                       // a free-form message error
    | Json(cause: string)                     // a text frame that did not decode
    | WebSocket(cause: string)                // the socket failed while reading or closing
    | UrlParser(cause: string)                // the endpoint URL was rejected
    // The server sent a close frame. Stands in for the crate's
    // `Msg("Disconnected " + <Debug rendering of the payload>)`.
    | Disconnected(frame: Option<CloseFrame>)

  datatype Result<+T> = Ok(value: T) | Err(error: Error)

  /** What a call into code outside the model hands back: a value, or the
      rendered text of the error it raised. */
  datatype External<+T> = Done(value: T) | Failed(cause: string)
}
