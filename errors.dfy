/** Error values of the module, after the errors package of the Cosmos SDK,
    and an optional value that stands for Go's `error` result. */
module Errors {

  /** The registered root errors that the module wraps. */
  datatype Code =
    | ErrInvalidAddress
    | ErrInvalidRequest
    | ErrUnknownRequest
    | ErrInvalidPubKey
    | ErrPanic

  /** An error: a registered root error, an error raised by code outside the
      module (the binary codec), or either of those wrapped with a reason
      (`sdkerrors.Wrap`). */
  datatype Error =
    | Registered(code: Code)
    | Foreign(message: string)
    | Wrap(cause: Error, reason: string)

  /** `sdkerrors.Wrap(code, reason)` on a registered root error. */
  function Failure(code: Code, reason: string): Error
  {
    Wrap(Registered(code), reason)
  }

  /** A Go `error` result: `None` stands for `nil`. */
  datatype Option<+T> = None | Some(value: T)
}
