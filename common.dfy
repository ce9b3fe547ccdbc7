/** Values shared by every package of the service: Go's `error`, the optional
    value used wherever Go uses nil, the JSON error body and what a handler
    asks the HTTP context to send. */
module Common {

  /** A value or nothing; stands for Go's nil where a pointer or an error may be absent. */
  datatype Option<+T> = None | Some(value: T)

  /** A non-nil Go `error`; `message` is what its `Error()` method returns. */
  datatype GoError = GoError(message: string)

  /** The JSON error body `{"code": ..., "message": ...}` (models.Error / fiber.Error). */
  datatype ErrorBody = ErrorBody(code: int, message: string)

  /** A request body after the framework's body parser ran: either the decoded
      request or the error the parser reported. */
  datatype Body<T> = Parsed(request: T) | Unparseable(error: GoError)

  /** What a handler asked the HTTP context to send before returning nil:
      a JSON payload with the default status 200, a bare status code, or an
      error body with its status code (a call of `SendError`). */
  datatype Reply<T> = Json(payload: T) | Status(code: int) | Failure(code: int, message: string)

  /** What the handlers answer when no room matches, or when the matching room
      document does not decode. */
  const RoomNotFound: string := "room not found"
  const RoomUnreadable: string := "unable to retrieve room information"
}
