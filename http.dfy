/** Status codes and the response shape the handlers produce. */
module Http {
  import opened Json

  const OK := 200
  const Created := 201
  const BadRequest := 400
  const Forbidden := 403
  const NotFound := 404
  const Conflict := 409
  const UnsupportedMediaType := 415
  /** An exception the handler does not catch reaches the framework as a server error. */
  const ServerError := 500

  /** A reply: its status and its body (a message string, a JSON document, or null). */
  datatype Response = Response(status: int, body: Value)

  /** A handler step that either yields a value or ends the request with a response. */
  datatype Step<T> = Proceed(value: T) | Halt(response: Response)

  function Message(status: int, text: string): Response {
    Response(status, Str(text))
  }

  function Empty(status: int): Response {
    Response(status, Null)
  }
}
