/** What a handler sends back: a status code and a message (or message key). */
module Http {

  datatype Response = Response(status: int, message: string)

  function Ok(message: string): Response { Response(200, message) }
  function Created(message: string): Response { Response(201, message) }
  function BadRequest(message: string): Response { Response(400, message) }
  function Unauthorized(message: string): Response { Response(401, message) }
  function Forbidden(message: string): Response { Response(403, message) }
  function NotFound(message: string): Response { Response(404, message) }
  function ServerError(message: string): Response { Response(500, message) }

  /** A JSON value as a response body carries it. */
  datatype Json = JNull | JBool(b: bool) | JNum(n: int) | JStr(s: string) | JObj(fields: map<string, Json>)
}
