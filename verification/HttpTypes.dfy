/** The request and response values that pass between the parser, the router and the connection. */
module HttpTypes {
  type Headers = map<string, string>

  /** Header names are stored in lowercase by the parser. */
  datatype HttpRequest = HttpRequest(method_: string, path: string, version: string, headers: Headers, body: string)

  /** `headers` is a public map: a handler can put any spelling of a name in it. */
  datatype HttpResponse = HttpResponse(
    statusCode: int,
    statusText: string,
    headers: Headers,
    filePath: string,
    body: string)

  datatype ParseResult =
    | Success(request: HttpRequest, consumed: nat)
    | Incomplete
    | BadRequest
}
