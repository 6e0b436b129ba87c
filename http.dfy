/** HTTP requests and responses as the forms and the intake routes exchange them. */
module Http {
  import opened Json

  /** `NextResponse.json(body, { status })`. */
  datatype Response = Response(status: int, body: Json)

  /** A `fetch` POST with a JSON body. */
  datatype Request = Request(url: string, body: Json)

  /** A request as a form sends it, and whether the form showed itself as submitting at that moment. */
  datatype Sent = Sent(request: Request, whileSubmitting: bool)

  /** What a `fetch` call comes back with: it throws, or it resolves with a status code. */
  datatype FetchResult = NetworkError | Responded(status: int)

  /** `response.ok`. */
  predicate Ok(status: int) {
    200 <= status <= 299
  }

  /** `NextResponse.json({ error: message }, { status })`. */
  function ErrorResponse(status: int, message: string): Response {
    Response(status, JObj(map["error" := JStr(message)]))
  }

  /** `NextResponse.json({ success: true })`: status 200 by default. */
  const SuccessResponse: Response := Response(200, JObj(map["success" := JBool(true)]))
}
