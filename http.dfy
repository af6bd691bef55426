/** The JSON responses the route handlers return (`NextResponse.json`). */
module Http {
  import opened Json

  datatype Response = Response(status: int, body: Value)

  /** `NextResponse.json(fields)` with the default status 200. */
  function Ok(fields: Object): Response {
    Response(200, Obj(fields))
  }

  /** `NextResponse.json({ error: message }, { status })`. */
  function Error(status: int, message: string): Response {
    Response(status, Obj(map["error" := Str(message)]))
  }
}
