/**
 * What a client call hands to the HTTP layer, as a value: the verb, the path
 * under the configured base URL (`/v4/...`), the authorization header, the
 * query parameters as they are sent (a parameter whose value is `undefined`
 * is not sent at all, so it is simply absent here) and the body.
 */
module Http {
  import opened Wrappers

  /** A query-parameter or body-field value. */
  datatype Value = Text(s: string) | TextList(items: seq<string>) | Number(n: int) | Flag(b: bool)

  datatype Verb = Get | Post | Patch

  /**
   * The body of a request: none (GET), a plain object literal, or the output
   * of the model serializer, which the client does not shape and which the
   * model therefore takes as given (its JSON text).
   */
  datatype Body = NoBody | Fields(fields: map<string, Value>) | Serialized(json: string)

  /** The text of a parameter, if it is present and a text. */
  function TextParam(q: map<string, Value>, name: string): Option<string> {
    if name in q && q[name].Text? then Some(q[name].s) else None
  }

  datatype Request = Request(
    verb: Verb,
    path: string,
    authorization: Option<string>,
    params: map<string, Value>,
    body: Body)

  /**
   * The outcome of planning a call: it fails before any request is made, or
   * it makes exactly this request.
   */
  datatype Plan = BadRequest(message: string) | Send(request: Request)

  /** The `authorization` header a call with a bearer token carries. */
  function Bearer(token: string): (h: Option<string>)
    ensures h.Some? && |h.value| == 7 + |token|
    ensures h.value[..7] == "Bearer " && h.value[7..] == token
  {
    Some("Bearer " + token)
  }
}
