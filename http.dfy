/** What a route handler receives and what it answers. */
module Http {
  import opened Wrappers
  import Json
  import Upstream

  /**
   * The request after `await req.json()` and the destructuring of its one field.
   * `Unreadable`: the body is not JSON, or is JSON `null`, so the read or the destructuring throws.
   * `Fields(field)`: the field's string value, None when it is missing or `null`.
   */
  datatype Request = Unreadable | Fields(field: Option<string>)

  /** `!field` is false: the field is present and not the empty string. */
  predicate Provided(field: Option<string>): (r: bool)
    ensures r <==> Json.Truthy(if field.Some? then Some(Json.JString(field.value)) else None)
  {
    field.Some? && field.value != ""
  }

  /** The envelope text of a fetched response is a non-empty (truthy) string. */
  predicate HasContent(result: Upstream.FetchResult): (r: bool)
    ensures r <==> result.Fetched? && result.body.Envelope? && Json.Truthy(
      if result.body.text.Some? then Some(Json.JString(result.body.text.value)) else None)
  {
    result.Fetched? && result.body.Envelope? && Provided(result.body.text)
  }

  const NoContent: string := "No content returned from LLM"
  const InvalidStructure: string := "LLM returned invalid JSON structure"

  datatype Body =
    | ErrorBody(error: string)
    | JsonBody(value: Json.Json)
    | AnswerBody(answer: string)

  /** `NextResponse.json(body, { status })`; the status defaults to 200. */
  datatype Response = Response(status: nat, body: Body)

  function Error(status: nat, message: string): Response {
    Response(status, ErrorBody(message))
  }
}
