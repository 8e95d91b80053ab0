/** The flashcards route: POST `{ notes }`, answered with whatever JSON the model produced. */
module FlashcardsRoute {
  import opened Wrappers
  import opened Json
  import opened Http
  import opened Upstream

  const NotesRequired: string := "Notes are required"
  const InternalError: string := "Failed to generate flashcards due to internal server error."

  /** The payload: the flashcard instructions with the notes appended, and the flashcards schema. */
  function FlashcardsPayload(notes: string): (p: Payload)
    ensures p.userQuery.Templated? && p.userQuery.template == FlashcardsSchema && p.userQuery.input == notes
    ensures p.generationConfig == Some(p.userQuery.template)
  {
    Payload(Templated(FlashcardsSchema, notes), Some(FlashcardsSchema))
  }

  /**
   * Everything after the retry loop, with the outer `catch`. Unlike the quiz route, any value
   * that parses is returned as it is, whether or not it has a `flashcards` member.
   */
  function Respond(result: FetchResult, parse: string -> Option<Json>): (resp: Response)
    ensures resp.status == 200 <==> HasContent(result) && parse(result.body.text.value).Some?
    ensures resp.status == 200 ==> resp.body == JsonBody(parse(result.body.text.value).value)
    ensures resp.status != 200 ==> resp.status == 500
    ensures resp == Error(500, InternalError) <==> result.Thrown? || result == Fetched(NotJson)
    ensures resp == Error(500, NoContent) <==> result.Fetched? && result.body.Envelope? && !HasContent(result)
    ensures resp == Error(500, InvalidStructure) <==> HasContent(result) && parse(result.body.text.value).None?
  {
    match result
    case Thrown(_) => Error(500, InternalError)
    case Fetched(NotJson) => Error(500, InternalError)
    case Fetched(Envelope(text)) =>
      if Provided(text) then
        match parse(text.value)
        case Some(flashcardsData) => Response(200, JsonBody(flashcardsData))
        case None => Error(500, InvalidStructure)
      else
        Error(500, NoContent)
  }

  /** The handler; a body that is not JSON ends in the internal error, not in a 400. */
  method Post(req: Request, upstream: nat -> Attempt, parse: string -> Option<Json>)
    returns (sent: Option<Payload>, calls: nat, delays: seq<nat>, resp: Response)
    ensures req.Unreadable? ==> sent.None? && calls == 0 && delays == [] && resp == Error(500, InternalError)
    ensures req.Fields? && !Provided(req.field) ==>
      sent.None? && calls == 0 && delays == [] && resp == Error(400, NotesRequired)
    ensures req.Fields? && Provided(req.field) ==>
      && sent == Some(FlashcardsPayload(req.field.value))
      && calls == Retry(upstream).calls && delays == Retry(upstream).delays
      && resp == Respond(Retry(upstream).result, parse)
  {
    sent, calls, delays := None, 0, [];
    if req.Unreadable? {
      resp := Error(500, InternalError);
      return;
    }
    if !Provided(req.field) {
      resp := Error(400, NotesRequired);
      return;
    }
    sent := Some(FlashcardsPayload(req.field.value));
    var result;
    calls, delays, result := CallWithRetry(upstream);
    resp := Respond(result, parse);
  }

  /** An answered request returns exactly the value the successful call's text parses to. */
  lemma AnswerIsParsedContent(upstream: nat -> Attempt, parse: string -> Option<Json>)
    requires Respond(Retry(upstream).result, parse).status == 200
    ensures var k := Retry(upstream).calls - 1;
      && Succeeds(upstream(k))
      && upstream(k).body.Envelope? && upstream(k).body.text.Some?
      && Respond(Retry(upstream).result, parse).body == JsonBody(parse(upstream(k).body.text.value).value)
  {
    RetryStopsAtFirstSuccess(upstream);
  }
}
