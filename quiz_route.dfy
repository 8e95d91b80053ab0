/** The quiz route: POST `{ text }`, answered with the model's `{ quiz: [...] }` object. */
module QuizRoute {
  import opened Wrappers
  import opened Json
  import opened Http
  import opened Upstream

  const TextRequired: string := "Text is required to generate a quiz"
  const InternalError: string := "Failed to generate quiz due to internal server error."

  /** The payload: the quiz instructions with the text appended, and the quiz response schema. */
  function QuizPayload(text: string): (p: Payload)
    ensures p.userQuery.Templated? && p.userQuery.template == QuizSchema && p.userQuery.input == text
    ensures p.generationConfig == Some(p.userQuery.template)
  {
    Payload(Templated(QuizSchema, text), Some(QuizSchema))
  }

  /** The content parses and its `quiz` member is truthy. */
  predicate IsQuiz(result: FetchResult, parse: string -> Option<Json>) {
    HasContent(result) && parse(result.body.text.value).Some? &&
    Truthy(Get(parse(result.body.text.value).value, "quiz"))
  }

  /**
   * Everything after the retry loop, with the outer `catch`: an escaped error or an unreadable
   * body is the internal error; no content is its own error; content that does not parse, or
   * parses without a truthy `quiz` (the throw caught by the inner `catch`), is the invalid-structure
   * error; otherwise the parsed object is the answer, unchanged.
   */
  function Respond(result: FetchResult, parse: string -> Option<Json>): (resp: Response)
    ensures resp.status == 200 <==> IsQuiz(result, parse)
    ensures resp.status == 200 ==> resp.body == JsonBody(parse(result.body.text.value).value)
    ensures resp.status != 200 ==> resp.status == 500
    ensures resp == Error(500, InternalError) <==> result.Thrown? || result == Fetched(NotJson)
    ensures resp == Error(500, NoContent) <==> result.Fetched? && result.body.Envelope? && !HasContent(result)
    ensures resp == Error(500, InvalidStructure) <==> HasContent(result) && !IsQuiz(result, parse)
  {
    match result
    case Thrown(_) => Error(500, InternalError)
    case Fetched(NotJson) => Error(500, InternalError)
    case Fetched(Envelope(text)) =>
      if Provided(text) then
        match parse(text.value)
        case Some(quizData) =>
          if Truthy(Get(quizData, "quiz")) then Response(200, JsonBody(quizData)) else Error(500, InvalidStructure)
        case None => Error(500, InvalidStructure)
      else
        Error(500, NoContent)
  }

  /**
   * The handler. `upstream` gives the outcome of each call, `parse` stands for `JSON.parse`
   * (None: it throws). Returns the payload sent (None when nothing is sent), the number of
   * upstream calls, the back-off delays waited and the response.
   */
  method Post(req: Request, upstream: nat -> Attempt, parse: string -> Option<Json>)
    returns (sent: Option<Payload>, calls: nat, delays: seq<nat>, resp: Response)
    ensures req.Unreadable? ==> sent.None? && calls == 0 && delays == [] && resp == Error(500, InternalError)
    ensures req.Fields? && !Provided(req.field) ==>
      sent.None? && calls == 0 && delays == [] && resp == Error(400, TextRequired)
    ensures req.Fields? && Provided(req.field) ==>
      && sent == Some(QuizPayload(req.field.value))
      && calls == Retry(upstream).calls && delays == Retry(upstream).delays
      && resp == Respond(Retry(upstream).result, parse)
  {
    sent, calls, delays := None, 0, [];
    if req.Unreadable? {
      resp := Error(500, InternalError);
      return;
    }
    if !Provided(req.field) {
      resp := Error(400, TextRequired);
      return;
    }
    sent := Some(QuizPayload(req.field.value));
    var result;
    calls, delays, result := CallWithRetry(upstream);
    resp := Respond(result, parse);
  }

  /** A quiz is answered only when some upstream call succeeded. */
  lemma QuizAnswerNeedsSuccess(upstream: nat -> Attempt, parse: string -> Option<Json>)
    requires Respond(Retry(upstream).result, parse).status == 200
    ensures exists k :: 0 <= k < MaxRetries && Succeeds(upstream(k))
  {
    RetryFetchedIffSomeAttemptSucceeds(upstream);
  }

  /** Text that does not parse, such as `{not valid json`, is the invalid-structure error. */
  lemma UnparsableContent(t: string, parse: string -> Option<Json>)
    requires t != "" && parse(t).None?
    ensures Respond(Fetched(Envelope(Some(t))), parse) == Error(500, InvalidStructure)
  {
  }
}
