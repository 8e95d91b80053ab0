/** The study-buddy route: POST `{ question }`, answered with `{ answer }` holding the model's text. */
module StudyBuddyRoute {
  import opened Wrappers
  import opened Http
  import opened Upstream

  const QuestionRequired: string := "Question is required"
  const NoAnswerContent: string := "No content returned from Study Buddy"
  const InternalError: string := "Failed to get study buddy response due to internal server error."

  /** The payload: the query `Question: <question>` and no `generationConfig`. */
  function StudyBuddyPayload(question: string): (p: Payload)
    ensures p.generationConfig.None?
    ensures p.userQuery.Literal? && |p.userQuery.text| == 10 + |question|
    ensures p.userQuery.text[..10] == "Question: " && p.userQuery.text[10..] == question
  {
    Payload(Literal("Question: " + question), None)
  }

  /** Everything after the retry loop, with the outer `catch`: the text is passed on verbatim. */
  function Respond(result: FetchResult): (resp: Response)
    ensures resp.status == 200 <==> HasContent(result)
    ensures resp.status == 200 ==> resp.body == AnswerBody(result.body.text.value)
    ensures resp.status != 200 ==> resp.status == 500
    ensures resp == Error(500, InternalError) <==> result.Thrown? || result == Fetched(NotJson)
    ensures resp == Error(500, NoAnswerContent) <==> result.Fetched? && result.body.Envelope? && !HasContent(result)
  {
    match result
    case Thrown(_) => Error(500, InternalError)
    case Fetched(NotJson) => Error(500, InternalError)
    case Fetched(Envelope(answerText)) =>
      if Provided(answerText) then Response(200, AnswerBody(answerText.value)) else Error(500, NoAnswerContent)
  }

  /** The handler. */
  method Post(req: Request, upstream: nat -> Attempt)
    returns (sent: Option<Payload>, calls: nat, delays: seq<nat>, resp: Response)
    ensures req.Unreadable? ==> sent.None? && calls == 0 && delays == [] && resp == Error(500, InternalError)
    ensures req.Fields? && !Provided(req.field) ==>
      sent.None? && calls == 0 && delays == [] && resp == Error(400, QuestionRequired)
    ensures req.Fields? && Provided(req.field) ==>
      && sent == Some(StudyBuddyPayload(req.field.value))
      && calls == Retry(upstream).calls && delays == Retry(upstream).delays
      && resp == Respond(Retry(upstream).result)
  {
    sent, calls, delays := None, 0, [];
    if req.Unreadable? {
      resp := Error(500, InternalError);
      return;
    }
    if !Provided(req.field) {
      resp := Error(400, QuestionRequired);
      return;
    }
    sent := Some(StudyBuddyPayload(req.field.value));
    var result;
    calls, delays, result := CallWithRetry(upstream);
    resp := Respond(result);
  }
}
