/** What the orchestrator makes of a collector's HTTP reply. */
module Dispatch {
  import opened Schemas
  import opened Text

  /** The JSON body a collector sends; a `null` list is `None`. */
  datatype WireFinding = WireFinding(
    id: string, collector: string, question: string, summary: string, evidenceId: string,
    confidence: real, followups: Option<seq<string>>)

  datatype WireOutput = WireOutput(finding: WireFinding, sizeBytes: int, toolCallsUsed: int, tokensUsed: int)

  datatype Reply =
    | Timeout
    | TransportError
    | Http(status: int, body: Option<WireOutput>)   // None: a body that is no such JSON

  datatype Answer = Answered(finding: Finding) | Unanswered(finding: Finding)

  /** The response model: a missing list, a negative count or a confidence outside [0, 1] is refused. */
  predicate Acceptable(w: WireOutput) {
    && w.finding.followups.Some?
    && 0.0 <= w.finding.confidence <= 1.0
    && w.sizeBytes >= 0 && w.toolCallsUsed >= 0 && w.tokensUsed >= 0
  }

  function Received(w: WireFinding): Finding {
    Finding(w.id, w.collector, w.question, w.summary, w.evidenceId, w.confidence)
  }

  function FailureFinding(hypothesisId: string, collector: string, question: string): Finding {
    Finding("fail_" + hypothesisId + "_" + collector, collector, question, "Collector failed", "", 0.0)
  }

  function DispatchReply(hypothesisId: string, collector: string, question: string, reply: Reply): Answer {
    if reply.Http? && 200 <= reply.status < 300 && reply.body.Some? && Acceptable(reply.body.value)
    then Answered(Received(reply.body.value.finding))
    else Unanswered(FailureFinding(hypothesisId, collector, question))
  }

  /** A reply that answers: a 2xx status with a body whose list is there and whose numbers are in range. */
  ghost predicate Answers(reply: Reply, w: WireOutput) {
    && reply.Http? && 200 <= reply.status <= 299 && reply.body == Some(w)
    && w.finding.followups != None && w.finding.confidence >= 0.0 && w.finding.confidence <= 1.0
    && w.sizeBytes >= 0 && w.toolCallsUsed >= 0 && w.tokensUsed >= 0
  }

  /**
   A reply that answers is taken as it was sent; every other reply, and none in time, becomes a
   failure under an id of its own, at confidence zero and without evidence.
   */
  lemma AnswersAreInRange(hypothesisId: string, collector: string, question: string, reply: Reply)
    ensures var a := DispatchReply(hypothesisId, collector, question, reply);
      && (a.Answered? <==> exists w :: Answers(reply, w))
      && (forall w :: Answers(reply, w) ==>
            && (a.finding.id, a.finding.collector, a.finding.question)
                 == (w.finding.id, w.finding.collector, w.finding.question)
            && (a.finding.summary, a.finding.evidenceId, a.finding.confidence)
                 == (w.finding.summary, w.finding.evidenceId, w.finding.confidence))
      && (a.Unanswered? ==>
            && a.finding.id == "fail_" + hypothesisId + "_" + collector
            && a.finding.collector == collector && a.finding.question == question
            && a.finding.evidenceId == "" && a.finding.confidence == 0.0)
      && 0.0 <= a.finding.confidence <= 1.0
  {
    var a := DispatchReply(hypothesisId, collector, question, reply);
    if a.Answered? { assert Answers(reply, reply.body.value); }
  }
}
