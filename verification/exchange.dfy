/** The round trip between the store and the route: the JSON body the
    client posts, how the client reads the response, and what a request the
    component starts comes back as. */
module Exchange {
  import opened Optional
  import opened Text
  import opened ChatTypes
  import opened ChatContext
  import opened LlmIntegration
  import opened AskRoute
  import MessageInput
  import Catalog

  /** The `history` array of the posted body. */
  function WireHistory(h: seq<Turn>): (r: seq<Entry>)
    ensures |r| == |h|
    ensures forall i :: 0 <= i < |h| ==> r[i] == Entry(RoleName(h[i].role), h[i].content)
  {
    if |h| == 0 then [] else [Entry(RoleName(h[0].role), h[0].content)] + WireHistory(h[1..])
  }

  /** The posted body: every field is present, so none of the route's
      defaults applies and it reads back the question, the module and the
      history as the store sent them, one wire entry per turn. */
  function ToBody(req: Request): (r: AskBody)
    ensures r.question.Some? && r.moduleName.Some? && r.history.Some?
    ensures r.question.GetOr("") == req.question
    ensures r.moduleName.GetOr(DefaultModule) == req.moduleName
    ensures |r.history.GetOr([])| == |req.history|
    ensures forall i :: 0 <= i < |req.history| ==>
      r.history.GetOr([])[i] == Entry(RoleName(req.history[i].role), req.history[i].content)
  {
    AskBody(Some(req.question), Some(req.moduleName), Some(WireHistory(req.history)))
  }

  /** How `getAIResponse` reads a response: an ok status (2xx) with an
      answer field is an answer, anything else is a failure. */
  function ClientOutcome(resp: Response): (r: Outcome)
    ensures r.Answered? <==> 200 <= resp.status <= 299 && resp.body.AnswerBody?
    ensures r.Answered? ==> r.answer == resp.body.answer
  {
    if 200 <= resp.status <= 299 then
      match resp.body
      case AnswerBody(a) => Answered(a)
      case ErrorBody(_) => Failed
    else Failed
  }

  /** Every ok response of the route carries an answer, so the client never
      reads an ok body without one. */
  lemma OkResponsesCarryAnswers(b: AskBody, qa: (string, string) -> ChainResult)
    ensures 200 <= Ask(b, qa).status <= 299 ==> Ask(b, qa).body.AnswerBody?
    ensures ClientOutcome(Ask(b, qa)).Answered? <==> Ask(b, qa).body.AnswerBody?
  {
  }

  /** Each line the server builds from a client history reads `User: ...`
      or `Assistant: ...` with the message text verbatim. */
  lemma ClientHistoryLines(h: seq<Turn>)
    ensures forall i :: 0 <= i < |h| ==>
      Lines(WireHistory(h))[i] == (if h[i].role == User then "User" else "Assistant") + ": " + h[i].content
  {
    RoleLabels();
  }

  /** A trimmed, non-blank question about a catalog module is dispatched as
      it was sent: the server's second strip changes nothing, the module
      picks its document, and the history arrives in order. */
  lemma DispatchedAsSent(req: Request)
    requires req.moduleName in Catalog.Modules
    requires req.question != "" && Trim(req.question) == req.question
    ensures Validate(ToBody(req)) == Dispatched(PdfFor(req.moduleName).value, req.question, WireHistory(req.history))
  {
    assert ToBody(req) == AskBody(Some(req.question), Some(req.moduleName), Some(WireHistory(req.history)));
    AcceptedModulesAreCatalog(req.question, req.moduleName, Some(WireHistory(req.history)));
  }

  /** For a dispatched request, the reply the store appends is the chain's
      answer, or the apology when building or invoking the chain raised. */
  lemma ReplyOfDispatched(s: Session, req: Request, qa: (string, string) -> ChainResult, now: nat)
    requires Validate(ToBody(req)).Dispatched?
    ensures var d := Validate(ToBody(req));
            var after := Complete(s, req, ClientOutcome(Ask(ToBody(req), qa)), now);
            after.messages[|s.messages|].content
              == match qa(d.pdfPath, Prompt(d.query, d.history))
                 case Answer(a) => a
                 case Raised(_) => Apology
  {
  }

  /** The request the component has in flight is dispatched as sent, and
      the outcome the client reads is the chain's answer to it, or a failure
      when the chain raised. */
  lemma InFlightRoundTrip(w: MessageInput.Widget, qa: (string, string) -> ChainResult)
    requires MessageInput.Coherent(w) && w.pending.Some?
    ensures var req := w.pending.value;
            var d := Validate(ToBody(req));
            && d.Dispatched?
            && d.query == req.question
            && d.history == WireHistory(req.history)
            && ClientOutcome(Ask(ToBody(req), qa))
               == match qa(d.pdfPath, Prompt(req.question, WireHistory(req.history)))
                  case Answer(a) => Answered(a)
                  case Raised(_) => Failed
  {
    DispatchedAsSent(w.pending.value);
  }
}
