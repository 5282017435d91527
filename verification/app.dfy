/** The `/api/ask` route: defaults and validation of the JSON body, the
    module-to-document dispatch, and the answer or error response. */
module AskRoute {
  import opened Optional
  import opened Text
  import opened LlmIntegration
  import Catalog

  const CtsePdfPath: string := "data/CTSE_LEC_2_PART_1.pdf"
  const IupPdfPath: string := "data/IUP_LEC_5.pdf"
  const DefaultModule: string := "CTSE"
  const EmptyQuestion: string := "Question cannot be empty"
  const InvalidModule: string := "Invalid module selected"

  /** The request body; a field left out of the JSON is `None`. */
  datatype AskBody = AskBody(question: Option<string>, moduleName: Option<string>, history: Option<seq<Entry>>)

  /** The route's decision before any answer is sought. */
  datatype Route =
    | Rejected(status: int, error: string)
    | Dispatched(pdfPath: string, query: string, history: seq<Entry>)

  datatype Body = AnswerBody(answer: string) | ErrorBody(error: string)

  datatype Response = Response(status: int, body: Body)

  /** The document a module's questions are answered from. */
  function PdfFor(m: string): (r: Option<string>)
    ensures r.Some? <==> m == "CTSE" || m == "IUP"
    ensures m == "CTSE" ==> r == Some(CtsePdfPath)
    ensures m == "IUP" ==> r == Some(IupPdfPath)
  {
    if m == "CTSE" then Some(CtsePdfPath)
    else if m == "IUP" then Some(IupPdfPath)
    else None
  }

  /** Defaults, then the question check, then the module check. */
  function Validate(b: AskBody): (r: Route)
    ensures r == Rejected(400, EmptyQuestion) <==> Trim(b.question.GetOr("")) == ""
    ensures r.Dispatched? <==> Trim(b.question.GetOr("")) != "" && PdfFor(b.moduleName.GetOr(DefaultModule)).Some?
    ensures r.Rejected? && Trim(b.question.GetOr("")) != "" ==> r == Rejected(400, InvalidModule)
    ensures r.Dispatched? ==>
      && r.pdfPath == PdfFor(b.moduleName.GetOr(DefaultModule)).value
      && r.query == Trim(b.question.GetOr(""))
      && r.history == b.history.GetOr([])
  {
    var query := Trim(b.question.GetOr(""));
    var m := b.moduleName.GetOr(DefaultModule);
    var history := b.history.GetOr([]);
    if query == "" then Rejected(400, EmptyQuestion)
    else match PdfFor(m)
      case None => Rejected(400, InvalidModule)
      case Some(pdf) => Dispatched(pdf, query, history)
  }

  /** The route. `qa(pdf, prompt)` stands for building the QA chain over the
      document and invoking it, either of which may raise. */
  function Ask(b: AskBody, qa: (string, string) -> ChainResult): (r: Response)
    ensures r.status == 200 || r.status == 400 || r.status == 500
    ensures r.status == 200 <==> r.body.AnswerBody?
    ensures r.status == 400 <==> Validate(b).Rejected?
    ensures r.status == 400 ==> r.body == ErrorBody(Validate(b).error)
    ensures Validate(b).Dispatched? ==>
      var d := Validate(b);
      match qa(d.pdfPath, Prompt(d.query, d.history))
      case Answer(a) => r == Response(200, AnswerBody(a))
      case Raised(e) => r == Response(500, ErrorBody(e))
  {
    match Validate(b)
    case Rejected(status, error) => Response(status, ErrorBody(error))
    case Dispatched(pdf, query, history) =>
      match AskQuestion(p => qa(pdf, p), query, history)
      case Answer(a) => Response(200, AnswerBody(a))
      case Raised(e) => Response(500, ErrorBody(e))
  }

  /** The modules the route accepts are exactly the catalog's keys. */
  lemma AcceptedModulesAreCatalog(q: string, m: string, h: Option<seq<Entry>>)
    requires Trim(q) != ""
    ensures Validate(AskBody(Some(q), Some(m), h)).Dispatched? <==> m in Catalog.Modules
  {
    assert Catalog.Modules.Keys == {"CTSE", "IUP"};
    assert m in Catalog.Modules <==> PdfFor(m).Some?;
  }

  /** A body with only a question asks about CTSE with no history. */
  lemma Defaults(q: string)
    requires Trim(q) != ""
    ensures Validate(AskBody(Some(q), None, None)) == Dispatched(CtsePdfPath, Trim(q), [])
  {
  }

  /** A blank question is refused before the module is looked at. */
  lemma QuestionCheckedFirst(q: Option<string>, m: string, h: Option<seq<Entry>>, qa: (string, string) -> ChainResult)
    requires Trim(q.GetOr("")) == ""
    requires m !in Catalog.Modules
    ensures Ask(AskBody(q, Some(m), h), qa) == Response(400, ErrorBody(EmptyQuestion))
  {
  }
}
