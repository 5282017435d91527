/** `ChatbotQA.ask_question`: the prompt built from the history and the
    question. The retrieval chain behind it is an opaque function. */
module LlmIntegration {
  import opened Text

  /** One history entry as the server receives it. */
  datatype Entry = Entry(role: string, content: string)

  /** What the chain gives back: the `result` field of its answer, or the
      message of the exception it raised. */
  datatype ChainResult = Answer(text: string) | Raised(error: string)

  /** `{Role}: {content}` for one entry. */
  function EntryLine(e: Entry): string {
    Capitalize(e.role) + ": " + e.content
  }

  function Lines(history: seq<Entry>): (r: seq<string>)
    ensures |r| == |history|
    ensures forall i :: 0 <= i < |history| ==> r[i] == EntryLine(history[i])
  {
    if |history| == 0 then [] else [EntryLine(history[0])] + Lines(history[1..])
  }

  /** The query handed to the chain. Without history it is the question
      alone. With history, each entry contributes one line ending in a
      newline, in order, and the query closes with the question as a user
      turn and an open assistant turn. */
  function Prompt(question: string, history: seq<Entry>): (r: string)
    ensures |history| == 0 ==> r == question
    ensures |history| > 0 ==>
      r == Concat(Terminated("\n", Lines(history))) + "User: " + question + "\nAssistant:"
  {
    if |history| == 0 then question
    else
      JoinThenSep("\n", Lines(history));
      SplitNewline(Join("\n", Lines(history)), question);
      Join("\n", Lines(history)) + "\nUser: " + question + "\nAssistant:"
  }

  /** `ask_question`: the chain is asked the query laid out as above, and
      what it gives back, an answer or the exception it raised, is what the
      caller gets. */
  function AskQuestion(chain: string -> ChainResult, question: string, history: seq<Entry>): (r: ChainResult)
    ensures |history| == 0 ==> r == chain(question)
    ensures |history| > 0 ==>
      r == chain(Concat(Terminated("\n", Lines(history))) + "User: " + question + "\nAssistant:")
  {
    chain(Prompt(question, history))
  }

  /** Helper of `Prompt`, kept apart so that the regrouping is proved
      over plain strings rather than the unfolded join. */
  lemma SplitNewline(j: string, question: string)
    ensures j + "\nUser: " + question + "\nAssistant:" == (j + "\n") + "User: " + question + "\nAssistant:"
  {
    assert "\nUser: " == "\n" + "User: ";
  }

  /** The role labels of the client's two roles. */
  lemma RoleLabels()
    ensures Capitalize("user") == "User"
    ensures Capitalize("assistant") == "Assistant"
  {
    UserLabel();
    AssistantLabel();
  }

  lemma UserLabel()
    ensures Capitalize("user") == "User"
  {
    var u := Capitalize("user");
    assert u[0] == Upper('u') == 'U';
    assert u[1] == Lower('s') && u[2] == Lower('e') && u[3] == Lower('r');
  }

  lemma AssistantLabel()
    ensures Capitalize("assistant") == "Assistant"
  {
    var a := Capitalize("assistant");
    assert a[0] == Upper('a') == 'A';
    assert a[1] == Lower('s') && a[2] == Lower('s') && a[3] == Lower('i') && a[4] == Lower('s');
    assert a[5] == Lower('t') && a[6] == Lower('a') && a[7] == Lower('n') && a[8] == Lower('t');
  }
}
