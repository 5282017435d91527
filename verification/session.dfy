/** The conversation store (`ChatProvider`): the message log, the selected
    module and the loading flag, with each of its operations as a pure
    transition. The answer request is split in two: `HandleNewUserMessage`
    appends the user's message and starts the request, `Complete` lands the
    outcome of the network round trip, which is an input of the model. */
module ChatContext {
  import opened Optional
  import opened ChatTypes
  import Catalog

  const SeedText: string := "Hello! Please select a module and ask your question."
  const GenericDescription: string := "Hello! Please ask your question about the selected module."
  const DescriptionPrefix: string := "Hello! This LumoAI is related to "
  const DescriptionSuffix: string := ". You can ask anything about this module."
  const Apology: string := "Sorry, I couldn't process your request. Please try again."

  /** The provider's state. `initialLoad` is true only until the module
      effect has run once after the first render. */
  datatype Session = Session(
    messages: seq<Message>,
    selectedModule: string,
    isLoading: bool,
    initialLoad: bool)

  /** The body of the POST to the answer endpoint. */
  datatype Request = Request(question: string, moduleName: string, history: seq<Turn>)

  /** How the round trip ended: an ok response carrying an answer, or a
      non-ok status, a transport error or an unreadable body. */
  datatype Outcome = Answered(answer: string) | Failed

  /** The store after a user message, and the request it started, if any. */
  datatype Submission = Submission(session: Session, request: Option<Request>)

  /** The greeting every session starts with and every reset restores. */
  function SeedGreeting(): Message {
    Message(Seed, SeedText, Assistant, None)
  }

  /** The state of the first render, before any effect has run. */
  function Initial(): Session {
    Session([SeedGreeting()], "", false, true)
  }

  /** `getModuleDescription`: the greeting text for a module. */
  function ModuleDescription(m: string): (r: string)
    ensures m in Catalog.Modules ==>
      r == DescriptionPrefix + Catalog.Modules[m].longName + " - " + Catalog.Modules[m].moduleCode + DescriptionSuffix
    ensures m !in Catalog.Modules ==> r == GenericDescription
  {
    match Catalog.Lookup(m)
    case None => GenericDescription
    case Some(info) => DescriptionPrefix + info.longName + " - " + info.moduleCode + DescriptionSuffix
  }

  /** The greeting that replaces the log when module `m` is chosen. */
  function Greeting(m: string, now: nat): Message {
    Message(Clock(now), ModuleDescription(m), Assistant, Some(m))
  }

  /** One run of the module effect: the first run only clears
      `initialLoad`; later runs replace the log by the greeting of the
      selected module when one is selected. */
  function ModuleEffect(s: Session, now: nat): (r: Session)
    ensures r.selectedModule == s.selectedModule && r.isLoading == s.isLoading && !r.initialLoad
    ensures s.initialLoad || s.selectedModule == "" ==> r.messages == s.messages
    ensures !s.initialLoad && s.selectedModule != "" ==> r.messages == [Greeting(s.selectedModule, now)]
  {
    if s.initialLoad then s.(initialLoad := false)
    else if s.selectedModule != "" then s.(messages := [Greeting(s.selectedModule, now)])
    else s
  }

  /** The state once mounted: the effect runs after the first render, and
      once more because its run changed `initialLoad`. */
  function Mount(now: nat): Session {
    ModuleEffect(ModuleEffect(Initial(), now), now)
  }

  /** `setSelectedModule(m)`: React skips the effect when the value does not
      change. */
  function ChangeModule(s: Session, m: string, now: nat): (r: Session)
    ensures r.selectedModule == m && r.isLoading == s.isLoading
    ensures !s.initialLoad ==> !r.initialLoad
    ensures !s.initialLoad && m != "" && m != s.selectedModule ==> r.messages == [Greeting(m, now)]
    ensures m == "" || m == s.selectedModule ==> r.messages == s.messages
  {
    if m == s.selectedModule then s else ModuleEffect(s.(selectedModule := m), now)
  }

  /** `addMessage`: appends onto `prev`, the log current when the update is
      applied; `closureModule` is the selected module of the render that
      created the callback, used when no override module is given. */
  function AddMessage(prev: seq<Message>, closureModule: string, content: string, role: Role, override: string, now: nat): (r: seq<Message>)
    ensures |r| == |prev| + 1 && r[..|prev|] == prev
    ensures r[|prev|].content == content && r[|prev|].role == role && r[|prev|].id == Clock(now)
    ensures override != "" ==> r[|prev|].moduleName == Some(override)
    ensures override == "" ==> r[|prev|].moduleName == Some(closureModule)
  {
    prev + [Message(Clock(now), content, role, Some(if override != "" then override else closureModule))]
  }

  /** The roles the history filter keeps. */
  predicate Conversational(r: Role) {
    r == User || r == Assistant
  }

  /** The history sent with a question: the log filtered to user and
      assistant turns and projected to role and content. */
  function History(msgs: seq<Message>): (h: seq<Turn>)
    ensures |h| == |msgs|
    ensures forall i :: 0 <= i < |msgs| ==> h[i] == Turn(msgs[i].role, msgs[i].content)
  {
    if |msgs| == 0 then []
    else (if Conversational(msgs[0].role) then [Turn(msgs[0].role, msgs[0].content)] else [])
         + History(msgs[1..])
  }

  /** `handleNewUserMessage` with the first half of `getAIResponse`: guard,
      append the user message, raise the loading flag and capture the
      history as the log stood before the append. */
  function HandleNewUserMessage(s: Session, content: string, override: string, now: nat): (r: Submission)
    ensures s.selectedModule == "" && override == "" ==> r == Submission(s, None)
    ensures s.selectedModule != "" || override != "" ==>
      r.session.messages == AddMessage(s.messages, s.selectedModule, content, User, override, now)
    ensures r.request.Some? <==> s.selectedModule != ""
    ensures r.session.isLoading <==> s.isLoading || s.selectedModule != ""
    ensures r.session.selectedModule == s.selectedModule && r.session.initialLoad == s.initialLoad
    ensures r.request.Some? ==>
      r.request.value.question == content && r.request.value.moduleName == s.selectedModule
      && r.request.value.history == History(s.messages)
  {
    if s.selectedModule == "" && override == "" then Submission(s, None)
    else
      var appended := s.(messages := AddMessage(s.messages, s.selectedModule, content, User, override, now));
      if s.selectedModule == "" then Submission(appended, None)
      else Submission(appended.(isLoading := true), Some(Request(content, s.selectedModule, History(s.messages))))
  }

  /** The text `getAIResponse` appends for an outcome. */
  function ReplyText(o: Outcome): string {
    match o
    case Answered(a) => a
    case Failed => Apology
  }

  /** The second half of `getAIResponse`: the answer, or the apology, is
      appended to whatever log is current, tagged with the module of the
      render that started the request, and the loading flag drops. */
  function Complete(s: Session, req: Request, o: Outcome, now: nat): (r: Session)
    ensures |r.messages| == |s.messages| + 1 && r.messages[..|s.messages|] == s.messages
    ensures r.messages[|s.messages|] == Message(Clock(now), ReplyText(o), Assistant, Some(req.moduleName))
    ensures !r.isLoading
    ensures r.selectedModule == s.selectedModule && r.initialLoad == s.initialLoad
  {
    s.(messages := AddMessage(s.messages, req.moduleName, ReplyText(o), Assistant, "", now), isLoading := false)
  }

  /** `resetChat`: clear the module and restore the seeded greeting; the
      module effect then runs if the module changed, and finds it empty. */
  function ResetChat(s: Session, now: nat): (r: Session)
    ensures r.messages == [SeedGreeting()] && r.selectedModule == ""
    ensures r.isLoading == s.isLoading
    ensures !s.initialLoad ==> !r.initialLoad
  {
    var cleared := s.(selectedModule := "", messages := [SeedGreeting()]);
    if s.selectedModule != "" then ModuleEffect(cleared, now) else cleared
  }

  // ---------------------------------------------------------------------
  // Properties of the store

  /** Mounting does not replace the seeded greeting. */
  lemma MountKeepsSeed(now: nat)
    ensures Mount(now).messages == [SeedGreeting()]
    ensures Mount(now).selectedModule == "" && !Mount(now).isLoading && !Mount(now).initialLoad
    ensures SeedGreeting().id == Seed && SeedGreeting().role == Assistant && SeedGreeting().content == SeedText
  {
  }

  /** A known module's greeting names it as `longName - moduleCode`; the
      generic greeting is used for exactly the names outside the catalog,
      and different catalog modules get different greetings. */
  lemma DescriptionIdentifiesModule(m: string, m': string)
    ensures ModuleDescription(m) == GenericDescription <==> m !in Catalog.Modules
    ensures m in Catalog.Modules && m' in Catalog.Modules && m != m' ==> ModuleDescription(m) != ModuleDescription(m')
  {
    if m in Catalog.Modules {
      assert |ModuleDescription(m)| > |DescriptionPrefix + DescriptionSuffix| > |GenericDescription|;
    }
    if m in Catalog.Modules && m' in Catalog.Modules && m != m' {
      assert Catalog.Modules.Keys == {"CTSE", "IUP"};
      assert |ModuleDescription("CTSE")| != |ModuleDescription("IUP")|;
    }
  }

  /** With an override module but no selected module, the user message is
      appended but no request starts and the loading flag is untouched. */
  lemma OverrideWithoutSelection(s: Session, content: string, override: string, now: nat)
    requires s.selectedModule == "" && override != ""
    ensures HandleNewUserMessage(s, content, override, now).request == None
    ensures HandleNewUserMessage(s, content, override, now).session
         == s.(messages := s.messages + [Message(Clock(now), content, User, Some(override))])
  {
  }

  /** A reply still lands after a reset: it is appended after the seeded
      greeting and carries the module of the conversation it answered. */
  lemma StaleReplyAfterReset(s: Session, question: string, answer: string, t0: nat, t1: nat, t2: nat)
    requires s.selectedModule != ""
    ensures var sub := HandleNewUserMessage(s, question, s.selectedModule, t0);
            sub.request.Some? &&
            Complete(ResetChat(sub.session, t1), sub.request.value, Answered(answer), t2).messages
              == [SeedGreeting(), Message(Clock(t2), answer, Assistant, Some(s.selectedModule))]
  {
  }

  /** Likewise after a switch to another module: the reply follows the new
      module's greeting but is tagged with the module it was asked about. */
  lemma StaleReplyAfterSwitch(s: Session, question: string, m: string, o: Outcome, t0: nat, t1: nat, t2: nat)
    requires !s.initialLoad && s.selectedModule != "" && m != "" && m != s.selectedModule
    ensures var sub := HandleNewUserMessage(s, question, s.selectedModule, t0);
            sub.request.Some? &&
            Complete(ChangeModule(sub.session, m, t1), sub.request.value, o, t2).messages
              == [Greeting(m, t1), Message(Clock(t2), ReplyText(o), Assistant, Some(s.selectedModule))]
  {
  }

  // ---------------------------------------------------------------------
  // The store as a state machine

  datatype Event =
    | Mounted
    | Select(m: string)
    | NewUserMessage(content: string, override: string)
    | Completed(req: Request, outcome: Outcome)
    | Reset

  function Step(s: Session, e: Event, now: nat): Session {
    match e
    case Mounted => ModuleEffect(s, now)
    case Select(m) => ChangeModule(s, m, now)
    case NewUserMessage(c, o) => HandleNewUserMessage(s, c, o, now).session
    case Completed(req, o) => Complete(s, req, o, now)
    case Reset => ResetChat(s, now)
  }

  /** The first message of the log is a greeting: the seeded one, or the
      description of the module it is tagged with. */
  predicate Valid(s: Session) {
    && |s.messages| > 0
    && s.messages[0].role == Assistant
    && match s.messages[0].moduleName
       case None => s.messages[0].content == SeedText
       case Some(m) => s.messages[0].content == ModuleDescription(m)
  }

  lemma InitialIsValid()
    ensures Valid(Initial())
  {
  }

  /** Every transition keeps a greeting at the head of the log. */
  lemma StepPreservesValid(s: Session, e: Event, now: nat)
    requires Valid(s)
    ensures Valid(Step(s, e, now))
  {
    match e
    case NewUserMessage(c, o) =>
      var r := HandleNewUserMessage(s, c, o, now).session;
      assert r.messages[0] == s.messages[0] by {
        assert r.messages == s.messages || r.messages[..|s.messages|] == s.messages;
      }
    case Completed(req, o) =>
      assert Complete(s, req, o, now).messages[..|s.messages|] == s.messages;
    case _ =>
  }

  /** The log only grows by appending, except when it is replaced as a whole
      by a single greeting. */
  lemma StepAppendsOrRestarts(s: Session, e: Event, now: nat)
    ensures var r := Step(s, e, now).messages;
            (|s.messages| <= |r| && r[..|s.messages|] == s.messages) || |r| == 1
  {
    match e
    case NewUserMessage(c, o) =>
      if s.selectedModule == "" && o == "" {
        assert s.messages[..|s.messages|] == s.messages;
      }
    case Mounted =>
      assert s.messages[..|s.messages|] == s.messages;
    case Select(m) =>
      assert s.messages[..|s.messages|] == s.messages;
    case _ =>
  }
}
