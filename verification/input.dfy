/** The message input component: the draft text, the send guard, the
    keyboard shortcut, module choice and the new-chat action, over the store
    of `ChatContext`. */
module MessageInput {
  import opened Optional
  import opened Text
  import opened ChatTypes
  import opened ChatContext
  import Catalog

  /** The store as the component sees it, with the draft in the textarea. */
  datatype View = View(session: Session, input: string)

  /** The view after a send attempt, and the request it started, if any. */
  datatype Sent = Sent(view: View, request: Option<Request>)

  /** The guard of `handleSendMessage`. */
  predicate CanSend(input: string, isLoading: bool, selectedModule: string) {
    Trim(input) != "" && !isLoading && selectedModule != ""
  }

  /** `disabled` of the send button. */
  predicate SendDisabled(input: string, isLoading: bool, selectedModule: string) {
    Trim(input) == "" || isLoading || selectedModule == ""
  }

  /** `disabled` of the textarea and of the new-chat button. */
  predicate Locked(isLoading: bool, selectedModule: string) {
    selectedModule == "" || isLoading
  }

  /** The send path of `handleSendMessage`, with the third argument the
      component passes to the context's `addMessage`: when the guard holds,
      the trimmed draft goes to `handleNewUserMessage` with `override` in its
      module slot, and the draft is cleared; otherwise nothing changes. */
  function SendWith(v: View, override: string, now: nat): (r: Sent)
    ensures r.request.Some? <==> CanSend(v.input, v.session.isLoading, v.session.selectedModule)
    ensures !CanSend(v.input, v.session.isLoading, v.session.selectedModule) ==> r == Sent(v, None)
    ensures CanSend(v.input, v.session.isLoading, v.session.selectedModule) ==>
      && r.view.input == ""
      && r.view.session.selectedModule == v.session.selectedModule
      && r.view.session.initialLoad == v.session.initialLoad
      && r.view.session.messages
         == v.session.messages
            + [Message(Clock(now), Trim(v.input), User, Some(if override != "" then override else v.session.selectedModule))]
      && r.view.session.isLoading
      && r.request == Some(Request(Trim(v.input), v.session.selectedModule, History(v.session.messages)))
  {
    var s := v.session;
    if CanSend(v.input, s.isLoading, s.selectedModule) then
      var sub := HandleNewUserMessage(s, Trim(v.input), override, now);
      Sent(View(sub.session, ""), sub.request)
    else
      Sent(v, None)
  }

  /** `handleSendMessage` as the code is wired: the context exposes
      `handleNewUserMessage(content, module?)` under the name `addMessage`,
      so the call `addMessage(trimmedInput, 'user', selectedModule)` puts
      the role name `'user'` in the module slot and drops the selected
      module. The user's message is tagged with the module name "user". */
  function HandleSendMessageAsWritten(v: View, now: nat): (r: Sent)
    ensures r.request.Some? <==> CanSend(v.input, v.session.isLoading, v.session.selectedModule)
    ensures !CanSend(v.input, v.session.isLoading, v.session.selectedModule) ==> r == Sent(v, None)
    ensures CanSend(v.input, v.session.isLoading, v.session.selectedModule) ==>
      && r.view.input == ""
      && r.view.session.selectedModule == v.session.selectedModule
      && r.view.session.initialLoad == v.session.initialLoad
      && r.view.session.messages
         == v.session.messages + [Message(Clock(now), Trim(v.input), User, Some("user"))]
      && r.view.session.isLoading
      && r.request == Some(Request(Trim(v.input), v.session.selectedModule, History(v.session.messages)))
  {
    SendWith(v, RoleName(User), now)
  }

  /** `handleSendMessage` as its typed interface intends
      (`addMessage(content, role, module?)`): the trimmed draft is stored as
      a user message tagged with the selected module, the request starts,
      the draft is cleared and the selected module is kept. The rest of the
      model uses this definition. */
  function HandleSendMessage(v: View, now: nat): (r: Sent)
    ensures r.request.Some? <==> CanSend(v.input, v.session.isLoading, v.session.selectedModule)
    ensures !CanSend(v.input, v.session.isLoading, v.session.selectedModule) ==> r == Sent(v, None)
    ensures CanSend(v.input, v.session.isLoading, v.session.selectedModule) ==>
      && r.view.input == ""
      && r.view.session.selectedModule == v.session.selectedModule
      && r.view.session.initialLoad == v.session.initialLoad
      && r.view.session.messages
         == v.session.messages + [Message(Clock(now), Trim(v.input), User, Some(v.session.selectedModule))]
      && r.view.session.isLoading
      && r.request == Some(Request(Trim(v.input), v.session.selectedModule, History(v.session.messages)))
  {
    SendWith(v, v.session.selectedModule, now)
  }

  /** The two differ only in the tag of the user's message: a refused send
      is the same no-op in both, and an accepted one starts the same
      request, leaves the same draft, flags and module, and stores the same
      log up to the tag of its last message. */
  lemma AsWrittenDiffersOnlyInTag(v: View, now: nat)
    ensures !CanSend(v.input, v.session.isLoading, v.session.selectedModule) ==>
      HandleSendMessageAsWritten(v, now) == HandleSendMessage(v, now)
    ensures var a := HandleSendMessageAsWritten(v, now);
            var b := HandleSendMessage(v, now);
            && a.request == b.request
            && a.view.input == b.view.input
            && a.view.session.(messages := []) == b.view.session.(messages := [])
    ensures CanSend(v.input, v.session.isLoading, v.session.selectedModule) ==>
      var a := HandleSendMessageAsWritten(v, now).view.session.messages;
      var b := HandleSendMessage(v, now).view.session.messages;
      && |b| > 0
      && a == b[..|b| - 1] + [b[|b| - 1].(moduleName := Some("user"))]
  {
  }

  /** A concrete send: "hi" with CTSE selected. As wired, the stored message
      is tagged "user", not "CTSE"; the intended definition tags it "CTSE". */
  lemma SendTagCounterexample()
    ensures var v := View(Session([SeedGreeting()], "CTSE", false, false), "hi");
            var asWritten := HandleSendMessageAsWritten(v, 0).view.session.messages;
            var intended := HandleSendMessage(v, 0).view.session.messages;
            && |asWritten| == 2 && asWritten[1].moduleName == Some("user")
            && |intended| == 2 && intended[1].moduleName == Some("CTSE")
  {
    HiIsSendable(View(Session([SeedGreeting()], "CTSE", false, false), "hi"));
  }

  lemma HiIsSendable(v: View)
    requires v == View(Session([SeedGreeting()], "CTSE", false, false), "hi")
    ensures CanSend(v.input, v.session.isLoading, v.session.selectedModule)
  {
    TrimUnique([], "hi", []);
    assert [] + "hi" + [] == "hi";
  }

  /** `handleKeyDown`: Enter without Shift takes the send path, but only
      when a module is selected. */
  function HandleKeyDown(v: View, key: string, shift: bool, now: nat): (r: Sent)
    ensures r.request.Some? <==> key == "Enter" && !shift && CanSend(v.input, v.session.isLoading, v.session.selectedModule)
    ensures key != "Enter" || shift || v.session.selectedModule == "" ==> r == Sent(v, None)
    ensures key == "Enter" && !shift && v.session.selectedModule != "" ==> r == HandleSendMessage(v, now)
  {
    if key == "Enter" && !shift && v.session.selectedModule != "" then HandleSendMessage(v, now)
    else Sent(v, None)
  }

  /** `selectModule`: the chosen module becomes the selected one, the store's
      module effect greets it when it is a different non-empty module, and
      the draft is kept. */
  function SelectModule(v: View, m: string, now: nat): (r: View)
    ensures r.session.selectedModule == m && r.input == v.input
    ensures r.session.isLoading == v.session.isLoading
    ensures !v.session.initialLoad ==>
      && !r.session.initialLoad
      && r.session.messages
         == (if m != "" && m != v.session.selectedModule then [Greeting(m, now)] else v.session.messages)
  {
    View(ChangeModule(v.session, m, now), v.input)
  }

  /** The new-chat button: reset the store and clear the draft. */
  function NewChat(v: View, now: nat): (r: View)
    ensures r.input == "" && r.session.selectedModule == ""
    ensures r.session.messages == [SeedGreeting()]
    ensures r.session.isLoading == v.session.isLoading
  {
    View(ResetChat(v.session, now), "")
  }

  /** `getModuleFullName`: `longName - moduleCode` of a catalog entry, and
      the name itself for anything else. */
  function ModuleFullName(m: string): (r: string)
    ensures m !in Catalog.Modules ==> r == m
    ensures m in Catalog.Modules ==> r == Catalog.Modules[m].longName + " - " + Catalog.Modules[m].moduleCode
  {
    match Catalog.Lookup(m)
    case None => m
    case Some(info) => info.longName + " - " + info.moduleCode
  }

  // ---------------------------------------------------------------------
  // Properties of the component

  /** The send button is disabled exactly when a click would be ignored. */
  lemma SendButtonMatchesGuard(v: View, now: nat)
    ensures SendDisabled(v.input, v.session.isLoading, v.session.selectedModule)
        <==> HandleSendMessage(v, now).request.None?
    ensures SendDisabled(v.input, v.session.isLoading, v.session.selectedModule)
        ==> HandleSendMessage(v, now) == Sent(v, None)
  {
  }

  /** What reaches the store is already trimmed and never blank: trimming
      it again changes nothing. */
  lemma SentTextIsTrimmed(v: View, now: nat)
    requires HandleSendMessage(v, now).request.Some?
    ensures var q := HandleSendMessage(v, now).request.value.question;
            q != "" && Trim(q) == q && !IsSpace(q[0]) && !IsSpace(q[|q| - 1])
  {
    TrimIdempotent(v.input);
  }

  /** A module's greeting embeds the same full name the module picker
      shows. */
  lemma GreetingShowsFullName(m: string)
    requires m in Catalog.Modules
    ensures ModuleDescription(m) == DescriptionPrefix + ModuleFullName(m) + DescriptionSuffix
  {
    var info := Catalog.Modules[m];
    Regroup(DescriptionPrefix, info.longName, info.moduleCode, DescriptionSuffix);
  }

  /** Helper of `GreetingShowsFullName`, kept apart so that the regrouping
      is proved over plain strings rather than the catalog's literals. */
  lemma Regroup(prefix: string, longName: string, code: string, suffix: string)
    ensures prefix + longName + " - " + code + suffix == prefix + (longName + " - " + code) + suffix
  {
  }

  // ---------------------------------------------------------------------
  // The component and the store together, driven by user events

  /** The view and the request in flight, if any. */
  datatype Widget = Widget(view: View, pending: Option<Request>)

  /** What the user can do, and the arrival of the outcome of the request
      in flight. The picker lists only `AVAILABLE_MODULES`. */
  datatype UiEvent =
    | Type(text: string)
    | Press(key: string, shift: bool)
    | ClickSend
    | Choose(m: string)
    | ClickNewChat
    | Arrive(outcome: Outcome)

  function Start(now: nat): Widget {
    Widget(View(Mount(now), ""), None)
  }

  function Launch(w: Widget, r: Sent): Widget {
    Widget(r.view, if r.request.Some? then r.request else w.pending)
  }

  function UiStep(w: Widget, e: UiEvent, now: nat): Widget {
    var s := w.view.session;
    match e
    case Type(t) =>
      if Locked(s.isLoading, s.selectedModule) then w else w.(view := w.view.(input := t))
    case Press(k, shift) =>
      if Locked(s.isLoading, s.selectedModule) then w else Launch(w, HandleKeyDown(w.view, k, shift, now))
    case ClickSend =>
      if SendDisabled(w.view.input, s.isLoading, s.selectedModule) then w else Launch(w, HandleSendMessage(w.view, now))
    case Choose(m) =>
      if m in Catalog.AvailableModules then w.(view := SelectModule(w.view, m, now)) else w
    case ClickNewChat =>
      if Locked(s.isLoading, s.selectedModule) then w else w.(view := NewChat(w.view, now))
    case Arrive(o) =>
      match w.pending
      case None => w
      case Some(req) => Widget(w.view.(session := Complete(s, req, o, now)), None)
  }

  /** The loading flag is up exactly while a request is in flight, the
      selected module is empty or from the catalog, and the request in
      flight names a catalog module and a trimmed, non-blank question. */
  predicate Coherent(w: Widget) {
    && (w.view.session.isLoading <==> w.pending.Some?)
    && !w.view.session.initialLoad
    && (w.view.session.selectedModule == "" || w.view.session.selectedModule in Catalog.Modules)
    && (w.pending.Some? ==>
          && w.pending.value.moduleName in Catalog.Modules
          && w.pending.value.question != ""
          && Trim(w.pending.value.question) == w.pending.value.question)
  }

  lemma StartIsCoherent(now: nat)
    ensures Coherent(Start(now))
  {
    MountKeepsSeed(now);
  }

  /** Driven through the component, the store never has two requests in
      flight, and the loading flag tracks the one it has. */
  lemma UiStepKeepsCoherent(w: Widget, e: UiEvent, now: nat)
    requires Coherent(w)
    ensures Coherent(UiStep(w, e, now))
  {
    Catalog.AvailableModulesAreTheKeys();
    match e
    case Press(k, shift) =>
      var s := w.view.session;
      if !Locked(s.isLoading, s.selectedModule) && HandleKeyDown(w.view, k, shift, now).request.Some? {
        SentTextIsTrimmed(w.view, now);
      }
    case ClickSend =>
      var s := w.view.session;
      if !SendDisabled(w.view.input, s.isLoading, s.selectedModule) {
        SentTextIsTrimmed(w.view, now);
      }
    case _ =>
  }
}
