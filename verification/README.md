# LumoAI chat widget — a verified Dafny model

LumoAI is a single-page chat widget. A student picks an academic module (CTSE or IUP) and asks
questions that a retrieval-augmented answer service answers from that module's lecture notes.
This project models the logic behind the markup:

- the **conversation store** (`ChatProvider`): the message log, the selected module and the
  loading flag, with its transitions — initial seed, mount, module change, `addMessage`,
  `handleNewUserMessage`, the two halves of `getAIResponse`, and `resetChat`;
- the **message input** component: the send guard, Enter handling, module choice, the new-chat
  action, the disabled predicates and `getModuleFullName`;
- the **module catalog** `MODULES` / `AVAILABLE_MODULES`, as a Dafny `map`;
- the backend **prompt builder** `ChatbotQA.ask_question`;
- the backend **`/api/ask` route**: defaults, validation, module-to-document dispatch and the
  response.

Everything is a pure function over immutable datatypes. The network round trip is an input
(`Outcome = Answered(answer) | Failed`), and so is the retrieval chain
(`qa: (pdfPath, prompt) -> Answer(text) | Raised(error)`). The clock is a `now: nat` parameter
that supplies the ids of new messages.

Files, one module each:

| file | module | models |
|---|---|---|
| `optional.dfy` | `Optional` | absent JSON fields and undefined message fields |
| `text.dfy` | `Text` | whitespace trimming, `str.join`, `str.capitalize` |
| `catalog.dfy` | `Catalog` | `src/constant/moduleConstants.ts` |
| `types.dfy` | `ChatTypes` | `src/types/index.ts` |
| `session.dfy` | `ChatContext` | `src/context/ChatContext.tsx` |
| `input.dfy` | `MessageInput` | `src/components/MessageInput.tsx` |
| `llm.dfy` | `LlmIntegration` | `src/chat/llm_integration.py` |
| `app.dfy` | `AskRoute` | `src/chat/app.py` |
| `exchange.dfy` | `Exchange` | the POST body and the client's reading of the response |

Points of the code's behaviour that the model makes explicit:

- The store itself does not reject blank text. `handleNewUserMessage` checks only that some
  module is set. The check for a draft that trims to empty sits in the input component's guard.
- Nothing is rolled back on failure. The store appends the fixed apology and clears the loading flag.
- `addMessage` takes the selected module from the render that created the callback, but it
  appends to whatever list is current when the update is applied. So a reply carries the module
  of the conversation that asked for it, yet it lands in the current log. That log may have been
  reset or switched to another module in the meantime (`StaleReplyAfterReset`,
  `StaleReplyAfterSwitch`).
- A module change replaces the log only when the selected module actually changes to a
  non-empty value. The effect that runs on mount leaves the seed in place.
- The context hands `handleNewUserMessage(content, module?)` to its consumers under the name
  `addMessage`, whose declared type is `(content, role, module?)`. The input component's call
  therefore tags the user's message with the module name `"user"` (see Findings).

## Model

| member | source | states |
|---|---|---|
| Text.Trim | src/components/MessageInput.tsx:35 | The trim is the infix left after removing a whitespace run at each end. It neither starts nor ends with whitespace. |
| Text.TrimBlankIffAllSpace | src/components/MessageInput.tsx:35-36 | The trimmed text is empty exactly when the input is all whitespace. |
| Text.TrimUnique | src/chat/app.py:22 | Independent characterisation of trimming: the whitespace-free-ended middle between two whitespace runs is the trim. |
| Text.TrimIdempotent | src/chat/app.py:22 | Stripping an already trimmed string changes nothing, so the server's `strip` keeps the client's trimmed question intact. |
| Text.JoinThenSep | src/chat/llm_integration.py:37-39 | A non-empty newline join followed by one more newline is the concatenation of the parts, each followed by a newline. |
| Text.Capitalize | src/chat/llm_integration.py:38 | `str.capitalize` keeps the length, upper-cases the first character and lower-cases every other one. |
| Catalog.Lookup | src/constant/moduleConstants.ts:9-24 | `MODULES[m]` yields an entry exactly for the catalog's keys, and it is that key's entry. |
| Catalog.AvailableModulesAreTheKeys | src/constant/moduleConstants.ts:9-26 | `AVAILABLE_MODULES` lists every key of `MODULES` exactly once, and each entry's short name equals its key. |
| Catalog.CatalogEntries | src/constant/moduleConstants.ts:10-23 | CTSE is Current Trends in Software Engineering, SE4010. IUP is Image Understanding and Processing, IT4130. The empty name is not in the catalog. |
| ChatTypes.RoleName | src/types/index.ts:1-7 | The closed role set maps one-to-one onto the wire names `user` and `assistant`. |
| ChatContext.ModuleDescription | src/context/ChatContext.tsx:22-26 | A catalog key greets with the entry's long name and code. Any other name gets the generic greeting. |
| ChatContext.DescriptionIdentifiesModule | src/context/ChatContext.tsx:22-26 | The generic greeting is used for exactly the names outside the catalog. Distinct catalog modules get distinct greetings. |
| ChatContext.ModuleEffect | src/context/ChatContext.tsx:28-45 | The first run only clears `initialLoad`. A later run with a module selected replaces the log by that module's single greeting. With none selected the log is untouched. Module and loading flag never change. |
| ChatContext.MountKeepsSeed | src/context/ChatContext.tsx:9-32 | After mounting, the log is exactly the seeded assistant greeting with id '1'. No module is selected and nothing is loading. |
| ChatContext.ChangeModule | src/context/ChatContext.tsx:28-45 | After mount, changing to a different non-empty module leaves exactly one greeting tagged with it. Changing to '' or to the same module leaves the log untouched. The loading flag is kept. |
| ChatContext.AddMessage | src/context/ChatContext.tsx:47-56 | Exactly one message is appended after the current list, which is otherwise unchanged. Its module is the override if non-empty, else the callback's selected module. |
| ChatContext.History | src/context/ChatContext.tsx:64-69 | The history has the log's length and order, and each entry is the role and content of the message at the same position. |
| ChatContext.HandleNewUserMessage | src/context/ChatContext.tsx:97-101 | With neither module set nothing changes. Otherwise the user message is appended. A request starts, and loading rises, iff a module is selected. The request carries the question, the selected module and the history of the log before the append. |
| ChatContext.OverrideWithoutSelection | src/context/ChatContext.tsx:58-61 | With only an override module, the user message is appended, no request starts and the loading flag is untouched. |
| ChatContext.Complete | src/context/ChatContext.tsx:83-94 | The answer verbatim, or the fixed apology on failure, is appended as one assistant message after the current log. It is tagged with the request's module. Loading is false afterwards. |
| ChatContext.ResetChat | src/context/ChatContext.tsx:104-114 | Whatever the prior state, the log is exactly the seeded greeting and no module is selected. The module effect does not overwrite it, and the loading flag is untouched. |
| ChatContext.StaleReplyAfterReset | src/context/ChatContext.tsx:47-56 | A reply that arrives after a reset lands right after the seeded greeting, tagged with the old module. |
| ChatContext.StaleReplyAfterSwitch | src/context/ChatContext.tsx:28-56 | A reply that arrives after a switch to another module lands right after the new module's greeting, tagged with the module it was asked about. |
| ChatContext.StepPreservesValid | src/context/ChatContext.tsx:28-56 | Every store transition keeps a greeting at the head of the log: the seed, or the description of the module it is tagged with. |
| ChatContext.StepAppendsOrRestarts | src/context/ChatContext.tsx:28-56 | Every transition either extends the log, keeping the old log as a prefix, or replaces it by a single message. |
| MessageInput.SendWith | src/components/MessageInput.tsx:34-49 | A send happens iff the trimmed draft is non-empty, nothing is loading and a module is selected. The trimmed text is appended as a user message tagged with the argument in the module slot, or with the selected module when that argument is empty. The request carries the trimmed text, the selected module and the prior history. The draft is cleared, and the selected module and mount flag are kept. A rejected send changes nothing. |
| MessageInput.HandleSendMessageAsWritten | src/components/MessageInput.tsx:34-49 | As the code is wired, a send happens iff the guard holds. An accepted send stores the trimmed text tagged with the module name "user", starts the request for the selected module, raises the loading flag, clears the draft and keeps the selected module and the mount flag. A refused send changes nothing. |
| MessageInput.HandleSendMessage | src/components/MessageInput.tsx:34-49 | The intended send, used by the rest of the model: accepted iff the guard holds. It stores the trimmed text tagged with the selected module, starts the request, raises loading, clears the draft and keeps the selected module. A rejected send changes nothing. |
| MessageInput.AsWrittenDiffersOnlyInTag | src/components/MessageInput.tsx:37 | The wired and the intended send differ only in the tag. A refused send is the same no-op in both. An accepted one gives the same request, draft, loading flag, mount flag and module, and the same log except that the last message is tagged "user" instead of the selected module. |
| MessageInput.SendTagCounterexample | src/components/MessageInput.tsx:37 | Sending "hi" with CTSE selected stores a message tagged "user" as wired, and tagged "CTSE" as intended. |
| MessageInput.HandleKeyDown | src/components/MessageInput.tsx:51-56 | Enter without Shift takes the send path only with a module selected. Shift+Enter, other keys, or no module do nothing. The send taken is the intended one; see the Left-out line on the stored tag. |
| MessageInput.SelectModule | src/components/MessageInput.tsx:58-64 | Choosing a module makes it the selected module and keeps the draft and the loading flag. After mount, the log becomes that module's single greeting when the new module is non-empty and differs from the current one, and is otherwise untouched. |
| MessageInput.NewChat | src/components/MessageInput.tsx:223-228 | New chat resets the store to the seeded greeting with no module, and clears the draft. |
| MessageInput.ModuleFullName | src/components/MessageInput.tsx:66-70 | A catalog key shows as `longName - moduleCode`. Any other name shows as itself. |
| MessageInput.SendButtonMatchesGuard | src/components/MessageInput.tsx:241-243 | The send button is disabled exactly when a click would be ignored. |
| MessageInput.SentTextIsTrimmed | src/components/MessageInput.tsx:35-37 | The question that reaches the store is non-blank and already trimmed. |
| MessageInput.GreetingShowsFullName | src/components/MessageInput.tsx:66-70 | A module's greeting embeds the same full name the module picker shows. |
| MessageInput.UiStepKeepsCoherent | src/components/MessageInput.tsx:34-56 | Under the input component's events (typing, Enter, the send button, the module picker, new chat) and the arrival of an outcome, loading is up exactly while one request is in flight. The selected module is empty or from the catalog. The request in flight names a catalog module and a trimmed, non-blank question. |
| LlmIntegration.Lines | src/chat/llm_integration.py:37-39 | One `{Role}: {content}` line per history entry, in order. |
| LlmIntegration.Prompt | src/chat/llm_integration.py:35-42 | With empty history the query is the question unchanged. With history, it is each entry's line followed by a newline, in order, then `User: {question}`, a newline and `Assistant:`. |
| LlmIntegration.AskQuestion | src/chat/llm_integration.py:33-48 | The chain is asked exactly the query laid out as above: the bare question without history, the role lines and the two closing turns with it. Its answer, or the exception it raised, is what the caller gets. |
| LlmIntegration.UserLabel | src/chat/llm_integration.py:38 | `user` is labelled `User`. |
| LlmIntegration.AssistantLabel | src/chat/llm_integration.py:38 | `assistant` is labelled `Assistant`. |
| LlmIntegration.RoleLabels | src/chat/llm_integration.py:38 | `user` is labelled `User` and `assistant` is labelled `Assistant`. |
| AskRoute.PdfFor | src/chat/app.py:28-35 | Exactly CTSE and IUP have a document. CTSE gets `data/CTSE_LEC_2_PART_1.pdf` and IUP gets `data/IUP_LEC_5.pdf`. |
| AskRoute.Validate | src/chat/app.py:20-35 | An absent question counts as "". A blank stripped question is rejected with 400 "Question cannot be empty", before any module check. Otherwise CTSE or IUP (CTSE when absent) is dispatched with the stripped question and the history ([] when absent). Any other module gets 400 "Invalid module selected". |
| AskRoute.Ask | src/chat/app.py:19-40 | The status is 200, 400 or 500. 200 is returned iff the body carries an answer, which is the chain's answer. 400 is returned iff validation rejected. 500 carries the text of the exception the chain raised. `ask_question` re-raises the exception unchanged (src/chat/llm_integration.py:44-48), so it reaches this handler. |
| AskRoute.AcceptedModulesAreCatalog | src/chat/app.py:30-35 | For a non-blank question, the route dispatches exactly the modules of the client's catalog. |
| AskRoute.Defaults | src/chat/app.py:22-24 | A body with only a question asks CTSE's document with an empty history. |
| AskRoute.QuestionCheckedFirst | src/chat/app.py:26-35 | A blank question with an unknown module gets the question error, whatever the chain does. |
| Exchange.WireHistory | src/context/ChatContext.tsx:64-80 | The posted history has one `{role, content}` entry per message, in order, with the wire role name. |
| Exchange.ToBody | src/context/ChatContext.tsx:76-80 | The posted body has every field, so the route applies none of its defaults: it reads back the question and module as sent and one `{role, content}` entry per turn, in order, with the wire role name. |
| Exchange.ClientOutcome | src/context/ChatContext.tsx:83-91 | The client reads an answer exactly from a 2xx response whose body has an answer, and that answer is the text it keeps. Anything else is a failure. The reading of an ok body without an answer differs from the source; see its Left-out line. |
| Exchange.OkResponsesCarryAnswers | src/context/ChatContext.tsx:83-88 | Every ok response of the route carries an answer. The client reads an answer exactly when the body has one. |
| Exchange.ClientHistoryLines | src/chat/llm_integration.py:37-39 | Each prompt line built from the client's history reads `User: ...` or `Assistant: ...` with the text verbatim. |
| Exchange.DispatchedAsSent | src/chat/app.py:22-37 | A trimmed, non-blank question about a catalog module is dispatched unchanged, to its module's document, with its history. |
| Exchange.ReplyOfDispatched | src/context/ChatContext.tsx:83-94 | For a dispatched request, the store appends the chain's answer, or the apology when the chain raised. |
| Exchange.InFlightRoundTrip | src/context/ChatContext.tsx:71-94 | The request in flight is dispatched as sent. What lands in the log is the chain's answer to the prompt, or the apology. |

## Left out

- Rendering, hook scheduling and the nested providers: the store is a sequence of explicit transitions. React's batching of state updates, StrictMode's double effects and the two providers (src/components/ChatInterface.tsx:8, src/App.tsx:29) are not modelled.
- `fetch`, JSON encoding and HTTP transport: the round trip's result is the `Outcome` input, and the route takes an already-decoded body. Bodies that are not JSON objects, `null` fields and fields of the wrong type are not modelled.
- Exchange.ClientOutcome: an ok response without an `answer` field is read as a failure, whereas the client would append `undefined`. `OkResponsesCarryAnswers` shows that this route never sends such a response.
- The chain's construction (PyPDF, text splitting, FAISS, OpenAI embeddings, `gpt-3.5-turbo`) and Flask, CORS and dotenv setup are foreign libraries. Building and invoking the chain is the opaque `qa` parameter, and its `result['result']` is the `Answer` text.
- A history entry missing its `role` or `content` key (a `KeyError` inside `ask_question`) is not modelled: entries always have both fields.
- Text.IsSpace: one shared predicate (space, tab, LF, CR, VT, FF) stands for both JavaScript `trim` and Python `strip`, which differ. Python's `strip` also removes `\x1c`-`\x1f`, `\x85`, `\xa0` and other Unicode spaces. JavaScript's `trim` keeps `\x1c`-`\x1f` and `\x85`, but removes `\xa0`, `\uFEFF` and Unicode spaces and line terminators. So a draft such as `"\x1c"` passes the client's guard and is then rejected by the server with 400, and the client shows the apology. `Text.TrimIdempotent`, `MessageInput.SentTextIsTrimmed`, `Exchange.DispatchedAsSent` and `Exchange.InFlightRoundTrip` hold only for text over this shared predicate.
- Text.Capitalize: case mapping covers ASCII letters only. Python's Unicode title-casing is not modelled.
- Catalog.Lookup: a key inherited from `Object.prototype` (such as `constructor`) is treated as absent, while JavaScript would find a value there. Only catalog names can be chosen in the picker.
- Message timestamps (`new Date()`) are never read by the logic and are left out. Ids are `Seed` for '1' or `Clock(now)` for `Date.now().toString()`, and are not assumed unique.
- The typewriter effect, speech synthesis and clipboard (src/components/Message.tsx), list rendering and scroll-into-view (src/components/MessageList.tsx), scroll tracking, textarea auto-resize, focus handling and the picker modal's open/close state (src/components/MessageInput.tsx) are timer-, browser- or DOM-driven UI.
- Dark mode and localStorage (src/App.tsx) and the header markup (src/components/Header.tsx).
- MessageInput.HandleKeyDown: Enter, and likewise the send button in `UiStep`, takes the intended send `HandleSendMessage`, so the stored user message is tagged with the selected module. As the code is wired, it is tagged "user" (see Findings). `AsWrittenDiffersOnlyInTag` shows that nothing else differs. `Coherent` never reads the tag, so `UiStepKeepsCoherent` is unaffected.
- MessageInput.UiStepKeepsCoherent: the suggested-question buttons under a greeting (src/components/MessageList.tsx:16-18, src/components/Message.tsx:187-192) are not among the modelled events. They call `handleNewUserMessage` with no loading guard, so in the source a second request can start while one is in flight, and the first completion then clears the loading flag while the second is still outstanding. The invariant covers only the input component's events.
- The default editing behaviour of keystrokes that are not intercepted (such as Shift+Enter inserting a newline) is not modelled. `Type` sets the draft wholesale.
- The console logging of errors on both sides is not modelled.

## Findings

| source | as written | input that shows it | evidently intended | confidence | as-written member | corrected member |
|---|---|---|---|---|---|---|
| src/components/MessageInput.tsx:37 | `addMessage(trimmedInput, 'user', selectedModule)` calls the context's `addMessage`, which is `handleNewUserMessage(content, module?)` (src/context/ChatContext.tsx:97, 122). So `'user'` fills the module slot and the message is stored with `module: 'user'`. | Draft "hi" with CTSE selected: the stored user message has module "user". | The typed interface `addMessage(content, role, module?)` (src/types/index.ts:14): the message is tagged with the selected module, "CTSE". | high; not executed | MessageInput.HandleSendMessageAsWritten (shown by MessageInput.SendTagCounterexample) | MessageInput.HandleSendMessage |
