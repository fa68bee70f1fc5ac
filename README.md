# Assessment session bookkeeping, verified in Dafny

A model of the client-side core of a small Next.js assessment app. A visitor
starts a session on an entry page, answers prompts on the answer page, and lands
on a completion page. The model covers:

- how the answer page decides which session it belongs to;
- the answer loop, which switches to "complete" after three answers;
- the two entry forms and their e-mail checks;
- the shared session holder and the gate that hides content without a session;
- the completion page;
- the debug panel, which turns the answer page's redirect timeout off and on.

Modules, one per source file plus two shared ones:

- `Js` (js.dfy): JavaScript semantics the pages rely on.
  - `null`/`undefined` as `None`.
  - String truthiness (`""` is falsy).
  - `a || b`, which returns the first truthy operand, else the last one.
  - `String.prototype.trim`, over the ECMAScript white-space and line-terminator characters. That is the same set the `\s` of a regular expression matches.
- `Platform` (platform.dfy):
  - localStorage, as a `Store` class over a `map<string, string>`;
  - the storage keys and routes;
  - the JSON request bodies;
  - an `Event` log. Navigation, toasts, reloads and the `onSessionStarted` callback are recorded there, not performed.
- `SessionContext` (session_context.dfy): the provider's holder (`SessionHolder`) and `useSession`.
- `SessionGate` (session_gate.dfy): the gate's render decision as a pure function.
- `StartFlow` (start_flow.dfy): the entry page.
- `Starter` (session_starter.dfy): the `SessionStarter` component.
- `AnswerFlow` (answer_flow.dfy): the answer page.
- `CompleteFlow` (complete_flow.dfy): the completion page.
- `Debug` (debug_panel.dfy): the debug panel.

Pages are classes whose fields are the component's state. Every asynchronous
handler is split at its `await`:

- The first method runs the guard, raises the loading flag and returns the request body it would post. It returns `None` when no request is made.
- A `ReceiveReply` method takes the service's reply as a parameter and runs the rest of the handler, `finally` block included.

A reply is either `Failed` or `Succeeded` with the fields the page reads. `Failed`
covers a network error, a non-ok status and a body that is not JSON. The answer page
has a third case, `NullBody`: an ok reply whose JSON body is `null`. Reading
`next_prompt` from it throws only after the answer has been recorded. On the two
entry forms a `null` body throws before any state changes, so there it is `Failed`.

Each start button and the answer page's submit button are disabled while their
request is in flight. So a handler requires the flag to be down, and its
continuation requires it to be up. Some inputs are disabled too:

- `SessionStarter`'s two inputs;
- the answer page's textarea.

The entry page's e-mail input and persona textarea are never disabled, nor is the
answer page's opt-in checkbox. Their methods have no guard.

The answer page's clock is an integer `now` in milliseconds. The 4000 ms redirect
timeout is a `timer` field holding its deadline. Three methods drive it:

- `Elapse` advances the clock and fires the timeout when it is due.
- `CleanupSessionEffect` cancels it, as React does on unmount.
- `RunSessionEffect` also cancels it when the effect runs again.

Behaviours of the code that a reader might not expect:

- **Source resolution uses truthiness, not presence.** Each field is resolved as `a || b || c`. A source holding `""` is skipped, and when no source is truthy the value is the URL's (possibly `""` or null).
- **The timer has no resolution flag.** Only the effect's cleanup cancels it. If the effect runs again on a page that is already loaded and no source resolves, a redirect is scheduled anyway.
- **The entry page does not check the start reply.** An ok reply without `session_id` or `initial_prompt` sets the holder's fields to null and still navigates to the answer page. Only `SessionStarter` rejects a reply without `session.id`.
- **The start body holds only the two fields.** It is `{email, personaHint}`, with nothing else.
- **Some reply fields are never read.** The completion reply is not read at all, so there is no report URL. The answer reply's `completed` flag is not read either: only `next_prompt` matters.
- **The answer page writes `currentPrompt` to localStorage directly**, besides setting it in the holder. Its own page-local `sessionId` and prompt stay separate from the holder.
- **The answer page never reads the holder.** It resolves its session only from the router state, localStorage and the URL.
- **The completion page navigates twice on "start new".** Its redirect effect depends on the session id, so after `handleStartNew` clears the session the effect runs again and pushes `/start-flow` a second time (`CompleteFlow.StartNewScenario`).

## Model

| member | source | states |
|---|---|---|
| Js.Or | app/answer-flow/page.tsx:56-57 | a logical or is truthy iff either operand is; it is `a` when `a` is truthy and `b` otherwise |
| Js.Trim | app/start-flow/page.tsx:23 | `trim()` yields a string no longer than the input with no white space at either end |
| Js.TrimIsCore | app/start-flow/page.tsx:23 | `trim()` removes white space at the two ends and nowhere else: for any split of the string into a white-space prefix, a core that is empty or has non-white ends, and a white-space suffix, the result is that core |
| Js.SkipLeading | app/start-flow/page.tsx:23 | the start of the trimmed text: everything before it is white space, and the character at it is not |
| Js.SkipTrailing | app/start-flow/page.tsx:23 | the end of the trimmed text: everything from it on is white space, and the character before it is not |
| Js.TrimEmptyIff | components/SessionStarter.tsx:21 | a trimmed string is empty exactly when the string is all white space |
| Js.TrimKeeps | components/SessionStarter.tsx:38 | trimming keeps every non-white-space character in its place, shifted left by the length of the leading white space |
| Platform.GetItem | app/answer-flow/page.tsx:49-50 | `getItem` yields a value iff the key is stored, and then the stored value |
| Platform.Store.SetItem | app/answer-flow/page.tsx:148 | `setItem` updates that one key |
| Platform.Store.RemoveItem | components/DebugPanel.tsx:17 | `removeItem` removes that one key |
| SessionContext.SessionHolder.constructor | contexts/SessionContext.tsx:17-18 | both fields start at null |
| SessionContext.SessionHolder.SetSessionId | contexts/SessionContext.tsx:17 | the setter changes the session id and leaves the prompt alone |
| SessionContext.SessionHolder.SetCurrentPrompt | contexts/SessionContext.tsx:18 | the setter changes the prompt and leaves the session id alone |
| SessionContext.SessionHolder.ClearSession | contexts/SessionContext.tsx:20-23 | both fields become null whatever they held, so clearing twice equals clearing once |
| SessionContext.UseSession | contexts/SessionContext.tsx:32-38 | outside a provider the hook fails with its error message; inside, it yields the provider's holder |
| SessionGate.GateShowsChildrenIff | components/SessionGate.tsx:15-19 | for any caller-supplied fallback: the children when no session is required or the id is truthy, the fallback when a session is required and the id is falsy; unless the fallback is the children themselves, the children show only in the first case |
| SessionGate.GateDefaultShowsChildren | components/SessionGate.tsx:12 | with the default `requireSession = false` the children are always shown |
| SessionGate.GateBlocksWithNothing | components/SessionGate.tsx:12-16 | with the default fallback, a blocking gate renders nothing |
| SessionGate.GateEmptyLikeNull | components/SessionGate.tsx:15 | an empty session id is gated exactly like null |
| StartFlow.IndexOf | app/start-flow/page.tsx:20 | the position of the first occurrence of a character, or the length when it does not occur |
| StartFlow.SplitIsAtFirstAt | app/start-flow/page.tsx:20 | any split the e-mail expression finds puts its '@' at the first '@' |
| StartFlow.ShapeSplits | app/start-flow/page.tsx:20 | an e-mail of that shape has a split the expression accepts |
| StartFlow.SplitHasOneAt | app/start-flow/page.tsx:20 | an e-mail the expression splits holds exactly one '@' |
| StartFlow.IsValidEmailIffShape | app/start-flow/page.tsx:19-21 | the expression accepts exactly: no white space, one '@' not in first place, then a '.' that neither follows the '@' directly nor ends the e-mail |
| StartFlow.ValidEmailIsTrimmedWithOneAt | app/start-flow/page.tsx:19-21 | an accepted e-mail has exactly one '@', no white space, and is unchanged by `trim()` |
| StartFlow.CanSubmitIff | app/start-flow/page.tsx:23 | `canSubmit` iff the e-mail is accepted and the persona hint is non-blank (the blank-e-mail test is implied) |
| StartFlow.StartRequestFor | app/start-flow/page.tsx:25-37 | a request is made iff `canSubmit`; it carries both fields as typed, with exactly one '@' in the e-mail |
| StartFlow.EnabledStartPosts | app/start-flow/page.tsx:23-26 | the start button is enabled exactly when `handleStart` gets past its guard and posts, and is always disabled while loading (line 119) |
| StartFlow.StartFlowPage.constructor | app/start-flow/page.tsx:13-15 | empty fields, not loading |
| StartFlow.StartFlowPage.EditEmail | app/start-flow/page.tsx:92 | the e-mail field takes the typed text |
| StartFlow.StartFlowPage.EditPersonaHint | app/start-flow/page.tsx:109 | the persona field takes the typed text |
| StartFlow.StartFlowPage.HandleStart | app/start-flow/page.tsx:25-37 | no request and no state change unless `canSubmit`; otherwise loading starts and the request above goes out |
| StartFlow.StartFlowPage.ReceiveReply | app/start-flow/page.tsx:39-52 | an ok reply sets the holder's id and prompt to the reply's fields as received and navigates to `/answer-flow`; a failure touches neither field nor the route; loading ends either way |
| Starter.IsValidEmailIffHasAt | components/SessionStarter.tsx:20-22 | the check holds iff the e-mail contains '@' (the non-blank test is implied) |
| Starter.ShowsInvalidEmailIff | components/SessionStarter.tsx:87 | the invalid-format warning shows iff something is typed and it has no '@' |
| Starter.EntryPageEmailAccepted | components/SessionStarter.tsx:20-22 | every e-mail the entry page accepts is accepted here |
| Starter.LenientAcceptsMore | components/SessionStarter.tsx:20-22 | the converse fails: "a@" is accepted here but not on the entry page |
| Starter.ShortHintNotEnforced | components/SessionStarter.tsx:109-113 | the three-character hint is display-only: a form can be valid while showing it |
| Starter.StartRequestFor | components/SessionStarter.tsx:24-40 | a request is made iff the e-mail has '@' and the persona hint is non-blank; both go out trimmed, the e-mail still holding its '@' |
| Starter.EnabledStartPosts | components/SessionStarter.tsx:24-28 | the start button is enabled exactly when `startSession` posts, so its "fill in all required fields" toast cannot follow a click on the button; the button is always disabled while loading (line 119) |
| Starter.SessionStarter.constructor | components/SessionStarter.tsx:15-17 | empty fields, not loading |
| Starter.SessionStarter.EditEmail | components/SessionStarter.tsx:81-84 | typing changes the e-mail except while loading |
| Starter.SessionStarter.EditPersonaHint | components/SessionStarter.tsx:103-106 | typing changes the persona hint except while loading |
| Starter.SessionStarter.StartSession | components/SessionStarter.tsx:26-41 | an invalid form only raises the "fill in" error toast; a valid one starts loading and posts the request above |
| Starter.SessionStarter.ReceiveReply | components/SessionStarter.tsx:43-66 | without a truthy `session.id` the holder is untouched, an error toast is raised and no callback runs; otherwise the id is set, the prompt only when truthy, and the callback runs; loading ends either way |
| AnswerFlow.Resolve | app/answer-flow/page.tsx:56-57 | a logical-or chain is truthy iff some candidate is, and is always one of the candidates |
| AnswerFlow.ResolveFirstTruthy | app/answer-flow/page.tsx:56-57 | the chain yields the first truthy candidate |
| AnswerFlow.ResolveNoneTruthy | app/answer-flow/page.tsx:56-57 | with no truthy candidate the chain yields the last one |
| AnswerFlow.ResolveEmptyLikeAbsent | app/answer-flow/page.tsx:56-57 | replacing a "" candidate by null never changes the chain's truthiness, and changes nothing at all unless it is the last candidate |
| AnswerFlow.ResolveSources | app/answer-flow/page.tsx:44-57 | each field independently takes the router state's value if truthy, else the stored one if truthy, else the URL's |
| AnswerFlow.ResolveSourcesIsResolve | app/answer-flow/page.tsx:56-57 | each of the page's two chains is the general resolver applied to the ordered candidates router state, localStorage, URL |
| AnswerFlow.Decide | app/answer-flow/page.tsx:73-95 | proceed with the resolved id and prompt iff an id resolves; otherwise a 4000 ms redirect iff the timeout is not disabled, else wait indefinitely |
| AnswerFlow.ButtonLabel | app/answer-flow/page.tsx:98-100 | "COMPLETE ASSESSMENT" iff at least three answers, "REPLY MESSAGE" otherwise |
| AnswerFlow.EnabledSubmitProceeds | app/answer-flow/page.tsx:264-266 | with a session, the button is enabled exactly when `handleSubmit` gets past its guard, i.e. when the answer is not all white space |
| AnswerFlow.SubmitRequestFor | app/answer-flow/page.tsx:103-137 | no request for a blank answer or a falsy session id; otherwise the completion request with the opt-in flag once complete, else the answer as typed |
| AnswerFlow.AnswerFlowPage.constructor | app/answer-flow/page.tsx:25-37 | loading, no session, no answers, no timer |
| AnswerFlow.AnswerFlowPage.RunSessionEffect | app/answer-flow/page.tsx:40-96 | debug mode iff the stored flag is exactly "true"; on a resolved id the page takes the id and prompt, stops loading and has no timer; otherwise exactly one timer due 4000 ms later, or (debug) none, and the page keeps loading |
| AnswerFlow.AnswerFlowPage.CleanupSessionEffect | app/answer-flow/page.tsx:85-90 | the effect's cleanup cancels the pending timeout |
| AnswerFlow.AnswerFlowPage.Elapse | app/answer-flow/page.tsx:85-90 | a due timeout fires once, navigating to `/start-flow`; no other path navigates |
| AnswerFlow.AnswerFlowPage.EditAnswer | app/answer-flow/page.tsx:235-238 | typing changes the buffer except while submitting |
| AnswerFlow.AnswerFlowPage.SetOptInEmail | app/answer-flow/page.tsx:246-251 | the checkbox, shown once complete, sets the opt-in flag |
| AnswerFlow.AnswerFlowPage.HandleSubmit | app/answer-flow/page.tsx:103-137 | a no-op unless the guard passes; then submitting starts and the request above is in flight |
| AnswerFlow.AnswerFlowPage.ReceiveReply | app/answer-flow/page.tsx:137-159 | a failed reply leaves answers, buffer and prompts unchanged; a completion never appends and navigates to `/complete-flow` whenever the status is ok; an ok answer reply appends exactly that answer and clears the buffer; a truthy `next_prompt` then replaces the prompt in holder, storage and page, while a `null` body leaves the prompts and raises the error toast instead of the success toast; submitting ends either way |
| AnswerFlow.AcceptAnswer | app/answer-flow/page.tsx:127-153 | typing a non-blank answer, submitting it and receiving success appends exactly that answer and updates the prompts only for a truthy `next_prompt` |
| AnswerFlow.NullBodyRecordsYetFails | app/answer-flow/page.tsx:139-157 | an ok answer reply whose body is `null` records the answer and clears the buffer, yet the only event is the error toast, and the prompts stay as they were |
| AnswerFlow.CompleteWithOptIn | app/answer-flow/page.tsx:108-125 | once complete, ticking the opt-in and submitting posts the completion request with the flag set, and success navigates to `/complete-flow` |
| AnswerFlow.AnswerLoopScenario | app/answer-flow/page.tsx:98-158 | with the session and prompt in localStorage and empty router state, for any non-blank answer: the label reads "REPLY MESSAGE" for the first three submits, the first reply's prompt "Q2" reaches the holder, then the label reads "COMPLETE ASSESSMENT", and the completion request with the opt-in flag leads to `/complete-flow` |
| CompleteFlow.CompleteFlowPage.constructor | app/complete-flow/page.tsx:11-12 | the page starts with no events |
| CompleteFlow.CompleteFlowPage.Rendered | app/complete-flow/page.tsx:39 | the body is rendered iff the session id is truthy |
| CompleteFlow.CompleteFlowPage.RunRedirectEffect | app/complete-flow/page.tsx:14-18 | navigates to `/start-flow` iff the session id is null or empty |
| CompleteFlow.CompleteFlowPage.HandleDownloadReport | app/complete-flow/page.tsx:20-23 | changes nothing; only the session id is logged |
| CompleteFlow.CompleteFlowPage.HandleStartNew | app/complete-flow/page.tsx:25-28 | both session fields become null, then the page navigates to `/start-flow` |
| CompleteFlow.StartNewScenario | app/complete-flow/page.tsx:14-28 | with a session the body shows and nothing navigates; "start new" hides it and pushes `/start-flow` twice |
| Debug.Toggled | components/DebugPanel.tsx:15-22 | a toggle from on removes the key, from off stores "true"; the stored flag ends opposite to the panel's flag and no other key changes |
| Debug.ToggleTwice | components/DebugPanel.tsx:15-22 | two toggles restore the flag; the key is then absent or "true"; the session keys are untouched |
| Debug.SessionIdLabel | components/DebugPanel.tsx:86 | the stored session id when truthy, else "null" |
| Debug.SessionIdLabelAmbiguous | components/DebugPanel.tsx:86 | a missing id, an empty one and the string "null" read the same |
| Debug.PromptMark | components/DebugPanel.tsx:92 | ✓ iff a truthy prompt is stored, ✗ otherwise |
| Debug.DebugPanel.constructor | components/DebugPanel.tsx:7-8 | closed, flag off |
| Debug.DebugPanel.RunMountEffect | components/DebugPanel.tsx:10-13 | the flag becomes exactly whether the stored flag is "true" |
| Debug.DebugPanel.SetOpen | components/DebugPanel.tsx:29 | opens or closes the panel |
| Debug.DebugPanel.ToggleDebugMode | components/DebugPanel.tsx:15-24 | flips the flag, updates the store as above and reloads; afterwards the flag agrees with the store |

## Left out

- HTTP, JSON parsing and the webhook URLs are not modelled. Each call is a reply parameter holding only the fields the page reads, typed as strings or null; a non-string JSON value in those fields is not modelled.
- The persistence behind `useSessionStorage` is not modelled: the hook is not part of this model. The holder keeps its two fields in memory only, and is not assumed to share a store with the localStorage the answer page and the debug panel use.
- Strings are sequences of characters. UTF-16 code units, surrogate pairs and the percent-decoding of URL parameters are not modelled: URL values arrive already decoded.
- Rendering, styling, icons and the loading spinner are not modelled, beyond the rendering decisions in the table.
- The "N/3 ANSWERS" counter, the character count and the debug "elapsed seconds" line are not modelled, nor the React keys of the answer list (timestamps).
- `Date.now()` is the integer field `now`. An answer's timestamp is the clock when its reply arrives.
- Console logging is not modelled, except that `HandleDownloadReport` returns what it logs.
- `AnswerFlow.AnswerFlowPage.RunSessionEffect` takes the router state as an input. The router has no such field, so in practice that source is always empty.
- A reply that arrives after its page has been left is not modelled; every page is assumed mounted while its request is in flight.
- The toast and redirect of `SessionResetter`, the bubbles and the layout are not modelled. The reset is `clearSession` plus a toast and a navigation, like `HandleStartNew`.
- The log-download script is not modelled: it is file and console I/O only.
