/** The answer page: on entry it resolves the session from three sources and
    either shows the conversation, schedules a redirect to the start page, or (in
    debug mode) waits; then it runs the answer loop until three answers switch the
    button to completing the assessment. */
module AnswerFlow {
  import opened Js
  import opened Platform
  import opened SessionContext

  /** Milliseconds the page waits for a session before returning to the start page. */
  const RedirectDelay: int := 4000
  /** Answers after which the submit button completes the assessment instead. */
  const AnswerThreshold: nat := 3

  const ReplyLabel := "REPLY MESSAGE"
  const CompleteLabel := "COMPLETE ASSESSMENT"
  const AnsweredMessage := "Answer submitted!"
  const CompletedMessage := "Assessment completed successfully!"
  const SubmitFailedMessage := "Failed to submit. Please try again."

  /** JavaScript's `c0 || c1 || ... || cn`: the first truthy operand, or the last
      operand when none is truthy. An empty chain, which JavaScript cannot write, is
      null. */
  function Resolve(candidates: seq<Option<string>>): (r: Option<string>)
    ensures Truthy(r) <==> exists i :: 0 <= i < |candidates| && Truthy(candidates[i])
    ensures candidates == [] ==> r == None
    ensures candidates != [] ==> r in candidates
  {
    if |candidates| == 0 then None
    else if |candidates| == 1 then candidates[0]
    else
      var rest := Resolve(candidates[1..]);
      assert forall i :: 1 <= i < |candidates| ==> candidates[i] == candidates[1..][i - 1];
      Or(candidates[0], rest)
  }

  /** The chain yields the first truthy candidate. */
  lemma {:induction false} ResolveFirstTruthy(candidates: seq<Option<string>>, i: nat)
    requires i < |candidates| && Truthy(candidates[i])
    requires forall j :: 0 <= j < i ==> !Truthy(candidates[j])
    ensures Resolve(candidates) == candidates[i]
  {
    if i > 0 {
      ResolveFirstTruthy(candidates[1..], i - 1);
    }
  }

  /** With no truthy candidate the chain yields the last one, as `||` does. */
  lemma {:induction false} ResolveNoneTruthy(candidates: seq<Option<string>>)
    requires candidates != []
    requires forall j :: 0 <= j < |candidates| ==> !Truthy(candidates[j])
    ensures Resolve(candidates) == candidates[|candidates| - 1]
  {
    if |candidates| > 1 {
      ResolveNoneTruthy(candidates[1..]);
    }
  }

  /** A candidate holding "" is skipped exactly like an absent one: replacing it by
      null changes nothing, except that as the last candidate it may be returned as
      "" instead of null, which is just as falsy. */
  lemma {:induction false} ResolveEmptyLikeAbsent(candidates: seq<Option<string>>, i: nat)
    requires i < |candidates| && candidates[i] == Some("")
    ensures Truthy(Resolve(candidates[i := None])) == Truthy(Resolve(candidates))
    ensures i < |candidates| - 1 ==> Resolve(candidates[i := None]) == Resolve(candidates)
  {
    if i > 0 {
      assert candidates[i := None][1..] == candidates[1..][i - 1 := None];
      ResolveEmptyLikeAbsent(candidates[1..], i - 1);
    } else if |candidates| > 1 {
      assert candidates[i := None][1..] == candidates[1..];
    }
  }

  /** One source of session identity: the router state, localStorage or the URL query. */
  datatype Source = Source(sessionId: Option<string>, prompt: Option<string>)

  /** The stored pair, as `localStorage.getItem` returns it. */
  function StoredSource(entries: map<string, string>): Source
  {
    Source(GetItem(entries, SessionIdKey), GetItem(entries, CurrentPromptKey))
  }

  /** `stateX || storedX || urlX` for each field: the router state wins over
      localStorage, which wins over the URL, and each field is resolved on its own. */
  function ResolveSources(routerState: Source, stored: Source, url: Source): (s: Source)
    ensures s.sessionId ==
      if Truthy(routerState.sessionId) then routerState.sessionId
      else if Truthy(stored.sessionId) then stored.sessionId
      else url.sessionId
    ensures s.prompt ==
      if Truthy(routerState.prompt) then routerState.prompt
      else if Truthy(stored.prompt) then stored.prompt
      else url.prompt
  {
    Source(Or(Or(routerState.sessionId, stored.sessionId), url.sessionId),
           Or(Or(routerState.prompt, stored.prompt), url.prompt))
  }

  /** The page's two chains are instances of the general resolver over the ordered
      candidates router state, localStorage, URL. */
  lemma ResolveSourcesIsResolve(routerState: Source, stored: Source, url: Source)
    ensures ResolveSources(routerState, stored, url).sessionId
            == Resolve([routerState.sessionId, stored.sessionId, url.sessionId])
    ensures ResolveSources(routerState, stored, url).prompt
            == Resolve([routerState.prompt, stored.prompt, url.prompt])
  {
  }

  /** What the entry effect decides once the sources are resolved. */
  datatype Decision =
    | Proceed(sessionId: string, prompt: Option<string>)
    | RedirectAfter(delay: int)
    | WaitIndefinitely

  /** A resolved session id means the page proceeds at once with it and the resolved
      prompt; without one, the page schedules a 4000 ms redirect unless the timeout is
      disabled, in which case it waits indefinitely. */
  function Decide(resolved: Source, timeoutDisabled: bool): (d: Decision)
    ensures d.Proceed? <==> Truthy(resolved.sessionId)
    ensures d.Proceed? ==> Some(d.sessionId) == resolved.sessionId && d.prompt == resolved.prompt
    ensures d.RedirectAfter? <==> !Truthy(resolved.sessionId) && !timeoutDisabled
    ensures d.RedirectAfter? ==> d.delay == RedirectDelay
    ensures d.WaitIndefinitely? <==> !Truthy(resolved.sessionId) && timeoutDisabled
  {
    if Truthy(resolved.sessionId) then Proceed(resolved.sessionId.value, resolved.prompt)
    else if !timeoutDisabled then RedirectAfter(RedirectDelay)
    else WaitIndefinitely
  }

  /** `isComplete`: enough answers have been given to complete the assessment. */
  predicate IsComplete(answerCount: nat)
  {
    answerCount >= AnswerThreshold
  }

  /** `buttonLabel`: the complete label exactly when the assessment is complete, and
      the reply label otherwise. */
  function ButtonLabel(answerCount: nat): (caption: string)
    ensures caption == CompleteLabel <==> IsComplete(answerCount)
    ensures caption == ReplyLabel <==> !IsComplete(answerCount)
  {
    if IsComplete(answerCount) then CompleteLabel else ReplyLabel
  }

  /** The early return of `handleSubmit`: it proceeds only with a non-blank answer and
      a truthy session id. */
  predicate SubmitProceeds(answer: string, sessionId: Option<string>)
  {
    Trim(answer) != "" && Truthy(sessionId)
  }

  /** Whether the submit button is disabled. */
  predicate SubmitDisabled(answer: string, isSubmitting: bool)
  {
    isSubmitting || Trim(answer) == ""
  }

  /** The button is rendered only once a session is resolved, so a click on an enabled
      button always gets past the guard of `handleSubmit`, and the guard only matters
      for an answer made entirely of whitespace. */
  lemma EnabledSubmitProceeds(answer: string, sessionId: Option<string>)
    requires Truthy(sessionId)
    ensures !SubmitDisabled(answer, false) <==> SubmitProceeds(answer, sessionId)
    ensures SubmitProceeds(answer, sessionId) <==> !AllWhitespace(answer)
  {
    TrimEmptyIff(answer);
  }

  /** The body `handleSubmit` posts: the completion request once the assessment is
      complete, otherwise the answer as typed, for the page's session. */
  function SubmitRequestFor(answer: string, sessionId: Option<string>, answerCount: nat, optInEmail: bool): (r: Option<Request>)
    ensures r.Some? <==> SubmitProceeds(answer, sessionId)
    ensures r.Some? && IsComplete(answerCount) ==> r.value == CompleteRequest(sessionId.value, optInEmail)
    ensures r.Some? && !IsComplete(answerCount) ==> r.value == AnswerRequest(sessionId.value, answer)
  {
    if !SubmitProceeds(answer, sessionId) then None
    else if IsComplete(answerCount) then Some(CompleteRequest(sessionId.value, optInEmail))
    else Some(AnswerRequest(sessionId.value, answer))
  }

  /** One entry of the answer list. */
  datatype Answer = Answer(text: string, timestamp: int)

  /** The outcome of a post: a failure (network error, non-ok status or a body that
      is not JSON); an ok reply carrying the body's `next_prompt` field, which may be
      missing; or an ok reply whose JSON body is `null`, on which reading
      `next_prompt` throws only after the answer has been recorded. The completion
      call never reads its body, so for it `NullBody` is as good as `Succeeded`. */
  datatype Reply = Failed | Succeeded(nextPrompt: Option<string>) | NullBody

  /** The reply records an answer: an ok status for an answer request. */
  predicate Accepted(req: Request, reply: Reply)
  {
    !reply.Failed? && req.AnswerRequest?
  }

  /** The reply records an answer and brings a truthy next prompt. */
  predicate BringsPrompt(req: Request, reply: Reply)
  {
    Accepted(req, reply) && reply.Succeeded? && Truthy(reply.nextPrompt)
  }

  class AnswerFlowPage {
    /** The session holder, whose prompt an answer's reply updates. */
    const ctx: SessionHolder
    /** localStorage. */
    const store: Store

    var loading: bool
    var sessionId: Option<string>
    var firstPrompt: Option<string>
    var answer: string
    var answers: seq<Answer>
    var isSubmitting: bool
    var optInEmail: bool
    var debugMode: bool
    /** The clock, in milliseconds. */
    var now: int
    /** The deadline of the pending redirect timeout, if one is scheduled. */
    var timer: Option<int>
    /** The request whose reply the page is awaiting. */
    var inFlight: Option<Request>
    var events: seq<Event>

    /** The page state holds a session exactly when it has stopped loading, and it
        awaits a reply exactly while submitting, for its own session. */
    ghost predicate Valid()
      reads this
    {
      && (loading <==> !Truthy(sessionId))
      && (isSubmitting <==> inFlight.Some?)
      && (inFlight.Some? ==> Truthy(sessionId) && !inFlight.value.StartRequest?)
    }

    /** The page as first rendered at time `now`. */
    constructor (ctx: SessionHolder, store: Store, now: int)
      ensures Valid()
      ensures this.ctx == ctx && this.store == store && this.now == now
      ensures loading && sessionId == None && firstPrompt == None
      ensures answer == "" && answers == [] && !isSubmitting && !optInEmail && !debugMode
      ensures timer == None && inFlight == None && events == []
    {
      this.ctx := ctx;
      this.store := store;
      this.now := now;
      loading, sessionId, firstPrompt := true, None, None;
      answer, answers, isSubmitting, optInEmail, debugMode := "", [], false, false, false;
      timer, inFlight, events := None, None, [];
    }

    /** The session-detection effect, given what the router state and the URL query
        hold. It reads the debug flag and the stored pair, resolves the sources, and
        acts on the decision: proceed, schedule the single redirect timeout, or wait.
        React runs the previous run's cleanup first, so an earlier timeout is cancelled. */
    method RunSessionEffect(routerState: Source, url: Source)
      requires Valid()
      modifies this
      ensures Valid()
      ensures debugMode == TimeoutDisabled(store.entries)
      ensures var d := Decide(ResolveSources(routerState, StoredSource(store.entries), url), debugMode);
        && sessionId == (if d.Proceed? then Some(d.sessionId) else old(sessionId))
        && firstPrompt == (if d.Proceed? then d.prompt else old(firstPrompt))
        && loading == (if d.Proceed? then false else old(loading))
        && timer == (if d.RedirectAfter? then Some(now + d.delay) else None)
      ensures now == old(now) && events == old(events)
      ensures answer == old(answer) && answers == old(answers) && optInEmail == old(optInEmail)
      ensures isSubmitting == old(isSubmitting) && inFlight == old(inFlight)
    {
      timer := None;
      var timeoutDisabled := TimeoutDisabled(store.entries);
      debugMode := timeoutDisabled;
      var resolved := ResolveSources(routerState, StoredSource(store.entries), url);
      var decision := Decide(resolved, timeoutDisabled);
      if decision.Proceed? {
        assert decision.sessionId != "";
        sessionId := Some(decision.sessionId);
        firstPrompt := decision.prompt;
        loading := false;
      } else if decision.RedirectAfter? {
        timer := Some(now + decision.delay);
      }
    }

    /** The effect's cleanup (on unmount or before the effect runs again): the pending
        timeout, if any, is cancelled and can no longer redirect. */
    method CleanupSessionEffect()
      modifies this
      ensures timer == None
      ensures loading == old(loading) && sessionId == old(sessionId) && firstPrompt == old(firstPrompt)
      ensures now == old(now) && events == old(events) && debugMode == old(debugMode)
      ensures answer == old(answer) && answers == old(answers) && optInEmail == old(optInEmail)
      ensures isSubmitting == old(isSubmitting) && inFlight == old(inFlight)
    {
      timer := None;
    }

    /** `dt` milliseconds pass. A pending timeout whose deadline has come fires once:
        it navigates to the start page and is gone; nothing else ever navigates here. */
    method Elapse(dt: nat)
      modifies this
      ensures now == old(now) + dt
      ensures old(timer).Some? && old(timer).value <= now ==>
        timer == None && events == old(events) + [Navigate(StartFlowPath)]
      ensures !(old(timer).Some? && old(timer).value <= now) ==>
        timer == old(timer) && events == old(events)
      ensures loading == old(loading) && sessionId == old(sessionId) && firstPrompt == old(firstPrompt)
      ensures debugMode == old(debugMode)
      ensures answer == old(answer) && answers == old(answers) && optInEmail == old(optInEmail)
      ensures isSubmitting == old(isSubmitting) && inFlight == old(inFlight)
    {
      now := now + dt;
      if timer.Some? && timer.value <= now {
        timer := None;
        events := events + [Navigate(StartFlowPath)];
      }
    }

    /** The textarea's onChange; the textarea is disabled while submitting. */
    method EditAnswer(text: string)
      modifies this
      ensures answer == if old(isSubmitting) then old(answer) else text
      ensures loading == old(loading) && sessionId == old(sessionId) && firstPrompt == old(firstPrompt)
      ensures now == old(now) && timer == old(timer) && events == old(events) && debugMode == old(debugMode)
      ensures answers == old(answers) && optInEmail == old(optInEmail)
      ensures isSubmitting == old(isSubmitting) && inFlight == old(inFlight)
    {
      if !isSubmitting {
        answer := text;
      }
    }

    /** The opt-in checkbox's onCheckedChange; the checkbox is shown only on the loaded
        page once the assessment is complete. */
    method SetOptInEmail(checked: bool)
      requires !loading && IsComplete(|answers|)
      modifies this
      ensures optInEmail == checked
      ensures loading == old(loading) && sessionId == old(sessionId) && firstPrompt == old(firstPrompt)
      ensures now == old(now) && timer == old(timer) && events == old(events) && debugMode == old(debugMode)
      ensures answer == old(answer) && answers == old(answers)
      ensures isSubmitting == old(isSubmitting) && inFlight == old(inFlight)
    {
      optInEmail := checked;
    }

    /** `handleSubmit` up to its `await`: a blank answer or a missing session makes it
        a no-op; otherwise the page starts submitting and posts the completion request
        once three answers are in, the answer otherwise. The button is disabled while
        submitting, so no second request starts meanwhile. */
    method HandleSubmit() returns (req: Option<Request>)
      requires Valid() && !isSubmitting
      modifies this
      ensures Valid()
      ensures req == SubmitRequestFor(old(answer), old(sessionId), |old(answers)|, old(optInEmail))
      ensures isSubmitting == req.Some? && inFlight == req
      ensures loading == old(loading) && sessionId == old(sessionId) && firstPrompt == old(firstPrompt)
      ensures now == old(now) && timer == old(timer) && events == old(events) && debugMode == old(debugMode)
      ensures answer == old(answer) && answers == old(answers) && optInEmail == old(optInEmail)
    {
      req := SubmitRequestFor(answer, sessionId, |answers|, optInEmail);
      assert req.Some? ==> req.value.sessionId == sessionId.value && !req.value.StartRequest?;
      if req.Some? {
        isSubmitting := true;
        inFlight := req;
      }
    }

    /** `handleSubmit` after its `await`. A failure changes nothing but the toast. A
        completed assessment navigates to the completion page and adds no answer. An
        ok answer reply appends the answer with the current time and clears the
        textarea; a truthy `next_prompt` then replaces the prompt in the holder, in
        localStorage and on the page, while a `null` body throws at that point, so the
        recorded answer is followed by the error toast. Submitting ends either way. */
    method ReceiveReply(reply: Reply)
      requires Valid() && isSubmitting
      modifies this, ctx, store
      ensures Valid() && !isSubmitting && inFlight == None
      ensures loading == old(loading) && sessionId == old(sessionId)
      ensures now == old(now) && timer == old(timer) && debugMode == old(debugMode) && optInEmail == old(optInEmail)
      ensures ctx.sessionId == old(ctx.sessionId)
      ensures events == old(events) +
        if reply.Failed? then [ToastError(SubmitFailedMessage)]
        else if old(inFlight).value.CompleteRequest? then [ToastSuccess(CompletedMessage), Navigate(CompleteFlowPath)]
        else if reply.NullBody? then [ToastError(SubmitFailedMessage)]
        else [ToastSuccess(AnsweredMessage)]
      ensures answers == if Accepted(old(inFlight).value, reply)
        then old(answers) + [Answer(old(inFlight).value.answer, now)] else old(answers)
      ensures answer == if Accepted(old(inFlight).value, reply) then "" else old(answer)
      ensures BringsPrompt(old(inFlight).value, reply) ==>
        && firstPrompt == reply.nextPrompt && ctx.currentPrompt == reply.nextPrompt
        && store.entries == old(store.entries)[CurrentPromptKey := reply.nextPrompt.value]
      ensures !BringsPrompt(old(inFlight).value, reply) ==>
        && firstPrompt == old(firstPrompt) && ctx.currentPrompt == old(ctx.currentPrompt)
        && store.entries == old(store.entries)
    {
      var req := inFlight.value;
      if reply.Failed? {
        events := events + [ToastError(SubmitFailedMessage)];
      } else if req.CompleteRequest? {
        events := events + [ToastSuccess(CompletedMessage), Navigate(CompleteFlowPath)];
      } else {
        answers := answers + [Answer(req.answer, now)];
        answer := "";
        if reply.NullBody? {
          events := events + [ToastError(SubmitFailedMessage)];
        } else {
          if Truthy(reply.nextPrompt) {
            ctx.SetCurrentPrompt(reply.nextPrompt);
            store.SetItem(CurrentPromptKey, reply.nextPrompt.value);
            firstPrompt := reply.nextPrompt;
          }
          events := events + [ToastSuccess(AnsweredMessage)];
        }
      }
      isSubmitting := false;
      inFlight := None;
    }
  }

  /** Typing `text`, clicking the button and receiving an accepted answer whose reply
      brings `nextPrompt`, before the assessment is complete. */
  method AcceptAnswer(page: AnswerFlowPage, text: string, nextPrompt: Option<string>)
    requires page.Valid() && !page.isSubmitting && !page.loading
    requires !IsComplete(|page.answers|) && !AllWhitespace(text)
    modifies page, page.ctx, page.store
    ensures page.Valid() && !page.isSubmitting && !page.loading
    ensures page.sessionId == old(page.sessionId) && page.answers == old(page.answers) + [Answer(text, page.now)]
    ensures Truthy(nextPrompt) ==> page.firstPrompt == nextPrompt && page.ctx.currentPrompt == nextPrompt
    ensures !Truthy(nextPrompt) ==> page.firstPrompt == old(page.firstPrompt) && page.ctx.currentPrompt == old(page.ctx.currentPrompt)
  {
    TrimEmptyIff(text);
    page.EditAnswer(text);
    var req := page.HandleSubmit();
    page.ReceiveReply(Succeeded(nextPrompt));
  }

  /** Typing `text`, clicking the button and receiving an ok reply with a `null`
      body: the answer is recorded and the textarea cleared, yet the user is told
      that the submit failed, and the prompt stays as it was. */
  method NullBodyRecordsYetFails(page: AnswerFlowPage, text: string)
    requires page.Valid() && !page.isSubmitting && !page.loading
    requires !IsComplete(|page.answers|) && !AllWhitespace(text)
    modifies page, page.ctx, page.store
    ensures page.answers == old(page.answers) + [Answer(text, page.now)] && page.answer == ""
    ensures page.events == old(page.events) + [ToastError(SubmitFailedMessage)]
    ensures page.firstPrompt == old(page.firstPrompt) && page.ctx.currentPrompt == old(page.ctx.currentPrompt)
  {
    TrimEmptyIff(text);
    page.EditAnswer(text);
    var req := page.HandleSubmit();
    page.ReceiveReply(NullBody);
  }

  /** Ticking the e-mail opt-in once the assessment is complete, typing `text`,
      clicking the button and receiving a successful completion. */
  method CompleteWithOptIn(page: AnswerFlowPage, text: string) returns (request: Option<Request>)
    requires page.Valid() && !page.isSubmitting && !page.loading
    requires IsComplete(|page.answers|) && !AllWhitespace(text)
    modifies page, page.ctx, page.store
    ensures request == Some(CompleteRequest(old(page.sessionId).value, true))
    ensures page.events == old(page.events) + [ToastSuccess(CompletedMessage), Navigate(CompleteFlowPath)]
  {
    page.SetOptInEmail(true);
    TrimEmptyIff(text);
    page.EditAnswer(text);
    request := page.HandleSubmit();
    page.ReceiveReply(Succeeded(None));
  }

  /** A whole session on this page: the router state is empty and localStorage holds
      session "abc" and prompt "Q1", as the entry page leaves them; three copies of a non-blank answer are accepted, the first reply bringing
      prompt "Q2" and the others none; the label then reads as completing, and with
      the e-mail opt-in ticked the next submit posts the completion request, whose
      success leads to the completion page. */
  method AnswerLoopScenario(text: string) returns (labels: seq<string>, prompt: Option<string>,
                                                   finalRequest: Option<Request>, lastEvent: Event)
    requires !AllWhitespace(text)
    ensures labels == [ReplyLabel, ReplyLabel, ReplyLabel, CompleteLabel]
    ensures prompt == Some("Q2")
    ensures finalRequest == Some(CompleteRequest("abc", true))
    ensures lastEvent == Navigate(CompleteFlowPath)
  {
    var ctx := new SessionHolder();
    var store := new Store(map[SessionIdKey := "abc", CurrentPromptKey := "Q1"]);
    var page := new AnswerFlowPage(ctx, store, 0);
    page.RunSessionEffect(Source(None, None), Source(None, None));
    labels := [];
    var round := 0;
    while round < 3
      invariant 0 <= round <= 3
      invariant page.Valid() && !page.isSubmitting && !page.loading
      invariant page.sessionId == Some("abc") && page.ctx == ctx && page.store == store
      invariant |page.answers| == round && labels == seq(round, _ => ReplyLabel)
      invariant round > 0 ==> ctx.currentPrompt == Some("Q2")
      modifies page, ctx, store
    {
      labels := labels + [ButtonLabel(|page.answers|)];
      AcceptAnswer(page, text, if round == 0 then Some("Q2") else None);
      round := round + 1;
    }
    labels := labels + [ButtonLabel(|page.answers|)];
    prompt := ctx.currentPrompt;
    finalRequest := CompleteWithOptIn(page, text);
    lastEvent := page.events[|page.events| - 1];
  }
}
