/** The SessionStarter component: a lenient email check, its form condition and
    `startSession`, which validates the service's reply before touching the holder. */
module Starter {
  import opened Js
  import opened Platform
  import opened SessionContext
  import StartFlow

  /** `isValidEmail`: the trimmed email is non-empty and the email contains an '@'. */
  predicate IsValidEmail(email: string)
  {
    |Trim(email)| > 0 && '@' in email
  }

  /** The non-blank test is implied by the '@': the check is just "contains an '@'". */
  lemma {:induction false} IsValidEmailIffHasAt(email: string)
    ensures IsValidEmail(email) <==> '@' in email
  {
    if '@' in email {
      var k :| 0 <= k < |email| && email[k] == '@';
      assert !IsWhitespace(email[k]);
      TrimEmptyIff(email);
    }
  }

  /** Whether "INVALID EMAIL FORMAT" is shown under the email field: exactly when
      something is typed and it holds no '@'. */
  predicate ShowsInvalidEmail(email: string)
  {
    email != "" && !IsValidEmail(email)
  }

  lemma ShowsInvalidEmailIff(email: string)
    ensures ShowsInvalidEmail(email) <==> email != "" && '@' !in email
  {
    IsValidEmailIffHasAt(email);
  }

  /** Every email the entry page's regular expression accepts passes this check too. */
  lemma EntryPageEmailAccepted(email: string)
    requires StartFlow.IsValidEmail(email)
    ensures IsValidEmail(email)
  {
    StartFlow.ValidEmailIsTrimmedWithOneAt(email);
    assert multiset(email)['@'] == 1;
  }

  /** The converse fails: "a@" passes here but not the entry page's regular expression. */
  lemma LenientAcceptsMore()
    ensures IsValidEmail("a@") && !StartFlow.IsValidEmail("a@")
  {
    IsValidEmailIffHasAt("a@");
    assert "a@"[1] == '@';
  }

  /** `isFormValid`: a valid email and a non-blank persona hint. */
  predicate IsFormValid(email: string, personaHint: string)
  {
    IsValidEmail(email) && |Trim(personaHint)| > 0
  }

  /** Whether the "MINIMUM 3 CHARACTERS REQUIRED" hint is shown under the persona field. */
  predicate ShowsShortHintWarning(personaHint: string)
  {
    personaHint != "" && |Trim(personaHint)| < 3
  }

  /** The three-character hint is display-only: a form can be valid while showing it. */
  lemma ShortHintNotEnforced()
    ensures IsFormValid("a@b", "x") && ShowsShortHintWarning("x")
  {
    IsValidEmailIffHasAt("a@b");
    assert "a@b"[1] == '@';
    assert !IsWhitespace("x"[0]);
    TrimEmptyIff("x");
  }

  /** The body `startSession` posts for the typed fields, or None when the form is
      invalid: both fields go out trimmed, the email still holds its '@' and the
      persona hint is non-empty. */
  function StartRequestFor(email: string, personaHint: string): (r: Option<Request>)
    ensures r.Some? <==> '@' in email && |Trim(personaHint)| > 0
    ensures r.Some? ==> r.value == StartRequest(Trim(email), Trim(personaHint))
    ensures r.Some? ==> '@' in r.value.email && r.value.personaHint != ""
  {
    IsValidEmailIffHasAt(email);
    if IsFormValid(email, personaHint) then
      var k :| 0 <= k < |email| && email[k] == '@';
      TrimKeeps(email, k);
      Some(StartRequest(Trim(email), Trim(personaHint)))
    else
      None
  }

  /** Whether the start button is disabled. */
  predicate StartDisabled(email: string, personaHint: string, isLoading: bool)
  {
    isLoading || !IsFormValid(email, personaHint)
  }

  /** The button is enabled exactly when `startSession` posts, so its "fill in all
      required fields" toast cannot follow a click on the button; the button is
      always disabled while loading. */
  lemma EnabledStartPosts(email: string, personaHint: string)
    ensures !StartDisabled(email, personaHint, false) <==> StartRequestFor(email, personaHint).Some?
    ensures StartDisabled(email, personaHint, true)
  {
    IsValidEmailIffHasAt(email);
  }

  /** The outcome of the start request: a failure (network error, non-ok status or
      unreadable body), or the body's `session.id` and `first_prompt` fields, either
      of which may be missing. */
  datatype Reply = Failed | Succeeded(sessionId: Option<string>, firstPrompt: Option<string>)

  const FillFieldsMessage := "Please fill in all required fields"
  const StartedMessage := "Assessment started successfully!"
  const StartFailedMessage := "Failed to start assessment. Please try again."

  class SessionStarter {
    const ctx: SessionHolder
    /** Whether the parent passed an `onSessionStarted` callback. */
    const hasCallback: bool
    var email: string
    var personaHint: string
    var isLoading: bool
    var events: seq<Event>

    constructor (ctx: SessionHolder, hasCallback: bool)
      ensures this.ctx == ctx && this.hasCallback == hasCallback
      ensures email == "" && personaHint == "" && !isLoading && events == []
    {
      this.ctx := ctx;
      this.hasCallback := hasCallback;
      email, personaHint, isLoading, events := "", "", false, [];
    }

    /** The email input's onChange; the input is disabled while loading. */
    method EditEmail(text: string)
      modifies this
      ensures email == if old(isLoading) then old(email) else text
      ensures personaHint == old(personaHint) && isLoading == old(isLoading) && events == old(events)
    {
      if !isLoading {
        email := text;
      }
    }

    /** The persona input's onChange; the input is disabled while loading. */
    method EditPersonaHint(text: string)
      modifies this
      ensures personaHint == if old(isLoading) then old(personaHint) else text
      ensures email == old(email) && isLoading == old(isLoading) && events == old(events)
    {
      if !isLoading {
        personaHint := text;
      }
    }

    /** `startSession` up to its `await`: an invalid form only raises an error toast;
        a valid one starts loading and posts the trimmed email and persona hint. The
        button is disabled while loading, so no second request starts meanwhile. */
    method StartSession() returns (req: Option<Request>)
      requires !isLoading
      modifies this
      ensures req == StartRequestFor(old(email), old(personaHint))
      ensures isLoading == req.Some?
      ensures events == old(events) + (if req.None? then [ToastError(FillFieldsMessage)] else [])
      ensures email == old(email) && personaHint == old(personaHint)
    {
      req := StartRequestFor(email, personaHint);
      if req.None? {
        events := events + [ToastError(FillFieldsMessage)];
      } else {
        isLoading := true;
      }
    }

    /** `startSession` after its `await`: a reply without a truthy `session.id` is an
        error and leaves the holder alone; otherwise the holder takes the id, takes the
        prompt only when it is truthy, and the callback runs. Loading ends either way. */
    method ReceiveReply(reply: Reply)
      requires isLoading
      modifies this, ctx
      ensures !isLoading
      ensures email == old(email) && personaHint == old(personaHint)
      ensures !(reply.Succeeded? && Truthy(reply.sessionId)) ==>
        && ctx.sessionId == old(ctx.sessionId) && ctx.currentPrompt == old(ctx.currentPrompt)
        && events == old(events) + [ToastError(StartFailedMessage)]
      ensures reply.Succeeded? && Truthy(reply.sessionId) ==>
        && ctx.sessionId == reply.sessionId
        && ctx.currentPrompt == (if Truthy(reply.firstPrompt) then reply.firstPrompt else old(ctx.currentPrompt))
        && events == old(events) + [ToastSuccess(StartedMessage)] + (if hasCallback then [SessionStartedCallback] else [])
    {
      if reply.Succeeded? && Truthy(reply.sessionId) {
        ctx.SetSessionId(reply.sessionId);
        if Truthy(reply.firstPrompt) {
          ctx.SetCurrentPrompt(reply.firstPrompt);
        }
        events := events + [ToastSuccess(StartedMessage)];
        if hasCallback {
          events := events + [SessionStartedCallback];
        }
      } else {
        events := events + [ToastError(StartFailedMessage)];
      }
      isLoading := false;
    }
  }
}
