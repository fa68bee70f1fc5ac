/** The entry page: its email check, its submit condition, and `handleStart`,
    which asks the service for a session and hands it to the session holder. */
module StartFlow {
  import opened Js
  import opened Platform
  import opened SessionContext

  /** A character of the regular-expression class [^\s@]. */
  predicate IsAtomChar(c: char)
  {
    !IsWhitespace(c) && c != '@'
  }

  /** A string made only of [^\s@] characters. */
  predicate AllAtomChars(s: string)
  {
    forall k :: 0 <= k < |s| ==> IsAtomChar(s[k])
  }

  /** The regular expression matches `email` with its '@' at `at` and its literal '.'
      at `dot`: L = email[..at], D = email[at + 1..dot] and T = email[dot + 1..] are
      non-empty runs of [^\s@]. */
  predicate SplitsAt(email: string, at: int, dot: int)
  {
    && 0 < at && at + 1 < dot && dot + 1 < |email|
    && email[at] == '@' && email[dot] == '.'
    && AllAtomChars(email[..at]) && AllAtomChars(email[at + 1..dot]) && AllAtomChars(email[dot + 1..])
  }

  /** `/^[^\s@]+@[^\s@]+\.[^\s@]+$/.test(email)`: the email splits as L '@' D '.' T.
      D and T may themselves hold dots. */
  predicate IsValidEmail(email: string)
  {
    exists at, dot | 0 < at < dot < |email| :: SplitsAt(email, at, dot)
  }

  /** The position of the first `c` in `s`, or `|s|` when there is none. */
  function IndexOf(s: string, c: char): (i: nat)
    ensures i <= |s|
    ensures i < |s| ==> s[i] == c
    ensures forall k :: 0 <= k < i ==> s[k] != c
  {
    if |s| == 0 then 0
    else if s[0] == c then 0
    else 1 + IndexOf(s[1..], c)
  }

  /** The same language described by what the email contains: no whitespace, one '@'
      that is not the first character, and after it a '.' that neither follows the
      '@' directly nor ends the email. */
  predicate HasEmailShape(email: string)
  {
    var at := IndexOf(email, '@');
    && 0 < at < |email| - 2
    && (forall k :: 0 <= k < |email| ==> !IsWhitespace(email[k]))
    && '@' !in email[at + 1..]
    && '.' in email[at + 2..|email| - 1]
  }

  /** Outside position `at`, an email the regular expression splits at `at` and `dot`
      holds neither whitespace nor '@'. */
  lemma AtomCharsOutsideAt(email: string, at: int, dot: int)
    requires SplitsAt(email, at, dot)
    ensures forall k :: 0 <= k < |email| && k != at ==> IsAtomChar(email[k])
  {
    var l, d, t := email[..at], email[at + 1..dot], email[dot + 1..];
    forall k | 0 <= k < |email| && k != at ensures IsAtomChar(email[k]) {
      if k < at {
        assert l[k] == email[k];
      } else if k < dot {
        assert d[k - at - 1] == email[k];
      } else if k > dot {
        assert t[k - dot - 1] == email[k];
      }
    }
  }

  /** Every split the regular expression finds puts the '@' at the first '@'. */
  lemma SplitIsAtFirstAt(email: string, at: int, dot: int)
    requires SplitsAt(email, at, dot)
    ensures IndexOf(email, '@') == at
    ensures HasEmailShape(email)
  {
    AtomCharsOutsideAt(email, at, dot);
    var tail := email[at + 2..|email| - 1];
    assert tail[dot - at - 2] == '.';
  }

  /** An email of that shape splits at its first '@' and a '.' after it. */
  lemma ShapeSplits(email: string) returns (at: int, dot: int)
    requires HasEmailShape(email)
    ensures SplitsAt(email, at, dot)
  {
    at := IndexOf(email, '@');
    var tail := email[at + 2..|email| - 1];
    var j :| 0 <= j < |tail| && tail[j] == '.';
    dot := at + 2 + j;
    assert email[dot] == tail[j];
    var l, d, t, rest := email[..at], email[at + 1..dot], email[dot + 1..], email[at + 1..];
    forall k | 0 <= k < |l| ensures IsAtomChar(l[k]) {
      assert l[k] == email[k];
    }
    forall k | 0 <= k < |d| ensures IsAtomChar(d[k]) {
      assert d[k] == rest[k] == email[at + 1 + k];
    }
    forall k | 0 <= k < |t| ensures IsAtomChar(t[k]) {
      assert t[k] == rest[dot - at + k] == email[dot + 1 + k];
    }
  }

  /** The regular expression accepts exactly the emails of that shape. */
  lemma IsValidEmailIffShape(email: string)
    ensures IsValidEmail(email) <==> HasEmailShape(email)
  {
    if IsValidEmail(email) {
      var at, dot :| 0 < at < dot < |email| && SplitsAt(email, at, dot);
      SplitIsAtFirstAt(email, at, dot);
    }
    if HasEmailShape(email) {
      var at, dot := ShapeSplits(email);
    }
  }

  /** An email split at `at` holds exactly one '@', the one at `at`. */
  lemma SplitHasOneAt(email: string, at: int, dot: int)
    requires SplitsAt(email, at, dot)
    ensures multiset(email)['@'] == 1
  {
    AtomCharsOutsideAt(email, at, dot);
    var l, r := email[..at], email[at + 1..];
    assert email == l + [email[at]] + r;
    forall k | 0 <= k < |l| ensures l[k] != '@' {
      assert l[k] == email[k];
    }
    forall k | 0 <= k < |r| ensures r[k] != '@' {
      assert r[k] == email[at + 1 + k];
    }
  }

  /** An email the regular expression accepts holds exactly one '@' and no whitespace,
      so trimming leaves it unchanged. */
  lemma ValidEmailIsTrimmedWithOneAt(email: string)
    requires IsValidEmail(email)
    ensures multiset(email)['@'] == 1
    ensures forall k :: 0 <= k < |email| ==> !IsWhitespace(email[k])
    ensures email != "" && Trim(email) == email
  {
    var at, dot :| 0 < at < dot < |email| && SplitsAt(email, at, dot);
    SplitHasOneAt(email, at, dot);
    AtomCharsOutsideAt(email, at, dot);
    TrimNoEdges(email);
  }

  /** `canSubmit`: both fields are non-blank after trimming and the email passes the
      regular expression. */
  predicate CanSubmit(email: string, personaHint: string)
  {
    Trim(email) != "" && Trim(personaHint) != "" && IsValidEmail(email)
  }

  /** The blank-email test in `canSubmit` is implied by the regular expression. */
  lemma CanSubmitIff(email: string, personaHint: string)
    ensures CanSubmit(email, personaHint) <==> IsValidEmail(email) && Trim(personaHint) != ""
  {
    if IsValidEmail(email) {
      ValidEmailIsTrimmedWithOneAt(email);
    }
  }

  /** The body `handleStart` posts for the typed fields, or None when `canSubmit` fails:
      the fields go out as typed, and the email holds exactly one '@'. */
  function StartRequestFor(email: string, personaHint: string): (r: Option<Request>)
    ensures r.Some? <==> IsValidEmail(email) && Trim(personaHint) != ""
    ensures r.Some? ==> r.value == StartRequest(email, personaHint) && multiset(r.value.email)['@'] == 1
  {
    CanSubmitIff(email, personaHint);
    if CanSubmit(email, personaHint) then
      ValidEmailIsTrimmedWithOneAt(email);
      Some(StartRequest(email, personaHint))
    else
      None
  }

  /** Whether the start button is disabled. */
  predicate StartDisabled(email: string, personaHint: string, isLoading: bool)
  {
    !CanSubmit(email, personaHint) || isLoading
  }

  /** The button is enabled exactly when `handleStart` gets past its guard and posts,
      and it is always disabled while loading. */
  lemma EnabledStartPosts(email: string, personaHint: string)
    ensures !StartDisabled(email, personaHint, false) <==> StartRequestFor(email, personaHint).Some?
    ensures StartDisabled(email, personaHint, true)
  {
    CanSubmitIff(email, personaHint);
  }

  /** The outcome of the start request: a failure (network error, non-ok status or
      unreadable body), or the `session_id` and `initial_prompt` fields of the body,
      either of which may be missing. */
  datatype Reply = Failed | Succeeded(sessionId: Option<string>, initialPrompt: Option<string>)

  const StartedMessage := "Session started successfully!"
  const StartFailedMessage := "Failed to start session. Please try again."

  class StartFlowPage {
    const ctx: SessionHolder
    var email: string
    var personaHint: string
    var isLoading: bool
    var events: seq<Event>

    constructor (ctx: SessionHolder)
      ensures this.ctx == ctx
      ensures email == "" && personaHint == "" && !isLoading && events == []
    {
      this.ctx := ctx;
      email, personaHint, isLoading, events := "", "", false, [];
    }

    /** The email input's onChange. */
    method EditEmail(text: string)
      modifies this
      ensures email == text
      ensures personaHint == old(personaHint) && isLoading == old(isLoading) && events == old(events)
    {
      email := text;
    }

    /** The persona textarea's onChange. */
    method EditPersonaHint(text: string)
      modifies this
      ensures personaHint == text
      ensures email == old(email) && isLoading == old(isLoading) && events == old(events)
    {
      personaHint := text;
    }

    /** `handleStart` up to its `await`: nothing happens unless `canSubmit`; otherwise
        the page starts loading and posts the email and persona hint as typed. The
        button is disabled while loading, so no second request starts meanwhile. */
    method HandleStart() returns (req: Option<Request>)
      requires !isLoading
      modifies this
      ensures req == StartRequestFor(old(email), old(personaHint))
      ensures isLoading == req.Some?
      ensures email == old(email) && personaHint == old(personaHint) && events == old(events)
    {
      if !CanSubmit(email, personaHint) {
        return None;
      }
      isLoading := true;
      req := Some(StartRequest(email, personaHint));
    }

    /** `handleStart` after its `await`: on success the holder takes the reply's
        `session_id` and `initial_prompt`, exactly as received, and the page moves to
        the answer page; on failure the holder is untouched. Loading ends either way. */
    method ReceiveReply(reply: Reply)
      requires isLoading
      modifies this, ctx
      ensures !isLoading
      ensures email == old(email) && personaHint == old(personaHint)
      ensures reply.Failed? ==>
        && ctx.sessionId == old(ctx.sessionId) && ctx.currentPrompt == old(ctx.currentPrompt)
        && events == old(events) + [ToastError(StartFailedMessage)]
      ensures reply.Succeeded? ==>
        && ctx.sessionId == reply.sessionId && ctx.currentPrompt == reply.initialPrompt
        && events == old(events) + [ToastSuccess(StartedMessage), Navigate(AnswerFlowPath)]
    {
      match reply {
        case Failed =>
          events := events + [ToastError(StartFailedMessage)];
        case Succeeded(id, prompt) =>
          ctx.SetSessionId(id);
          ctx.SetCurrentPrompt(prompt);
          events := events + [ToastSuccess(StartedMessage), Navigate(AnswerFlowPath)];
      }
      isLoading := false;
    }
  }
}
