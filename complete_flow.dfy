/** The completion page: it sends a visitor without a session back to the start
    page, shows its body only behind a session gate, and offers to start over. */
module CompleteFlow {
  import opened Js
  import opened Platform
  import opened SessionContext
  import opened SessionGate

  /** The gated body of the page. */
  datatype Node = Body

  class CompleteFlowPage {
    /** The session holder the page reads and clears. */
    const ctx: SessionHolder
    var events: seq<Event>

    constructor (ctx: SessionHolder)
      ensures this.ctx == ctx && events == []
    {
      this.ctx := ctx;
      events := [];
    }

    /** What the page renders inside its `<SessionGate requireSession>`: the body
        exactly when the holder has a session, and nothing otherwise. */
    function Rendered(): (n: Option<Node>)
      reads this, ctx
      ensures n.Some? <==> Truthy(ctx.sessionId)
      ensures n.Some? ==> n.value == Body
    {
      Gate(ctx.sessionId, Body, requireSession := true)
    }

    /** One run of the redirect effect (on mount and whenever the session id changes):
        without a session it navigates to the start page, with one it does nothing. */
    method RunRedirectEffect()
      modifies this
      ensures events == old(events) + (if Truthy(ctx.sessionId) then [] else [Navigate(StartFlowPath)])
    {
      if !Truthy(ctx.sessionId) {
        events := events + [Navigate(StartFlowPath)];
      }
    }

    /** `handleDownloadReport`: only logs the session id it would download for; it
        changes nothing (the method may modify nothing). */
    method HandleDownloadReport() returns (logged: Option<string>)
      ensures logged == ctx.sessionId
    {
      logged := ctx.sessionId;
    }

    /** `handleStartNew`: the session is cleared, then the page navigates to the start page. */
    method HandleStartNew()
      modifies this, ctx
      ensures ctx.sessionId == None && ctx.currentPrompt == None
      ensures events == old(events) + [Navigate(StartFlowPath)]
    {
      ctx.ClearSession();
      events := events + [Navigate(StartFlowPath)];
    }
  }

  /** A visitor with session "abc" sees the body, and the effect stays quiet; "start
      new" clears the session, which changes the effect's dependency, so the effect
      runs again and pushes the start page a second time, and the body is gone. */
  method StartNewScenario() returns (shownBefore: bool, shownAfter: bool, navigations: seq<Event>)
    ensures shownBefore && !shownAfter
    ensures navigations == [Navigate(StartFlowPath), Navigate(StartFlowPath)]
  {
    var ctx := new SessionHolder();
    ctx.SetSessionId(Some("abc"));
    var page := new CompleteFlowPage(ctx);
    page.RunRedirectEffect();
    shownBefore := page.Rendered().Some?;
    page.HandleStartNew();
    page.RunRedirectEffect();
    shownAfter := page.Rendered().Some?;
    navigations := page.events;
  }
}
