/** SessionGate: renders its children, or its fallback when a session is required
    and missing. A rendered node is `Some(node)`; null (nothing) is `None`. */
module SessionGate {
  import opened Js

  /** What `<SessionGate requireSession fallback>children</SessionGate>` renders when
      the holder's session id is `sessionId`; the parameters' defaults are the
      component's defaults. */
  function Gate<N>(sessionId: Option<string>, children: N,
                   requireSession: bool := false, fallback: Option<N> := None): Option<N>
  {
    if requireSession && !Truthy(sessionId) then fallback else Some(children)
  }

  /** The gate shows the children when no session is required or one is present,
      and the caller's fallback otherwise; unless the fallback is the children
      themselves, the children are shown only in the first case. */
  lemma GateShowsChildrenIff<N>(sessionId: Option<string>, children: N, requireSession: bool, fallback: Option<N>)
    ensures !requireSession || Truthy(sessionId) ==> Gate(sessionId, children, requireSession, fallback) == Some(children)
    ensures requireSession && !Truthy(sessionId) ==> Gate(sessionId, children, requireSession, fallback) == fallback
    ensures fallback != Some(children) ==>
      (Gate(sessionId, children, requireSession, fallback) == Some(children) <==> !requireSession || Truthy(sessionId))
  {
  }

  /** With the default `requireSession = false` the children are always shown. */
  lemma GateDefaultShowsChildren<N>(sessionId: Option<string>, children: N, fallback: Option<N>)
    ensures Gate(sessionId, children, fallback := fallback) == Some(children)
  {
  }

  /** With the default fallback, a gate that blocks renders nothing. */
  lemma GateBlocksWithNothing<N>(sessionId: Option<string>, children: N)
    requires !Truthy(sessionId)
    ensures Gate(sessionId, children, requireSession := true) == None
  {
  }

  /** An empty-string session id is gated exactly like a null one. */
  lemma GateEmptyLikeNull<N>(children: N, requireSession: bool, fallback: Option<N>)
    ensures Gate(Some(""), children, requireSession, fallback) == Gate(None, children, requireSession, fallback)
  {
  }
}
