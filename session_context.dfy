/** The session holder shared by the pages (SessionProvider) and the guard that
    hands it out (useSession). */
module SessionContext {
  import opened Js

  /** The value of the provider: two independent fields, each starting at null. */
  class SessionHolder {
    var sessionId: Option<string>
    var currentPrompt: Option<string>

    /** A fresh provider: both fields hold their declared default, null. */
    constructor ()
      ensures sessionId == None && currentPrompt == None
    {
      sessionId := None;
      currentPrompt := None;
    }

    /** `setSessionId(id)`: replaces the session id and nothing else. */
    method SetSessionId(id: Option<string>)
      modifies this
      ensures sessionId == id && currentPrompt == old(currentPrompt)
    {
      sessionId := id;
    }

    /** `setCurrentPrompt(prompt)`: replaces the prompt and nothing else. */
    method SetCurrentPrompt(prompt: Option<string>)
      modifies this
      ensures currentPrompt == prompt && sessionId == old(sessionId)
    {
      currentPrompt := prompt;
    }

    /** `clearSession()`: both fields become null, whatever they held, so a second
        call finds nothing left to change. */
    method ClearSession()
      modifies this
      ensures sessionId == None && currentPrompt == None
    {
      SetSessionId(None);
      SetCurrentPrompt(None);
    }
  }

  datatype Result<+T> = Success(value: T) | Failure(error: string)

  const NoProviderMessage := "useSession must be used within a SessionProvider"

  /** `useSession()`: the enclosing provider's holder, or the error it throws when
      there is none (`context` is null outside every provider). */
  function UseSession(context: SessionHolder?): (r: Result<SessionHolder>)
    ensures r.Failure? <==> context == null
    ensures r.Success? ==> r.value == context
    ensures r.Failure? ==> r.error == NoProviderMessage
  {
    if context == null then Failure(NoProviderMessage) else Success(context)
  }
}
