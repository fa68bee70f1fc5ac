/** What the pages reach outside themselves: the browser's localStorage, the
    router, toasts, a page reload, and the requests sent to the assessment
    service. Navigation, toasts and reloads are recorded as events, not performed;
    a request is the body the page posts, and its reply is a parameter of the
    method that continues after the `await`. */
module Platform {
  import opened Js

  /** localStorage keys. */
  const SessionIdKey := "sessionId"
  const CurrentPromptKey := "currentPrompt"
  const DisableTimeoutKey := "DISABLE_PROMPT_TIMEOUT"

  /** Routes. */
  const StartFlowPath := "/start-flow"
  const AnswerFlowPath := "/answer-flow"
  const CompleteFlowPath := "/complete-flow"

  /** An observable effect: `router.push`, a toast, `window.location.reload()`,
      or the call of a component's `onSessionStarted` callback. */
  datatype Event =
    | Navigate(path: string)
    | ToastSuccess(message: string)
    | ToastError(message: string)
    | Reload
    | SessionStartedCallback

  /** The JSON body a page posts to the assessment service. */
  datatype Request =
    | StartRequest(email: string, personaHint: string)
    | AnswerRequest(sessionId: string, answer: string)
    | CompleteRequest(sessionId: string, optInEmail: bool)

  /** `localStorage.getItem(key)`: the stored string, or null. */
  function GetItem(entries: map<string, string>, key: string): (v: Option<string>)
    ensures v.Some? <==> key in entries
    ensures v.Some? ==> v.value == entries[key]
  {
    if key in entries then Some(entries[key]) else None
  }

  /** The debug flag: the stored `DISABLE_PROMPT_TIMEOUT` is exactly "true". */
  predicate TimeoutDisabled(entries: map<string, string>)
  {
    GetItem(entries, DisableTimeoutKey) == Some("true")
  }

  /** window.localStorage: one string-to-string map shared by every page of the tab. */
  class Store {
    var entries: map<string, string>

    constructor (initial: map<string, string>)
      ensures entries == initial
    {
      entries := initial;
    }

    /** `localStorage.setItem(key, value)`. */
    method SetItem(key: string, value: string)
      modifies this
      ensures entries == old(entries)[key := value]
    {
      entries := entries[key := value];
    }

    /** `localStorage.removeItem(key)`. */
    method RemoveItem(key: string)
      modifies this
      ensures entries == old(entries) - {key}
    {
      entries := entries - {key};
    }
  }
}
