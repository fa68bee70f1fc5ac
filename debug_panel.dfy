/** The debug panel: a switch for the answer page's redirect timeout, stored in
    localStorage, and a read-out of the stored session data. */
module Debug {
  import opened Js
  import opened Platform

  /** The storage after `toggleDebugMode` when the panel believed the flag was
      `debugOn`: the flag key is removed when it was on and set to "true" when it was
      off, so the stored flag ends up opposite to that belief; no other key changes. */
  function Toggled(debugOn: bool, entries: map<string, string>): (m: map<string, string>)
    ensures TimeoutDisabled(m) == !debugOn
    ensures m - {DisableTimeoutKey} == entries - {DisableTimeoutKey}
    ensures DisableTimeoutKey in m ==> m[DisableTimeoutKey] == "true"
    ensures DisableTimeoutKey in m <==> !debugOn
  {
    if debugOn then entries - {DisableTimeoutKey}
    else entries[DisableTimeoutKey := "true"]
  }

  /** Two toggles restore the flag the panel started from; the key is then absent or
      "true" (a stored "false" or "TRUE" does not survive), and the session keys
      are never touched. */
  lemma ToggleTwice(debugOn: bool, entries: map<string, string>)
    ensures var m := Toggled(!debugOn, Toggled(debugOn, entries));
      && TimeoutDisabled(m) == debugOn
      && (DisableTimeoutKey in m ==> m[DisableTimeoutKey] == "true")
      && GetItem(m, SessionIdKey) == GetItem(entries, SessionIdKey)
      && GetItem(m, CurrentPromptKey) == GetItem(entries, CurrentPromptKey)
  {
  }

  /** The panel's session id read-out: the stored id when it is truthy, else "null". */
  function SessionIdLabel(entries: map<string, string>): (s: string)
    ensures SessionIdKey in entries && entries[SessionIdKey] != "" ==> s == entries[SessionIdKey]
    ensures !(SessionIdKey in entries && entries[SessionIdKey] != "") ==> s == "null"
  {
    Or(GetItem(entries, SessionIdKey), Some("null")).value
  }

  /** The read-out cannot tell a missing id, an empty one and the string "null" apart. */
  lemma SessionIdLabelAmbiguous(entries: map<string, string>)
    ensures SessionIdLabel(entries - {SessionIdKey}) == SessionIdLabel(entries[SessionIdKey := ""])
    ensures SessionIdLabel(entries - {SessionIdKey}) == SessionIdLabel(entries[SessionIdKey := "null"])
  {
  }

  /** The panel's prompt read-out: a check mark exactly when a truthy prompt is stored,
      a cross otherwise. */
  function PromptMark(entries: map<string, string>): (s: string)
    ensures s == "✓" <==> Truthy(GetItem(entries, CurrentPromptKey))
    ensures s == "✗" <==> !Truthy(GetItem(entries, CurrentPromptKey))
  {
    if Truthy(GetItem(entries, CurrentPromptKey)) then "✓" else "✗"
  }

  class DebugPanel {
    /** localStorage, the same store the answer page reads the flag from. */
    const store: Store
    var isOpen: bool
    var debugMode: bool
    var events: seq<Event>

    constructor (store: Store)
      ensures this.store == store && !isOpen && !debugMode && events == []
    {
      this.store := store;
      isOpen, debugMode, events := false, false, [];
    }

    /** The mount effect: the panel's flag becomes exactly whether the stored flag is "true". */
    method RunMountEffect()
      modifies this
      ensures debugMode == TimeoutDisabled(store.entries)
      ensures isOpen == old(isOpen) && events == old(events)
    {
      debugMode := TimeoutDisabled(store.entries);
    }

    /** The floating button and the close button. */
    method SetOpen(open: bool)
      modifies this
      ensures isOpen == open
      ensures debugMode == old(debugMode) && events == old(events)
    {
      isOpen := open;
    }

    /** `toggleDebugMode`, on the switch of the open panel: flips the panel's flag,
        removes or stores the key accordingly, and reloads the page. Whatever the
        panel believed before, its flag agrees with the store afterwards. */
    method ToggleDebugMode()
      requires isOpen
      modifies this, store
      ensures debugMode == !old(debugMode)
      ensures store.entries == Toggled(old(debugMode), old(store.entries))
      ensures debugMode == TimeoutDisabled(store.entries)
      ensures isOpen == old(isOpen) && events == old(events) + [Reload]
    {
      if debugMode {
        store.RemoveItem(DisableTimeoutKey);
        debugMode := false;
      } else {
        store.SetItem(DisableTimeoutKey, "true");
        debugMode := true;
      }
      events := events + [Reload];
    }
  }
}
