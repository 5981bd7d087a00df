/**
 * A status-bar element and the rule by which the plugin renders one slot
 * (created or last modified) into it.
 */
module StatusBar {
  import opened Wrappers

  /** What an element shows: its text, whether it is displayed, and whether its onclick is the cycle handler. */
  datatype ItemState = ItemState(text: string, shown: bool, cycleOnClick: bool)

  /** JavaScript truthiness of a stored timestamp: `null` and `""` are both absent. */
  predicate Truthy(ts: Option<string>) {
    ts.Some? && ts.value != ""
  }

  /** An enabled slot with a timestamp displays exactly its label followed by the timestamp. */
  predicate SlotAgrees(st: ItemState, prepend: string, ts: Option<string>, enabled: bool) {
    enabled && Truthy(ts) ==> st.text == prepend + ts.value && st.shown
  }

  /**
   * The element after the display update of a slot, from its state `prev`,
   * the slot's label, its stored timestamp and its enabled flag: set the text
   * and show when enabled with a timestamp, then hide when disabled.
   */
  function Rendered(prev: ItemState, prepend: string, ts: Option<string>, enabled: bool): (r: ItemState)
    ensures SlotAgrees(r, prepend, ts, enabled)
    ensures enabled && Truthy(ts) ==> r.cycleOnClick
    ensures !enabled ==> !r.shown && r.text == prev.text && r.cycleOnClick == prev.cycleOnClick
    ensures enabled && !Truthy(ts) ==> r == prev
  {
    var written :=
      if Truthy(ts) && enabled
      then ItemState(prepend + ts.value, if enabled then true else prev.shown, true)
      else prev;
    if !enabled then written.(shown := false) else written
  }

  /** Rendering twice in a row is rendering once. */
  lemma RenderedIdempotent(prev: ItemState, prepend: string, ts: Option<string>, enabled: bool)
    ensures Rendered(Rendered(prev, prepend, ts, enabled), prepend, ts, enabled)
         == Rendered(prev, prepend, ts, enabled)
  {
  }

  /** With a timestamp present, disabling a slot and enabling it again restores what it displayed. */
  lemma ReenableRestores(prev: ItemState, prepend: string, ts: Option<string>)
    requires Truthy(ts)
    ensures var shown := Rendered(prev, prepend, ts, true);
            Rendered(Rendered(shown, prepend, ts, false), prepend, ts, true) == shown
  {
  }

  /** Without a timestamp, a fresh element that is disabled and enabled again stays hidden. */
  lemma ReenableWithoutTimestampStaysHidden(prepend: string)
    ensures var blank := ItemState("", true, false);
            Rendered(Rendered(blank, prepend, None, false), prepend, None, true) == ItemState("", false, false)
  {
  }

  /** A status-bar element as the host provides it, with its `setText`, `show` and `hide`. */
  class StatusBarItem {
    var text: string
    var shown: bool
    /** Whether `onclick` is the plugin's cycle handler (it is `null` until first bound). */
    var cycleOnClick: bool

    /** A new element: empty, displayed, with no click handler. */
    constructor ()
      ensures State() == ItemState("", true, false)
    {
      text := "";
      shown := true;
      cycleOnClick := false;
    }

    function State(): ItemState
      reads this
    {
      ItemState(text, shown, cycleOnClick)
    }

    method SetText(t: string)
      modifies this`text
      ensures State() == old(State()).(text := t)
    {
      text := t;
    }

    method Show()
      modifies this`shown
      ensures State() == old(State()).(shown := true)
    {
      shown := true;
    }

    method Hide()
      modifies this`shown
      ensures State() == old(State()).(shown := false)
    {
      shown := false;
    }

    /** Assigns the plugin's cycle handler to `onclick`. */
    method BindCycleHandler()
      modifies this`cycleOnClick
      ensures State() == old(State()).(cycleOnClick := true)
    {
      cycleOnClick := true;
    }
  }
}
