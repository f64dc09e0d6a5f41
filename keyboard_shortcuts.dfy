/** src/hooks/useKeyboardShortcuts.ts: a keydown event runs the first shortcut
    whose key matches ignoring case and whose modifier flags equal the event's. */
module KeyboardShortcuts {
  import opened Wrappers
  import opened JsBuiltins

  /** What a shortcut does: one of the callbacks the page supplied, the empty
      function that stands in for a missing one, the built-in help toast, or a
      page reload. */
  datatype Action =
    | OpenChart | OpenPortfolio | OpenAlerts | OpenSettings | ToggleFullscreen | Refresh | ShowHelp
    | Noop | HelpToast | Reload

  /** An absent modifier flag is `undefined`. */
  datatype Shortcut = Shortcut(
    key: string, ctrlKey: Option<bool>, altKey: Option<bool>, shiftKey: Option<bool>,
    action: Action, description: string)

  datatype KeyEvent = KeyEvent(key: string, ctrlKey: bool, altKey: bool, shiftKey: bool)

  /** What the handler did: whether it called preventDefault and what it ran. */
  datatype Handled = Handled(preventDefault: bool, ran: Option<Action>)

  /** `flag || false`. */
  function Flag(f: Option<bool>): (b: bool)
    ensures b <==> f == Some(true)
  {
    f.GetOr(false)
  }

  /** What an entry matches on: its lower-cased key and its three flags. */
  function Signature(s: Shortcut): (string, bool, bool, bool) {
    (ToLower(s.key), Flag(s.ctrlKey), Flag(s.altKey), Flag(s.shiftKey))
  }

  /** The find predicate: same key ignoring case, and every flag equal. */
  function Matches(s: Shortcut, e: KeyEvent): (m: bool)
    ensures m <==> && ToLower(s.key) == ToLower(e.key)
                   && (s.ctrlKey == Some(true) <==> e.ctrlKey)
                   && (s.altKey == Some(true) <==> e.altKey)
                   && (s.shiftKey == Some(true) <==> e.shiftKey)
  {
    Signature(s) == (ToLower(e.key), e.ctrlKey, e.altKey, e.shiftKey)
  }

  /** `shortcuts.find(...)`, as the index of the entry found. */
  function FirstMatch(shortcuts: seq<Shortcut>, e: KeyEvent): (r: Option<nat>)
    ensures r.Some? ==> r.value < |shortcuts| && Matches(shortcuts[r.value], e)
    ensures r.Some? ==> forall j :: 0 <= j < r.value ==> !Matches(shortcuts[j], e)
    ensures r.None? <==> forall j :: 0 <= j < |shortcuts| ==> !Matches(shortcuts[j], e)
  {
    if shortcuts == [] then None
    else if Matches(shortcuts[0], e) then Some(0)
    else match FirstMatch(shortcuts[1..], e)
      case None => None
      case Some(i) => Some(i + 1)
  }

  /** handleKeyDown: a match prevents the browser default and runs the entry's
      action; no match does neither. */
  function HandleKeyDown(shortcuts: seq<Shortcut>, e: KeyEvent): (h: Handled)
    ensures h.preventDefault <==> exists j :: 0 <= j < |shortcuts| && Matches(shortcuts[j], e)
    ensures h.ran.Some? <==> h.preventDefault
    ensures h.ran.Some? ==> exists k :: && 0 <= k < |shortcuts| && Matches(shortcuts[k], e)
                                         && (forall j :: 0 <= j < k ==> !Matches(shortcuts[j], e))
                                         && h.ran.value == shortcuts[k].action
    ensures h.ran.Some? ==> FirstMatch(shortcuts, e).Some? && h.ran.value == shortcuts[FirstMatch(shortcuts, e).value].action
  {
    match FirstMatch(shortcuts, e)
    case None => Handled(false, None)
    case Some(i) => Handled(true, Some(shortcuts[i].action))
  }

  /** Which callbacks useTradingShortcuts was given. */
  datatype Callbacks = Callbacks(
    openChart: bool, openPortfolio: bool, openAlerts: bool, openSettings: bool,
    toggleFullscreen: bool, refresh: bool, showHelp: bool)

  function Or(provided: bool, a: Action, fallback: Action): Action {
    if provided then a else fallback
  }

  /** The trading page's table: Ctrl+1..4 switch pages, F11 and F5 without
      modifiers, Ctrl+H help, Ctrl+Shift+R reload. */
  function TradingShortcuts(c: Callbacks): (t: seq<Shortcut>)
    ensures |t| == 8
    ensures t[7].action == Reload
    ensures forall i :: 0 <= i < 7 ==> t[i].action != Reload
  {
    [ Shortcut("1", Some(true), None, None, Or(c.openChart, OpenChart, Noop), "باز کردن نمودار"),
      Shortcut("2", Some(true), None, None, Or(c.openPortfolio, OpenPortfolio, Noop), "باز کردن پورتفولیو"),
      Shortcut("3", Some(true), None, None, Or(c.openAlerts, OpenAlerts, Noop), "باز کردن هشدارها"),
      Shortcut("4", Some(true), None, None, Or(c.openSettings, OpenSettings, Noop), "باز کردن تنظیمات"),
      Shortcut("F11", None, None, None, Or(c.toggleFullscreen, ToggleFullscreen, Noop), "تمام صفحه"),
      Shortcut("F5", None, None, None, Or(c.refresh, Refresh, Noop), "به‌روزرسانی"),
      Shortcut("h", Some(true), None, None, Or(c.showHelp, ShowHelp, HelpToast), "نمایش راهنما"),
      Shortcut("r", Some(true), None, Some(true), Reload, "بارگذاری مجدد صفحه") ]
  }

  /** The lower-cased keys of the table and of the events below. */
  lemma LowerKeys()
    ensures ToLower("1") == "1" && ToLower("2") == "2" && ToLower("3") == "3" && ToLower("4") == "4"
    ensures ToLower("F11") == "f11" && ToLower("F5") == "f5"
    ensures ToLower("h") == "h" && ToLower("r") == "r" && ToLower("R") == "r"
  {
  }

  /** The table's signatures, computed once. */
  lemma TableSignatures(c: Callbacks)
    ensures var t := TradingShortcuts(c);
      && Signature(t[0]) == ("1", true, false, false)
      && Signature(t[1]) == ("2", true, false, false)
      && Signature(t[2]) == ("3", true, false, false)
      && Signature(t[3]) == ("4", true, false, false)
      && Signature(t[4]) == ("f11", false, false, false)
      && Signature(t[5]) == ("f5", false, false, false)
      && Signature(t[6]) == ("h", true, false, false)
      && Signature(t[7]) == ("r", true, false, true)
  {
    LowerKeys();
  }

  /** No two entries of the table share a signature. */
  lemma TableSignaturesDistinct(c: Callbacks)
    ensures var t := TradingShortcuts(c);
      forall i, j :: 0 <= i < j < |t| ==> Signature(t[i]) != Signature(t[j])
  {
    TableSignatures(c);
  }

  /** So at most one entry of the table matches any event, and the order of the
      table never decides which action runs. */
  lemma AtMostOneMatch(c: Callbacks, e: KeyEvent, i: nat, j: nat)
    requires i < j < 8
    ensures !(Matches(TradingShortcuts(c)[i], e) && Matches(TradingShortcuts(c)[j], e))
  {
    TableSignaturesDistinct(c);
  }

  /** `find` returns the first matching index, whatever the rest of the table holds. */
  lemma FirstMatchIs(t: seq<Shortcut>, e: KeyEvent, k: nat)
    requires k < |t| && Matches(t[k], e)
    requires forall j :: 0 <= j < k ==> !Matches(t[j], e)
    ensures FirstMatch(t, e) == Some(k)
  {
  }

  /** Ctrl+F5 runs nothing: the F5 entry wants the Ctrl flag off. */
  lemma CtrlF5NotHandled(c: Callbacks, altKey: bool, shiftKey: bool)
    ensures HandleKeyDown(TradingShortcuts(c), KeyEvent("F5", true, altKey, shiftKey)) == Handled(false, None)
  {
    var t := TradingShortcuts(c);
    var e := KeyEvent("F5", true, altKey, shiftKey);
    LowerKeys();
    TableSignatures(c);
    forall j | 0 <= j < |t| ensures !Matches(t[j], e) {
      assert j in {0, 1, 2, 3, 4, 5, 6, 7};
    }
    NothingMatches(t, e);
  }

  /** With no matching entry the handler does nothing. */
  lemma NothingMatches(t: seq<Shortcut>, e: KeyEvent)
    requires forall j :: 0 <= j < |t| ==> !Matches(t[j], e)
    ensures HandleKeyDown(t, e) == Handled(false, None)
  {
  }

  /** Plain F5 runs the refresh callback, or nothing visible without one. */
  lemma F5Refreshes(c: Callbacks)
    ensures HandleKeyDown(TradingShortcuts(c), KeyEvent("F5", false, false, false))
      == Handled(true, Some(if c.refresh then Refresh else Noop))
  {
    var t := TradingShortcuts(c);
    var e := KeyEvent("F5", false, false, false);
    LowerKeys();
    TableSignatures(c);
    assert !Matches(t[0], e) && !Matches(t[1], e) && !Matches(t[2], e) && !Matches(t[3], e) && !Matches(t[4], e);
    FirstMatchIs(t, e, 5);
  }

  /** Ctrl+Shift+R reloads the page whether or not Caps Lock is on. */
  lemma CtrlShiftRReloads(c: Callbacks, key: string)
    requires key == "R" || key == "r"
    ensures HandleKeyDown(TradingShortcuts(c), KeyEvent(key, true, false, true)) == Handled(true, Some(Reload))
  {
    var t := TradingShortcuts(c);
    var e := KeyEvent(key, true, false, true);
    LowerKeys();
    TableSignatures(c);
    assert ToLower(key) == "r";
    forall j | 0 <= j < 7 ensures !Matches(t[j], e) {
      assert j in {0, 1, 2, 3, 4, 5, 6};
    }
    FirstMatchIs(t, e, 7);
  }
}
