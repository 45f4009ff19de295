/**
 * The hierarchical popup menu shared by cells and column headers: open/close
 * with an outside-click listener, drill-down into sub-options through a
 * history stack, keyboard focus with wrap-around, and leaf selection.
 */
module Menus {
  import opened Wrappers
  import opened JsValues
  import opened Events

  /** A menu label: plain text, or one of the markup fragments the components build. */
  datatype Label =
    | Text(text: string)
    | RevertTo(shown: Value)   // `Revert to <span>${shown}</span>`
    | RemovePlugin             // `<span>Remove Plugin</span>`
    | PluginsSubmenu           // `Plugins` followed by a caret icon

  /** `{ label, value, options?, classes? }` (the label as `caption`); an option with `options` opens a sub-level. */
  datatype MenuOption = MenuOption(caption: Label, value: string, options: Option<seq<MenuOption>>, classes: Option<string>)

  function Leaf(text: string, value: string): MenuOption {
    MenuOption(Text(text), value, None, None)
  }

  /** The values of a menu level, in order. */
  function Values(opts: seq<MenuOption>): (r: seq<string>)
    ensures |r| == |opts|
    ensures forall i :: 0 <= i < |opts| ==> r[i] == opts[i].value
  {
    if opts == [] then [] else [opts[0].value] + Values(opts[1..])
  }

  /** Identity of a DOM event object, compared with `===`. */
  type EventToken = nat

  const TypeErrorMessage := "TypeError: Cannot read properties of undefined (reading 'value')"
  const NoSelectionValue := "onItemClick didn't recover a selection value"

  /** The first index at or after `from` whose option has value `v`, or -1. */
  function IndexFrom(opts: seq<MenuOption>, v: string, from: nat): (i: int)
    requires from <= |opts|
    ensures i == -1 || from <= i < |opts|
    ensures 0 <= i ==> opts[i].value == v && forall j :: from <= j < i ==> opts[j].value != v
    ensures i == -1 <==> forall j :: from <= j < |opts| ==> opts[j].value != v
    decreases |opts| - from
  {
    if from == |opts| then -1
    else if opts[from].value == v then from
    else IndexFrom(opts, v, from + 1)
  }

  /** `opts.findIndex(({ value }) => value === v)` */
  function IndexOfValue(opts: seq<MenuOption>, v: string): (i: int)
    ensures -1 <= i < |opts|
    ensures 0 <= i ==> opts[i].value == v && forall j :: 0 <= j < i ==> opts[j].value != v
    ensures i == -1 <==> forall j :: 0 <= j < |opts| ==> opts[j].value != v
  {
    IndexFrom(opts, v, 0)
  }

  /** `opts.find((opt) => opt.value === v)` */
  function FindOption(opts: seq<MenuOption>, v: string): (r: Option<MenuOption>)
    ensures r.None? <==> forall j :: 0 <= j < |opts| ==> opts[j].value != v
    ensures r.Some? ==> r.value.value == v && exists j :: 0 <= j < |opts| && opts[j] == r.value
  {
    var i := IndexOfValue(opts, v);
    if i == -1 then None else Some(opts[i])
  }

  /** Values are unique within one menu level. */
  ghost predicate DistinctValues(opts: seq<MenuOption>) {
    forall i, j :: 0 <= i < j < |opts| ==> opts[i].value != opts[j].value
  }

  /** No option has the (falsy) empty string as its value. */
  ghost predicate NonEmptyValues(opts: seq<MenuOption>) {
    forall i :: 0 <= i < |opts| ==> opts[i].value != ""
  }

  lemma IndexOfDistinct(opts: seq<MenuOption>, i: nat)
    requires DistinctValues(opts) && i < |opts|
    ensures IndexOfValue(opts, opts[i].value) == i
  {
  }

  /**
   * Focus after ArrowDown/ArrowRight: the first option when nothing (or the
   * empty string) is focused, the next one otherwise, wrapping from the last
   * to the first. A focused value absent from a non-empty level stays; absent
   * from an empty level, `activeOptions[0].value` throws.
   */
  function FocusForward(opts: seq<MenuOption>, focused: Option<string>): (r: Result<Option<string>>)
    ensures !TruthyString(focused) ==> r == Ok(if |opts| == 0 then None else Some(opts[0].value))
    ensures TruthyString(focused) && |opts| == 0 ==> r.Raised?
    ensures r.Raised? ==> TruthyString(focused) && |opts| == 0
    ensures TruthyString(focused) ==>
              var i := IndexOfValue(opts, focused.value);
              && (0 <= i < |opts| - 1 ==> r == Ok(Some(opts[i + 1].value)))
              && (0 <= i && i == |opts| - 1 ==> r == Ok(Some(opts[0].value)))
              && (i == -1 && |opts| > 0 ==> r == Ok(focused))
  {
    if !TruthyString(focused) then Ok(if |opts| == 0 then None else Some(opts[0].value))
    else
      var i := IndexOfValue(opts, focused.value);
      if i > -1 && i < |opts| - 1 then Ok(Some(opts[i + 1].value))
      else if i == |opts| - 1 then
        (if |opts| == 0 then Raised(TypeErrorMessage) else Ok(Some(opts[0].value)))
      else Ok(focused)
  }

  /**
   * Focus after ArrowUp/ArrowLeft: the last option when nothing is focused,
   * the previous one otherwise, wrapping from the first to the last; a focused
   * value absent from the level is kept.
   */
  function FocusBackward(opts: seq<MenuOption>, focused: Option<string>): (r: Option<string>)
    ensures !TruthyString(focused) ==> r == (if |opts| == 0 then None else Some(opts[|opts| - 1].value))
    ensures TruthyString(focused) ==>
              var i := IndexOfValue(opts, focused.value);
              && (0 < i ==> r == Some(opts[i - 1].value))
              && (i == 0 ==> r == Some(opts[|opts| - 1].value))
              && (i == -1 ==> r == focused)
  {
    if !TruthyString(focused) then (if |opts| == 0 then None else Some(opts[|opts| - 1].value))
    else
      var i := IndexOfValue(opts, focused.value);
      if i > 0 then Some(opts[i - 1].value)
      else if i == 0 then Some(opts[|opts| - 1].value)
      else focused
  }

  /** Focus after `k` presses of a key whose single press is `step`; a press that throws ends the run. */
  function Presses(step: Option<string> -> Result<Option<string>>, focused: Option<string>, k: nat): Result<Option<string>>
    decreases k
  {
    if k == 0 then Ok(focused)
    else
      match Presses(step, focused, k - 1)
      case Raised(m) => Raised(m)
      case Ok(f) => step(f)
  }

  /** One ArrowDown press on a level that does not change. */
  function ArrowDownStep(opts: seq<MenuOption>): Option<string> -> Result<Option<string>> {
    f => FocusForward(opts, f)
  }

  /** One ArrowUp press on a level that does not change. */
  function ArrowUpStep(opts: seq<MenuOption>): Option<string> -> Result<Option<string>> {
    f => Ok(FocusBackward(opts, f))
  }

  /** Once press n+1 equals press 1, presses repeat with period n. */
  lemma {:induction false} PressesRepeat(step: Option<string> -> Result<Option<string>>, n: nat, k: nat)
    requires k >= 1
    requires Presses(step, None, n + 1) == Presses(step, None, 1)
    ensures Presses(step, None, k + n) == Presses(step, None, k)
  {
    if k > 1 {
      PressesRepeat(step, n, k - 1);
      assert Presses(step, None, k + n) == Presses(step, None, (k - 1 + n) + 1);
    }
  }

  /** From nothing focused, the first N ArrowDown presses visit the options in order. */
  lemma {:induction false} ForwardFirstCycle(opts: seq<MenuOption>, k: nat)
    requires DistinctValues(opts) && NonEmptyValues(opts)
    requires 1 <= k <= |opts|
    ensures Presses(ArrowDownStep(opts), None, k) == Ok(Some(opts[k - 1].value))
  {
    if k > 1 {
      ForwardFirstCycle(opts, k - 1);
      IndexOfDistinct(opts, k - 2);
    }
  }

  /** ArrowDown on the last option wraps to the first. */
  lemma ForwardFromLast(opts: seq<MenuOption>)
    requires |opts| > 0 && DistinctValues(opts) && NonEmptyValues(opts)
    ensures FocusForward(opts, Some(opts[|opts| - 1].value)) == Ok(Some(opts[0].value))
  {
    IndexOfDistinct(opts, |opts| - 1);
  }

  /** The first ArrowDown press from nothing focused lands on the first option. */
  lemma ForwardFirstPress(opts: seq<MenuOption>)
    requires |opts| > 0
    ensures Presses(ArrowDownStep(opts), None, 1) == Ok(Some(opts[0].value))
  {
    assert Presses(ArrowDownStep(opts), None, 0) == Ok(None);
  }

  /** Press N+1 of ArrowDown from nothing focused is the first option, like press 1. */
  lemma ForwardWrapStep(opts: seq<MenuOption>)
    requires |opts| > 0 && DistinctValues(opts) && NonEmptyValues(opts)
    ensures Presses(ArrowDownStep(opts), None, |opts| + 1) == Presses(ArrowDownStep(opts), None, 1)
  {
    var n, step := |opts|, ArrowDownStep(opts);
    ForwardFirstCycle(opts, n);
    var last := Some(opts[n - 1].value);
    ForwardFromLast(opts);
    assert step(last) == Ok(Some(opts[0].value));
    ForwardFirstPress(opts);
  }

  /** Pressing ArrowDown N more times comes back to the same option. */
  lemma ForwardPeriodic(opts: seq<MenuOption>, k: nat)
    requires |opts| > 0 && DistinctValues(opts) && NonEmptyValues(opts)
    requires k >= 1
    ensures Presses(ArrowDownStep(opts), None, k + |opts|) == Presses(ArrowDownStep(opts), None, k)
  {
    ForwardWrapStep(opts);
    PressesRepeat(ArrowDownStep(opts), |opts|, k);
  }

  /** N+1 ArrowDown presses on N options come back to the first. */
  lemma ArrowDownReturnsToFirst(opts: seq<MenuOption>)
    requires |opts| > 0 && DistinctValues(opts) && NonEmptyValues(opts)
    ensures Presses(ArrowDownStep(opts), None, |opts| + 1) == Ok(Some(opts[0].value))
  {
    ForwardPeriodic(opts, 1);
  }

  /** From nothing focused, the first N ArrowUp presses visit the options from the last. */
  lemma {:induction false} BackwardFirstCycle(opts: seq<MenuOption>, k: nat)
    requires DistinctValues(opts) && NonEmptyValues(opts)
    requires 1 <= k <= |opts|
    ensures Presses(ArrowUpStep(opts), None, k) == Ok(Some(opts[|opts| - k].value))
  {
    if k > 1 {
      var i := |opts| - k + 1;
      BackwardFirstCycle(opts, k - 1);
      IndexOfDistinct(opts, i);
      assert FocusBackward(opts, Some(opts[i].value)) == Some(opts[i - 1].value);
    }
  }

  /** Press N+1 of ArrowUp from nothing focused is the last option, like press 1. */
  lemma BackwardWrapStep(opts: seq<MenuOption>)
    requires |opts| > 0 && DistinctValues(opts) && NonEmptyValues(opts)
    ensures Presses(ArrowUpStep(opts), None, |opts| + 1) == Presses(ArrowUpStep(opts), None, 1)
  {
    var n, step := |opts|, ArrowUpStep(opts);
    BackwardFirstCycle(opts, n);
    IndexOfDistinct(opts, 0);
    assert FocusBackward(opts, Some(opts[0].value)) == Some(opts[n - 1].value);
    assert Presses(step, None, n + 1) == step(Some(opts[0].value));
    assert Presses(step, None, 1) == step(None);
  }

  /** Pressing ArrowUp N more times comes back to the same option. */
  lemma BackwardPeriodic(opts: seq<MenuOption>, k: nat)
    requires |opts| > 0 && DistinctValues(opts) && NonEmptyValues(opts)
    requires k >= 1
    ensures Presses(ArrowUpStep(opts), None, k + |opts|) == Presses(ArrowUpStep(opts), None, k)
  {
    BackwardWrapStep(opts);
    PressesRepeat(ArrowUpStep(opts), |opts|, k);
  }

  /** Focus never leaves the options of the level: it is absent only on an empty level. */
  lemma FocusStaysOnOptions(opts: seq<MenuOption>, focused: Option<string>)
    requires NonEmptyValues(opts)
    requires focused.None? || exists j :: 0 <= j < |opts| && opts[j].value == focused.value
    ensures FocusForward(opts, focused).Ok?
    ensures var f := FocusForward(opts, focused).value;
            (f.None? <==> |opts| == 0) && (f.Some? ==> exists j :: 0 <= j < |opts| && opts[j].value == f.value)
    ensures var b := FocusBackward(opts, focused);
            (b.None? <==> |opts| == 0) && (b.Some? ==> exists j :: 0 <= j < |opts| && opts[j].value == b.value)
  {
    if focused.Some? {
      var j :| 0 <= j < |opts| && opts[j].value == focused.value;
      assert TruthyString(focused);
      var i := IndexOfValue(opts, focused.value);
      assert 0 <= i;
      if i < |opts| - 1 {
        assert opts[i + 1].value == FocusForward(opts, focused).value.value;
      } else {
        assert opts[0].value == FocusForward(opts, focused).value.value;
      }
      if i > 0 {
        assert opts[i - 1].value == FocusBackward(opts, focused).value;
      } else {
        assert opts[|opts| - 1].value == FocusBackward(opts, focused).value;
      }
    } else {
      if |opts| > 0 {
        assert opts[0].value == FocusForward(opts, focused).value.value;
        assert opts[|opts| - 1].value == FocusBackward(opts, focused).value;
      }
    }
  }

  /**
   * The element `onItemClick` settles on when walking up from the click
   * target: `chain[0]` is the target's `data-value` attribute, `chain[k+1]`
   * that of the parent of `chain[k]`; the walk stops at the first element
   * that has the attribute, or at the outermost element.
   */
  method RecoverDataValue(chain: seq<Option<string>>) returns (i: nat)
    requires |chain| > 0
    ensures i < |chain|
    ensures chain[i].Some? || i == |chain| - 1
    ensures forall j :: 0 <= j < i ==> chain[j].None?
  {
    i := 0;
    while chain[i].None? && i + 1 < |chain|
      invariant i < |chain|
      invariant forall j :: 0 <= j < i ==> chain[j].None?
    {
      i := i + 1;
    }
  }

  /** Where the walk of `onItemClick` stops. */
  ghost predicate IsHolder(chain: seq<Option<string>>, i: nat) {
    && i < |chain|
    && (chain[i].Some? || i == |chain| - 1)
    && forall j :: 0 <= j < i ==> chain[j].None?
  }

  lemma HolderUnique(chain: seq<Option<string>>, i: nat, k: nat)
    requires IsHolder(chain, i) && IsHolder(chain, k)
    ensures i == k
  {
  }

  /** All fields of a menu, for stating what a handler leaves unchanged. */
  datatype MenuState = MenuState(
    open: bool,
    selection: Option<string>,
    options: seq<MenuOption>,
    activeOptions: seq<MenuOption>,
    historyStack: seq<seq<MenuOption>>,
    focused: Option<string>,
    activeEvent: Option<EventToken>,
    hasOutsideClicker: bool,
    listening: bool,
    log: seq<Notification>,
    openChanged: bool,
    optionsChanged: bool)

  /** Whether `onSelection(v)` finds an option with sub-options in `s.options`. */
  predicate DrillsDown(s: MenuState, v: string) {
    var sub := FindOption(s.options, v);
    sub.Some? && sub.value.options.Some?
  }

  /**
   * The state `onSelection(v)` leaves: a value with sub-options pushes the
   * current level and shows the sub-level; any other value becomes the
   * selection and is announced.
   */
  function AfterSelection(s: MenuState, v: string): (r: MenuState)
    ensures r.open == s.open && r.focused == s.focused && r.listening == s.listening
    ensures DrillsDown(s, v) ==>
              && r.historyStack == s.historyStack + [s.options]
              && r.options == FindOption(s.options, v).value.options.value
              && r.selection == s.selection
              && r.log == s.log
              && r.optionsChanged
    ensures !DrillsDown(s, v) ==>
              && r.selection == Some(v)
              && r.log == s.log + [MenuSelected(v)]
              && r.options == s.options
              && r.historyStack == s.historyStack
              && r.optionsChanged == s.optionsChanged
  {
    var sub := FindOption(s.options, v);
    if sub.Some? && sub.value.options.Some? then
      s.(historyStack := s.historyStack + [s.options], options := sub.value.options.value, optionsChanged := true)
    else
      s.(selection := Some(v), log := s.log + [MenuSelected(v)])
  }

  class Menu {
    /** Identity of this menu's `close` closure. */
    const handle: CloseHandle
    var open: bool
    var selection: Option<string>
    var options: seq<MenuOption>
    var activeOptions: seq<MenuOption>
    var historyStack: seq<seq<MenuOption>>
    var focused: Option<string>
    var activeEvent: Option<EventToken>
    /** `this.outsideClicker` has been created. */
    var hasOutsideClicker: bool
    /** `this.outsideClicker` is registered as a document click listener. */
    var listening: bool
    /** Events dispatched by this menu, oldest first. */
    var log: seq<Notification>
    /** Lit's record of changed properties for the next update cycle. */
    var openChanged: bool
    var optionsChanged: bool

    function State(): MenuState
      reads this
    {
      MenuState(open, selection, options, activeOptions, historyStack, focused, activeEvent,
                hasOutsideClicker, listening, log, openChanged, optionsChanged)
    }

    /**
     * Between update cycles the listener is registered exactly while the menu
     * is open, and the visible level is the current `options`.
     */
    ghost predicate Valid()
      reads this
    {
      && (listening ==> hasOutsideClicker)
      && (!openChanged ==> listening == open)
      && (!optionsChanged ==> activeOptions == options)
    }

    /** A new menu; its field initialisers are recorded as changes for the first update. */
    constructor (handle: CloseHandle)
      ensures Valid() && this.handle == handle
      ensures State() == MenuState(false, None, [], [], [], None, None, false, false, [], true, true)
    {
      this.handle := handle;
      open, selection, options, activeOptions, historyStack := false, None, [], [], [];
      focused, activeEvent, hasOutsideClicker, listening, log := None, None, false, false, [];
      openChanged, optionsChanged := true, true;
    }

    /** `menu.open = v`; Lit records the change when the value differs. */
    method SetOpen(v: bool)
      requires Valid()
      modifies this
      ensures Valid()
      ensures State() == old(State()).(open := v, openChanged := old(openChanged) || v != old(open))
    {
      if v != open {
        open := v;
        openChanged := true;
      }
    }

    /** The `close` closure handed out with the open event. */
    method Close()
      requires Valid()
      modifies this
      ensures Valid()
      ensures State() == old(State()).(open := false, openChanged := old(openChanged) || old(open))
    {
      SetOpen(false);
    }

    /** `menu.options = opts` */
    method SetOptions(opts: seq<MenuOption>)
      requires Valid()
      modifies this
      ensures Valid()
      ensures State() == old(State()).(options := opts, optionsChanged := true)
    {
      options := opts;
      optionsChanged := true;
    }

    /**
     * One Lit update cycle: `willUpdate` then `updated` over the recorded
     * changes. Opening registers the listener and announces the menu with its
     * close closure; closing restores the root level, unregisters the
     * listener and clears the focus; a change of `options` shows that level.
     */
    method Update()
      requires Valid()
      modifies this
      ensures Valid() && !openChanged && !optionsChanged
      ensures listening == open && activeOptions == options
      ensures old(openChanged) && old(open) ==>
                State() == old(State()).(hasOutsideClicker := true, listening := true,
                                         log := old(log) + [MenuOpen(handle)],
                                         activeOptions := old(options),
                                         openChanged := false, optionsChanged := false)
      ensures old(openChanged) && !old(open) ==>
                var root := if |old(historyStack)| > 0 then old(historyStack)[0] else old(options);
                State() == old(State()).(options := root, activeOptions := root, historyStack := [],
                                         focused := None,
                                         activeEvent := if old(hasOutsideClicker) then None else old(activeEvent),
                                         listening := false,
                                         openChanged := false, optionsChanged := false)
      ensures !old(openChanged) ==>
                State() == old(State()).(activeOptions := old(options), openChanged := false, optionsChanged := false)
    {
      // willUpdate
      if openChanged && open {
        hasOutsideClicker := true;
        listening := true;
        log := log + [MenuOpen(handle)];
      } else if openChanged && !open {
        if |historyStack| > 0 {
          options := historyStack[0];
          optionsChanged := true;
          historyStack := [];
        }
        if hasOutsideClicker {
          activeEvent := None;
          listening := false;
        }
      }
      if optionsChanged {
        activeOptions := options;
      }
      // updated
      if openChanged && !open {
        focused := None;
      }
      openChanged, optionsChanged := false, false;
    }

    /** A click on the trigger toggles the menu and remembers the click. */
    method OnTrigger(e: EventToken)
      requires Valid()
      modifies this
      ensures Valid()
      ensures State() == old(State()).(open := !old(open), openChanged := true, activeEvent := Some(e))
    {
      open := !open;
      openChanged := true;
      activeEvent := Some(e);
    }

    /**
     * A click reaching the document. The registered listener closes the menu
     * and unregisters itself, unless the click is the one that opened it.
     */
    method OnDocumentClick(e: EventToken)
      requires Valid()
      modifies this
      ensures Valid()
      ensures old(listening) && old(activeEvent) != Some(e) ==>
                State() == old(State()).(open := false, openChanged := old(openChanged) || old(open),
                                         activeEvent := None, listening := false)
      ensures !(old(listening) && old(activeEvent) != Some(e)) ==> State() == old(State())
    {
      if listening && activeEvent != Some(e) {
        SetOpen(false);
        activeEvent := None;
        listening := false;
      }
    }

    /** `onSelection(event, v)`; `stopped` tells whether the event was stopped. */
    method OnSelection(v: string) returns (stopped: bool)
      requires Valid()
      modifies this
      ensures Valid()
      ensures State() == AfterSelection(old(State()), v)
      ensures stopped == DrillsDown(old(State()), v)
    {
      var sub := FindOption(options, v);
      if sub.Some? && sub.value.options.Some? {
        stopped := true;
        historyStack := historyStack + [options];
        options := sub.value.options.value;
        optionsChanged := true;
        return;
      }
      stopped := false;
      selection := Some(v);
      log := log + [MenuSelected(v)];
    }

    /**
     * A click on a list item: the `data-value` found by walking up from the
     * target is selected; an absent or empty value throws and changes nothing.
     */
    method OnItemClick(chain: seq<Option<string>>) returns (outcome: Outcome, stopped: bool)
      requires Valid()
      requires |chain| > 0
      modifies this
      ensures Valid()
      ensures forall i: nat :: IsHolder(chain, i) ==>
                if TruthyString(chain[i]) then
                  outcome == Done && State() == AfterSelection(old(State()), chain[i].value)
                  && stopped == DrillsDown(old(State()), chain[i].value)
                else
                  outcome == Threw(NoSelectionValue) && State() == old(State())
    {
      var i := RecoverDataValue(chain);
      assert IsHolder(chain, i);
      forall k | IsHolder(chain, k) ensures k == i {
        HolderUnique(chain, i, k);
      }
      var value := chain[i];
      if !TruthyString(value) {
        return Threw(NoSelectionValue), false;
      }
      stopped := OnSelection(value.value);
      outcome := Done;
    }

    /** Enter or Space: toggle, and select the focused value when that closes the menu. */
    method ToggleByKey()
      requires Valid()
      modifies this
      ensures Valid()
      ensures var toggled := old(State()).(open := !old(open), openChanged := true);
              State() == if old(open) && TruthyString(old(focused)) then AfterSelection(toggled, old(focused).value) else toggled
    {
      SetOpen(!open);
      if !open && TruthyString(focused) {
        var _ := OnSelection(focused.value);
      }
    }

    /**
     * Keyboard handling on the trigger: Escape closes, Enter/Space toggles
     * (selecting the focused value when that closes the menu), the arrows
     * move the focus, Tab is suppressed while open.
     */
    method OnKeyDown(code: string) returns (prevented: bool, didCloseMenu: bool, outcome: Outcome)
      requires Valid()
      modifies this
      ensures Valid()
      ensures code == "Escape" ==>
                && State() == old(State()).(open := false, openChanged := old(openChanged) || old(open))
                && !prevented && !didCloseMenu && outcome == Done
      ensures (code == "Space" || code == "Enter") ==>
                var toggled := old(State()).(open := !old(open), openChanged := true);
                && prevented && didCloseMenu && outcome == Done
                && State() == (if old(open) && TruthyString(old(focused))
                               then AfterSelection(toggled, old(focused).value) else toggled)
      ensures (code == "ArrowDown" || code == "ArrowRight") ==>
                var r := FocusForward(old(activeOptions), old(focused));
                && prevented && !didCloseMenu
                && outcome == r.ToOutcome()
                && State() == (if r.Ok? then old(State()).(focused := r.value) else old(State()))
      ensures (code == "ArrowUp" || code == "ArrowLeft") ==>
                && prevented && !didCloseMenu && outcome == Done
                && State() == old(State()).(focused := FocusBackward(old(activeOptions), old(focused)))
      ensures code == "Tab" ==> prevented == old(open) && !didCloseMenu && outcome == Done && State() == old(State())
      ensures code !in {"Escape", "Space", "Enter", "ArrowDown", "ArrowRight", "ArrowUp", "ArrowLeft", "Tab"} ==>
                !prevented && !didCloseMenu && outcome == Done && State() == old(State())
    {
      prevented, didCloseMenu, outcome := false, false, Done;
      if code == "Escape" {
        SetOpen(false);
      } else if code == "Space" || code == "Enter" {
        prevented := true;
        ToggleByKey();
        didCloseMenu := true;
      } else if code == "ArrowDown" || code == "ArrowRight" {
        prevented := true;
        var r := FocusForward(activeOptions, focused);
        if r.Ok? {
          focused := r.value;
        } else {
          outcome := Threw(r.message);
        }
      } else if code == "ArrowUp" || code == "ArrowLeft" {
        prevented := true;
        focused := FocusBackward(activeOptions, focused);
      } else if code == "Tab" {
        prevented := open;
      }
    }
  }

  /**
   * Closing with Enter while a sub-menu option is focused drills into that
   * level, but the close in the same update cycle restores the root level:
   * the keyboard drill-down is undone and nothing is selected.
   */
  method EnterOnSubmenuOptionKeepsRoot(m: Menu)
    requires m.Valid() && !m.openChanged && !m.optionsChanged
    requires m.open && m.historyStack == []
    requires TruthyString(m.focused) && DrillsDown(m.State(), m.focused.value)
    modifies m
    ensures m.Valid() && !m.open && !m.listening
    ensures m.options == old(m.options) && m.activeOptions == old(m.options) && m.historyStack == []
    ensures m.selection == old(m.selection) && m.log == old(m.log) && m.focused == None
  {
    var _, _, _ := m.OnKeyDown("Enter");
    m.Update();
  }

  /**
   * The click that opens the menu reaches the document listener and is
   * ignored; a later click elsewhere closes the menu and the listener is gone.
   */
  method OpenThenClickOutside(m: Menu, opening: EventToken, outside: EventToken)
    requires m.Valid() && !m.openChanged && !m.optionsChanged && !m.open
    requires opening != outside
    modifies m
    ensures m.Valid() && !m.open && !m.listening
    ensures m.log == old(m.log) + [MenuOpen(m.handle)]
  {
    m.OnTrigger(opening);
    m.Update();
    assert m.open && m.listening;
    m.OnDocumentClick(opening);
    assert m.open && m.listening;
    m.OnDocumentClick(outside);
    m.Update();
  }
}
