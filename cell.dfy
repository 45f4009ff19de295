/**
 * A table cell (`outerbase-td`): its context menu, the effects of menu
 * choices, clipboard serialisation, the printable-key rule that starts
 * editing, and keyboard navigation between sibling cells.
 *
 * The `MutableElement` base class is not part of this model. It is assumed
 * that a cell is dirty exactly when `value` differs from `originalValue`,
 * that the base key handler only decides whether the cell is editing, and
 * that its next/previous-row focus moves go to the same slot of the adjacent
 * row. Its change notification is `Changed`, without payload.
 */
module Cells {
  import opened Wrappers
  import opened JsValues
  import opened Events
  import opened Menus
  import opened GridNav

  /** The base cell menu: only Copy when read-only, otherwise Edit, Copy, Paste, Clear. */
  function CellBaseOptions(readonly: bool): (r: seq<MenuOption>)
    ensures Values(r) == if readonly then ["copy"] else ["edit", "copy", "paste", "clear"]
    ensures forall i :: 0 <= i < |r| ==> r[i].options.None? && r[i].caption.Text?
  {
    if readonly then [Leaf("Copy", "copy")]
    else [Leaf("Edit", "edit"), Leaf("Copy", "copy"), Leaf("Paste", "paste"), Leaf("Clear", "clear")]
  }

  /**
   * The label of the Revert entry. `typeof originalValue === 'object'` holds
   * for objects and for `null`, which get a plain "Revert". Otherwise the
   * label shows the original value itself: the guard choosing between it and
   * "NULL" is `!== null || !== undefined`, which is always true.
   */
  function RevertLabel(orig: Value): (l: Label)
    ensures l == Text("Revert") <==> TypeofObject(orig)
    ensures !TypeofObject(orig) ==> l == RevertTo(orig)
  {
    if TypeofObject(orig) then Text("Revert")
    else RevertTo(if orig != Null || orig != Undefined then orig else Str("NULL"))
  }

  /** The options handed to the cell's menu: the base options, plus a trailing "reset" when dirty. */
  function CellMenuOptions(base: seq<MenuOption>, dirty: bool, orig: Value): (r: seq<MenuOption>)
    ensures |r| == |base| + (if dirty then 1 else 0)
    ensures r[..|base|] == base
    ensures dirty ==> r[|base|] == MenuOption(RevertLabel(orig), "reset", None, None)
  {
    if dirty then base + [MenuOption(RevertLabel(orig), "reset", None, None)] else base
  }

  /** "reset" is on the rendered cell menu exactly when the cell is dirty. */
  lemma ResetOfferedIffDirty(readonly: bool, dirty: bool, orig: Value)
    ensures var opts := CellMenuOptions(CellBaseOptions(readonly), dirty, orig);
            dirty <==> exists i :: 0 <= i < |opts| && opts[i].value == "reset"
  {
    var base := CellBaseOptions(readonly);
    var opts := CellMenuOptions(base, dirty, orig);
    assert Values(base) == if readonly then ["copy"] else ["edit", "copy", "paste", "clear"];
    assert forall i :: 0 <= i < |base| ==> base[i].value == Values(base)[i];
    if dirty {
      assert opts[|base|].value == "reset";
    } else {
      assert opts == base;
    }
  }

  /** What `render` returns: the editor input, the slot of a blank cell, or the display with its menu. */
  datatype RenderMode = EditorInput | BlankSlot | MenuDisplay

  function Mode(isEditing: bool, blank: bool): (m: RenderMode)
    ensures m == EditorInput <==> isEditing
    ensures m == BlankSlot <==> !isEditing && blank
    ensures m == MenuDisplay <==> !isEditing && !blank
  {
    if isEditing then EditorInput else if blank then BlankSlot else MenuDisplay
  }

  /** The text `copyValueToClipboard` writes. */
  function ClipboardText(v: Value): (t: string)
    ensures IsNullish(v) ==> t == ""
    ensures v.Obj? ==> t == v.json
    ensures !IsNullish(v) && !v.Obj? ==> t == JsString(v)
  {
    if IsNullish(v) then "" else if v.Obj? then v.json else JsString(v)
  }

  /** One character of `/^[a-zA-Z0-9 \.,]+$/`. */
  predicate AllowedKeyChar(c: char) {
    ('a' <= c <= 'z') || ('A' <= c <= 'Z') || ('0' <= c <= '9') || c == ' ' || c == '.' || c == ','
  }

  /** `isAlphanumericOrSpecial(key)`, matched one character at a time. */
  function IsAlphanumericOrSpecial(key: string): (r: bool)
    ensures r <==> |key| > 0 && forall i :: 0 <= i < |key| ==> AllowedKeyChar(key[i])
  {
    |key| > 0 && AllowedKeyChar(key[0]) && (|key| == 1 || IsAlphanumericOrSpecial(key[1..]))
  }

  /** A key press that starts editing: one allowed character, no meta or shift, not a JSON or boolean column. */
  predicate StartsEditing(e: KeyEvent, jsonType: bool, booleanType: bool) {
    && |e.key| == 1 && IsAlphanumericOrSpecial(e.key)
    && !(e.metaKey || e.shiftKey)
    && !jsonType && !booleanType
  }

  /** `value = key` when nullish, `value += key` otherwise (string concatenation). */
  function AppendKey(v: Value, key: string): (r: Value)
    ensures r.Str?
    ensures r.s == (if IsNullish(v) then "" else JsString(v)) + key
    ensures |key| > 0 ==> r != v
  {
    if IsNullish(v) then Str(key) else Str(JsString(v) + key)
  }

  /** Typing "b" into a clean cell holding "foo" gives "foob", which makes the cell dirty. */
  lemma TypingIntoCleanCell()
    ensures AppendKey(Str("foo"), "b") == Str("foob")
    ensures AppendKey(Str("foo"), "b") != Str("foo")
  {
  }

  /** The cell menu's values, and any other value a selection event may carry. */
  datatype CellChoice = EditChoice | CopyChoice | PasteChoice | ClearChoice | ResetChoice | OtherChoice

  function CellChoiceOf(value: string): (c: CellChoice)
    ensures c == EditChoice <==> value == "edit"
    ensures c == CopyChoice <==> value == "copy"
    ensures c == PasteChoice <==> value == "paste"
    ensures c == ClearChoice <==> value == "clear"
    ensures c == ResetChoice <==> value == "reset"
  {
    if value == "edit" then EditChoice
    else if value == "copy" then CopyChoice
    else if value == "paste" then PasteChoice
    else if value == "clear" then ClearChoice
    else if value == "reset" then ResetChoice
    else OtherChoice
  }

  /** The effect of a menu choice: the new value, whether editing starts, the clipboard write and the change notification. */
  datatype ActionEffect = ActionEffect(value: Value, isEditing: bool, copied: Option<string>, changed: bool)

  /** `onMenuSelection`, with the text read from the clipboard as `clipboard`. */
  function MenuAction(choice: CellChoice, value: Value, original: Value, isEditing: bool, clipboard: string): (r: ActionEffect)
    ensures r.changed <==> choice in {PasteChoice, ClearChoice, ResetChoice}
    ensures r.copied.Some? <==> choice == CopyChoice
    ensures r.isEditing == (isEditing || choice == EditChoice)
    ensures choice == CopyChoice ==> r.copied == Some(ClipboardText(value))
    ensures choice == PasteChoice ==> r.value == Str(clipboard)
    ensures choice == ClearChoice ==> r.value == Null
    ensures choice == ResetChoice ==> r.value == original
    ensures !r.changed ==> r.value == value
  {
    match choice
    case EditChoice => ActionEffect(value, true, None, false)
    case CopyChoice => ActionEffect(value, isEditing, Some(ClipboardText(value)), false)
    case PasteChoice => ActionEffect(Str(clipboard), isEditing, None, true)
    case ClearChoice => ActionEffect(Null, isEditing, None, true)
    case ResetChoice => ActionEffect(original, isEditing, None, true)
    case OtherChoice => ActionEffect(value, isEditing, None, false)
  }

  /** What the key handler reads of a cell. */
  datatype CellView = CellView(value: Value, isEditing: bool, hasPlugin: bool, jsonType: bool, booleanType: bool, menuOpen: bool)

  /** What the key handler produces: the new value and mode, the focus, whether the default was prevented, a clipboard write. */
  datatype KeyEffect = KeyEffect(value: Value, isEditing: bool, focus: Focus, prevented: bool, copied: Option<string>)

  /** The key handler acts on the event: not from a plugin, menu closed, not a plugin cell's Enter. */
  predicate Handles(c: CellView, e: KeyEvent, fromPlugin: bool) {
    !fromPlugin && !c.menuOpen && !(c.hasPlugin && e.code == "Enter")
  }

  function ArrowOf(code: string): Direction
  {
    if code == "ArrowLeft" then Left else if code == "ArrowRight" then Right
    else if code == "ArrowUp" then Up else Down
  }

  /** A key on a row's check-box: Down, Up and Right move to its neighbours, nothing else happens. */
  function CheckboxKey(value: Value, e: KeyEvent, row: nat, g: Grid): (r: KeyEffect)
    ensures r.value == value && !r.isEditing && r.copied.None?
    ensures r.prevented <==> e.code in {"ArrowDown", "ArrowUp", "ArrowRight"}
    ensures r.focus == if r.prevented then CheckboxArrow(g, row, ArrowOf(e.code)) else CheckboxAt(row)
  {
    if e.code in {"ArrowDown", "ArrowUp", "ArrowRight"} then KeyEffect(value, false, CheckboxArrow(g, row, ArrowOf(e.code)), true, None)
    else KeyEffect(value, false, CheckboxAt(row), false, None)
  }

  /**
   * A key on a cell in view mode: a printable key starts editing and appends
   * itself; the arrows move (Up and Down only when that did not start
   * editing); meta+C copies; Backspace and Delete set the value to undefined.
   */
  function ViewKey(value: Value, e: KeyEvent, jsonType: bool, booleanType: bool, row: nat, slot: nat, g: Grid): (r: KeyEffect)
    ensures r.isEditing == StartsEditing(e, jsonType, booleanType)
    ensures r.isEditing ==>
              && r.prevented && r.copied.None?
              && r.value == if e.code in {"Backspace", "Delete"} then Undefined else AppendKey(value, e.key)
    ensures !r.isEditing && e.code in {"ArrowLeft", "ArrowRight", "ArrowUp", "ArrowDown"} ==>
              r.focus == CellArrow(g, row, slot, ArrowOf(e.code)) && r.prevented && r.value == value && r.copied.None?
    ensures !r.isEditing && e.metaKey && e.code == "KeyC" ==>
              r.copied == Some(ClipboardText(value)) && r.prevented && r.value == value && r.focus == CellAt(row, slot)
    ensures !r.isEditing && e.code in {"Backspace", "Delete"} ==> r.value == Undefined && r.prevented && r.focus == CellAt(row, slot)
    ensures r.focus == CellAt(row, slot) || r.focus == CellArrow(g, row, slot, ArrowOf(e.code))
    ensures r.value == value || r.value == Undefined || r.value == AppendKey(value, e.key)
    ensures r.copied.Some? ==> r.copied.value == ClipboardText(value) && e.metaKey && e.code == "KeyC"
  {
    var typing := StartsEditing(e, jsonType, booleanType);
    var v := if typing then AppendKey(value, e.key) else value;
    var at := CellAt(row, slot);
    if e.code == "ArrowRight" || e.code == "ArrowLeft" then KeyEffect(v, typing, CellArrow(g, row, slot, ArrowOf(e.code)), true, None)
    else if (e.code == "ArrowDown" || e.code == "ArrowUp") && !typing then KeyEffect(v, typing, CellArrow(g, row, slot, ArrowOf(e.code)), true, None)
    else if e.metaKey && e.code == "KeyC" then KeyEffect(v, typing, at, true, Some(ClipboardText(v)))
    else if e.code == "Backspace" || e.code == "Delete" then KeyEffect(Undefined, typing, at, true, None)
    else KeyEffect(v, typing, at, typing || e.code == "ArrowDown" || e.code == "ArrowUp", None)
  }

  /**
   * `onKeyDown` on a cell whose key event targets `at` in grid `g`;
   * `baseEditing` is whether the cell is editing after the base class handler.
   */
  function KeyDown(c: CellView, e: KeyEvent, fromPlugin: bool, at: Focus, g: Grid, baseEditing: bool): (r: KeyEffect)
    ensures r.value != c.value ==> !fromPlugin && !c.menuOpen && !baseEditing && at.CellAt?
    ensures r.copied.Some? ==> e.metaKey && e.code == "KeyC"
  {
    if fromPlugin || c.menuOpen then KeyEffect(c.value, c.isEditing, at, false, None)
    else if c.hasPlugin && e.code == "Enter" then KeyEffect(c.value, c.isEditing, Arrow(g, at, Down), false, None)
    else if baseEditing then KeyEffect(c.value, true, at, false, None)
    else
      match at
      case CheckboxAt(row) => CheckboxKey(c.value, e, row, g)
      case CellAt(row, slot) => ViewKey(c.value, e, c.jsonType, c.booleanType, row, slot, g)
  }

  /** What `onKeyDown` may and may not do, whatever the key. */
  lemma KeyDownEffects(c: CellView, e: KeyEvent, fromPlugin: bool, at: Focus, g: Grid, baseEditing: bool)
    ensures var r := KeyDown(c, e, fromPlugin, at, g, baseEditing);
            && (InGrid(g, at) ==> InGrid(g, r.focus))
            // events from a plugin or while the menu is open are left alone
            && (fromPlugin || c.menuOpen ==> r == KeyEffect(c.value, c.isEditing, at, false, None))
            // a plugin cell's Enter moves to the next row
            && (!fromPlugin && !c.menuOpen && c.hasPlugin && e.code == "Enter" ==>
                  r == KeyEffect(c.value, c.isEditing, Arrow(g, at, Down), false, None))
            // while editing nothing else happens
            && (Handles(c, e, fromPlugin) && baseEditing ==> r == KeyEffect(c.value, true, at, false, None))
            // only a cell (not a check-box) in view mode starts editing
            && (r.isEditing ==>
                  c.isEditing || baseEditing || (Handles(c, e, fromPlugin) && at.CellAt? && StartsEditing(e, c.jsonType, c.booleanType)))
            // the value changes only by typing or deleting, and only in view mode
            && (r.value != c.value ==> Handles(c, e, fromPlugin) && !baseEditing && at.CellAt?)
            && (r.value == c.value || r.value == Undefined || r.value == AppendKey(c.value, e.key))
            && (r.copied.Some? ==> r.copied.value == ClipboardText(c.value) && e.metaKey && e.code == "KeyC")
  {
  }

  /** The `PluginEvent` actions a plugin reports, after lower-casing. */
  datatype PluginAction = OnEdit | OnStopEdit | OnCancelEdit | UpdateCell | OtherAction

  class TableData {
    /** The `outerbase-td-menu` in the cell's shadow root. */
    const menu: Menu
    var value: Value
    const originalValue: Value
    var isEditing: bool
    var readonly: bool
    const blank: bool
    const plugin: Option<ColumnPlugin>
    /** `isInteractive` when the cell was connected: it decides which listeners exist. */
    const isInteractive: bool
    /** `this.type` is one of the JSON types, resp. the boolean types. */
    const jsonType: bool
    const booleanType: bool
    const position: Position
    var options: seq<MenuOption>
    var isDisplayingPluginEditor: bool
    /** Events dispatched by the cell, oldest first. */
    var log: seq<Notification>
    /** Lit recorded a change of `readonly` for the next update. */
    var readonlyChanged: bool

    ghost predicate Valid()
      reads this`readonly, this`readonlyChanged, this`options, menu
    {
      menu.Valid() && (!readonlyChanged ==> options == CellBaseOptions(readonly))
    }

    /** Assumed: the base class's `dirty`. */
    predicate Dirty()
      reads this
    {
      value != originalValue
    }

    /** The menu element is rendered only in display mode. */
    predicate MenuShown()
      reads this
    {
      Mode(isEditing, blank) == MenuDisplay
    }

    /** The option list bound to the menu element. */
    function RenderedOptions(): (r: seq<MenuOption>)
      reads this
      ensures Dirty() <==> |r| == |options| + 1
    {
      CellMenuOptions(options, Dirty(), originalValue)
    }

    function View(): CellView
      reads this, menu
    {
      CellView(value, isEditing, plugin.Some?, jsonType, booleanType, MenuShown() && menu.open)
    }

    constructor (menu: Menu, value: Value, originalValue: Value, position: Position, readonly: bool, blank: bool,
                 plugin: Option<ColumnPlugin>, isInteractive: bool, jsonType: bool, booleanType: bool)
      requires menu.Valid()
      ensures Valid() && this.menu == menu
      ensures this.originalValue == originalValue && this.position == position && this.blank == blank
      ensures this.plugin == plugin && this.isInteractive == isInteractive
      ensures this.jsonType == jsonType && this.booleanType == booleanType
      ensures this.value == value && this.readonly == readonly && !isEditing && !isDisplayingPluginEditor
      ensures options == CellBaseOptions(false) && log == [] && readonlyChanged
    {
      this.menu := menu;
      this.value, this.originalValue, this.position := value, originalValue, position;
      this.readonly, this.blank, this.plugin, this.isInteractive := readonly, blank, plugin, isInteractive;
      this.jsonType, this.booleanType := jsonType, booleanType;
      isEditing, isDisplayingPluginEditor, log := false, false, [];
      options := CellBaseOptions(false);
      readonlyChanged := true;
    }

    method SetReadonly(v: bool)
      requires Valid()
      modifies this`readonly, this`readonlyChanged
      ensures Valid()
      ensures readonly == v && readonlyChanged == (old(readonlyChanged) || v != old(readonly))
    {
      if v != readonly {
        readonly := v;
        readonlyChanged := true;
      }
    }

    /** `willUpdate`: a change of `readonly` rebuilds the base menu. */
    method Update()
      requires Valid()
      modifies this`options, this`readonlyChanged
      ensures Valid() && options == CellBaseOptions(readonly) && !readonlyChanged
    {
      if readonlyChanged {
        options := CellBaseOptions(readonly);
      }
      readonlyChanged := false;
    }

    /** A right click opens the menu, unless it came from a plugin editor or the cell is blank or editing. */
    method OnContextMenu(fromPluginEditor: bool) returns (prevented: bool)
      requires Valid()
      modifies menu
      ensures Valid()
      ensures prevented <==> !fromPluginEditor && MenuShown()
      ensures prevented ==> menu.State() == old(menu.State()).(open := true, openChanged := old(menu.openChanged) || !old(menu.open))
      ensures !prevented ==> menu.State() == old(menu.State())
    {
      prevented := false;
      if fromPluginEditor || blank {
        return;
      }
      if MenuShown() {
        prevented := true;
        menu.SetOpen(true);
      }
    }

    /** A `custom-change` event from the cell's plugin. */
    method OnPluginEvent(action: PluginAction, v: Value)
      requires Valid()
      modifies this`isDisplayingPluginEditor, this`value
      ensures Valid()
      ensures isDisplayingPluginEditor == match action
        case OnEdit => true
        case OnStopEdit => false
        case OnCancelEdit => false
        case _ => old(isDisplayingPluginEditor)
      ensures value == if action == UpdateCell then v else old(value)
    {
      match action
      case OnEdit => isDisplayingPluginEditor := true;
      case OnStopEdit => isDisplayingPluginEditor := false;
      case OnCancelEdit => isDisplayingPluginEditor := false;
      case UpdateCell => value := v;
      case OtherAction =>
    }

    /** The document click listener of an open plugin editor: a click outside the editor hides it. */
    method OnDisplayEditor(insidePluginEditor: bool)
      modifies this`isDisplayingPluginEditor
      ensures isDisplayingPluginEditor == (old(isDisplayingPluginEditor) && insidePluginEditor)
    {
      if !insidePluginEditor {
        isDisplayingPluginEditor := false;
      }
    }

    /** `copyValueToClipboard`: the text written to the clipboard. */
    method CopyValueToClipboard() returns (written: string)
      ensures written == ClipboardText(value)
      ensures value.Str? ==> written == value.s
    {
      if value == Null || value == Undefined {
        written := "";
      } else if value.Obj? {
        written := value.json;
      } else {
        written := JsString(value);
      }
    }

    /** `onMenuSelection`; `clipboard` is the text a paste reads. */
    method OnMenuSelection(choice: string, clipboard: string) returns (copied: Option<string>)
      requires Valid()
      modifies this`value, this`isEditing, this`log
      ensures Valid()
      ensures var r := MenuAction(CellChoiceOf(choice), old(value), originalValue, old(isEditing), clipboard);
              && copied == r.copied && value == r.value && isEditing == r.isEditing
              && log == old(log) + if r.changed then [Changed] else []
    {
      copied := None;
      match CellChoiceOf(choice)
      case EditChoice =>
        isEditing := true;
      case CopyChoice =>
        var text := CopyValueToClipboard();
        copied := Some(text);
      case PasteChoice =>
        value := Str(clipboard);
        log := log + [Changed];
      case ClearChoice =>
        value := Null;
        log := log + [Changed];
      case ResetChoice =>
        value := originalValue;
        log := log + [Changed];
      case OtherChoice =>
    }

    /** `onKeyDown`; see `KeyDown` for the effect and its properties. */
    method OnKeyDown(e: KeyEvent, fromPlugin: bool, at: Focus, g: Grid, baseEditing: bool)
      returns (focus: Focus, prevented: bool, copied: Option<string>)
      modifies this`value, this`isEditing
      ensures KeyEffect(value, isEditing, focus, prevented, copied) == KeyDown(old(View()), e, fromPlugin, at, g, baseEditing)
    {
      focus, prevented, copied := at, false, None;
      if fromPlugin {
        return;
      }
      if MenuShown() && menu.open {
        return;
      }
      if plugin.Some? && e.code == "Enter" {
        focus := Arrow(g, at, Down);
        return;
      }
      isEditing := baseEditing;
      if isEditing {
        return;
      }
      match at
      case CheckboxAt(row) =>
        focus, prevented := CheckboxKeyDown(e, row, g);
      case CellAt(row, slot) =>
        focus, prevented, copied := ViewKeyDown(e, row, slot, g);
    }

    /** The part of `onKeyDown` that runs for a key on a row's check-box. */
    method CheckboxKeyDown(e: KeyEvent, row: nat, g: Grid) returns (focus: Focus, prevented: bool)
      ensures var r := CheckboxKey(value, e, row, g);
              focus == r.focus && prevented == r.prevented
    {
      focus, prevented := CheckboxAt(row), false;
      if e.code == "ArrowDown" || e.code == "ArrowUp" || e.code == "ArrowRight" {
        prevented := true;
        focus := CheckboxArrow(g, row, ArrowOf(e.code));
      }
    }

    /** The part of `onKeyDown` that runs for a cell in view mode. */
    method ViewKeyDown(e: KeyEvent, row: nat, slot: nat, g: Grid) returns (focus: Focus, prevented: bool, copied: Option<string>)
      requires !isEditing
      modifies this`value, this`isEditing
      ensures KeyEffect(value, isEditing, focus, prevented, copied) == ViewKey(old(value), e, jsonType, booleanType, row, slot, g)
    {
      focus, prevented, copied := CellAt(row, slot), false, None;
      if StartsEditing(e, jsonType, booleanType) {
        prevented := true;
        isEditing := true;
        value := AppendKey(value, e.key);
      }
      if e.code == "ArrowRight" {
        prevented := true;
        focus := CellArrow(g, row, slot, Right);
        return;
      } else if e.code == "ArrowLeft" {
        prevented := true;
        focus := CellArrow(g, row, slot, Left);
        return;
      } else if e.code == "ArrowDown" {
        prevented := true;
        if !isEditing {
          focus := CellArrow(g, row, slot, Down);
          return;
        }
      } else if e.code == "ArrowUp" {
        prevented := true;
        if !isEditing {
          focus := CellArrow(g, row, slot, Up);
          return;
        }
      }
      if e.metaKey && e.code == "KeyC" {
        prevented := true;
        var text := CopyValueToClipboard();
        copied := Some(text);
        return;
      }
      if e.code == "Backspace" || e.code == "Delete" {
        prevented := true;
        value := Undefined;
      }
    }

    /**
     * A double click on the cell. The handler is registered only on an interactive cell without a
     * plugin, so on any other cell nothing happens. The handler starts editing unless the cell is
     * already editing or the click came from a plugin; `readonly` is not consulted.
     */
    method OnDoubleClick(fromPlugin: bool)
      requires Valid()
      modifies this`isEditing
      ensures Valid()
      ensures isEditing == (old(isEditing) || (isInteractive && plugin.None? && !fromPlugin))
    {
      if !isInteractive || plugin.Some? {
        return;
      }
      if isEditing {
        return;
      }
      if !fromPlugin {
        isEditing := true;
      }
    }

    /** The display span's paste handler: `value` becomes the pasted text (undefined without one), and nothing is dispatched. */
    method OnPaste(data: Option<string>)
      requires Valid()
      modifies this`value
      ensures Valid()
      ensures value == if MenuShown() then OfOptional(data) else old(value)
    {
      if MenuShown() {
        value := OfOptional(data);
      }
    }
  }

  /** A clean, writable cell: typing "b" into "foo" starts editing with "foob" and makes the cell dirty. */
  method TypeIntoCleanCell(cell: TableData, g: Grid, at: Focus)
    requires cell.Valid() && !cell.isEditing && !cell.blank && !cell.menu.open
    requires cell.plugin.None? && !cell.jsonType && !cell.booleanType && at.CellAt?
    requires cell.value == Str("foo") && cell.originalValue == Str("foo")
    modifies cell
    ensures cell.isEditing && cell.value == Str("foob") && cell.Dirty() && cell.log == old(cell.log)
  {
    var _, _, _ := cell.OnKeyDown(KeyEvent("b", "KeyB", false, false), false, at, g, false);
  }

  /** A reset chosen from the cell menu leaves the cell clean, drops the revert entry from its menu and notifies once. */
  method ResetThroughMenu(cell: TableData, clipboard: string)
    requires cell.Valid()
    modifies cell`value, cell`isEditing, cell`log
    ensures !cell.Dirty() && cell.RenderedOptions() == cell.options
    ensures cell.isEditing == old(cell.isEditing) && cell.log == old(cell.log) + [Changed]
  {
    var _ := cell.OnMenuSelection("reset", clipboard);
  }

  /** Copying a string cell, clearing it and pasting what the copy wrote restores the string, with two notifications. */
  method CopyClearPaste(cell: TableData, s: string)
    requires cell.Valid() && cell.value == Str(s)
    modifies cell`value, cell`isEditing, cell`log
    ensures cell.value == Str(s) && cell.isEditing == old(cell.isEditing)
    ensures cell.log == old(cell.log) + [Changed, Changed]
  {
    var copied := cell.OnMenuSelection("copy", "");
    var _ := cell.OnMenuSelection("clear", "");
    var _ := cell.OnMenuSelection("paste", copied.value);
  }
}
