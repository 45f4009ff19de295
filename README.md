# Starboard grid interaction model

A Dafny model of the interactive core of the Starboard data grid, a set of
Lit web components. The model covers:

- the hierarchical popup menu (`Menu`) shared by cells and column headers;
- the table cell (`outerbase-td`) and its menu, keyboard and paste handling;
- the column header (`outerbase-th`) with its option lists, menu dispatch,
  click-to-sort and resizing;
- the table (`outerbase-table`) deriving `columns`, `rows` and cell positions
  from its data;
- the row, check-box and add-column widgets;
- the event vocabulary they dispatch.

Each element is a class with the fields its handlers update. Every event an
element dispatches is appended to its `log`. That makes "exactly one event",
"no event" and "nothing else changes" expressible.

Lit's change record between two renders is explicit: the flags
`openChanged`, `optionsChanged`, `readonlyChanged`, `pluginsChanged`,
`dataChanged`, `sourceIdChanged` and `selectedChanged`, plus the previous
value where the source reads it. Each element's `Update` method is its
`willUpdate` (and, for the menu, `updated`) hook run over that record.

Assumptions about code that is not part of this model:

- The `MutableElement` base class of cells and headers is not part of this
  model.
- A cell or header is assumed dirty exactly when `value` differs from
  `originalValue`, both read through the element's getters. For a header
  these are the `?.toString()` texts, so a header reset with a nullish
  original sets `value` to '' and leaves the header dirty.
- The base class's key handler is a parameter: whether the cell is editing
  after it ran.
- Its next/previous-row focus moves go to the same slot of the adjacent row
  of a row × column matrix (`GridNav`).
- The base change notification is a payload-free `Changed` event.
- Whether an event target is a plugin or a plugin editor is a boolean
  parameter.
- The `outerbase-td-menu` and `outerbase-th-menu` elements are plain `Menu`s.
- The clipboard text a paste reads is a parameter. The text a copy writes is
  a result.
- A thrown `Error` is an `Outcome.Threw(message)` (or `Result.Raised`), and
  the element state stays as the source leaves it at the throw.

JavaScript values are a datatype: null, undefined, string, integral number,
boolean, or an object known by its identity together with its
`JSON.stringify` and `String` texts.

## Source quirks modelled as written

- `Cells.RevertLabel`: `typeof null === 'object'`, so a null original value
  gets the plain "Revert" label. The test choosing between the original value
  and "NULL" is `!== null || !== undefined`, which always holds.
- `Headers.SelectionOutcomes`: `uninstall-column-plugin` also falls through
  to a `column-updated` event carrying that action.
- `Menus.EnterOnSubmenuOptionKeepsRoot`: closing with Enter on a focused
  option that has sub-options drills down. The close handling in the same
  update then restores the root level, so nothing is selected.
- `Tables.SelectorHeaderAlsoLast`: the selector header's `is-last` is
  `0 < columns.length`. With any column, two headers are flagged last.
- `Tables.Table.Update`: `columns` and `rows` are assigned before the
  `sourceId` guard throws.

Where the prose description of the system and the code disagree, the model
follows the code:

- The description says editing starts only when the cell is writable. The
  cell's double-click handler (`Cells.TableData.OnDoubleClick`) and the
  menu's `edit` action do not consult `readonly`.
- The description says a paste fires a cell update. The paste handler of the
  display span (`Cells.TableData.OnPaste`) only assigns `value` and
  dispatches nothing. A paste chosen from the menu dispatches the base
  change notification.
- The description says the revert entry always reads "Revert to
  <original>". For object and null originals the label is the plain
  "Revert" (see above).
- The description navigates by DOM siblings. Here the grid is an explicit
  matrix with no wrap-around (`GridNav`).
- The cell's key handler moves focus between `check-box`es slotted into
  `blank` first cells (`GridNav.CheckboxArrow`, `Cells.CheckboxKey`). The
  table element does not render that layout. Its selector cell is a plain,
  non-blank cell at `{-1,-1}` holding `false`, with no check-box
  (`Tables.SelectorIffRemovable`). The check-box paths apply to grids a
  consumer composes with slotted check-boxes. `GridNav.Grid` is not derived
  from `Tables.BodyRows`.

## Model

| member | source | states |
|---|---|---|
| `JsValues.NumberString` | src/components/table/td.ts:147 | `toString()` of an integer: non-empty, a leading `-` exactly for negatives, decimal digits after it |
| `JsValues.NumberStringValue` | src/components/table/td.ts:147 | the text of an integer is a numeral that reads back as that integer, with no leading zero unless it is "0" and no "-0" |
| `JsValues.NumberStringInjective` | src/components/table/td.ts:147 | distinct integers copy to distinct texts |
| `JsValues.OptionalText` | src/components/table/th.ts:91-101 | `v?.toString()` is absent exactly for null and undefined, else the value's string form |
| `Events.CellUpdateEvent` | src/lib/events.ts:11-18 | type `cell-updated`, bubbling and composed, carrying its detail unchanged |
| `Events.ColumnAddedEvent` | src/lib/events.ts:21-36 | type `column-added`, bubbling and composed, `name` and `data` stored unchanged |
| `Events.ColumnRemovedEvent` | src/lib/events.ts:38-42 | type `column-removed`, bubbling and composed, `name` and `data` stored unchanged |
| `Events.ColumnUpdatedEvent` | src/lib/events.ts:44-48 | type `column-updated`, bubbling and composed, `name` and `data` stored unchanged |
| `Events.RowSelectedEvent` | src/lib/events.ts:51-66 | type `row-selected`, bubbling and composed, `index` and `row` stored unchanged |
| `Events.RowAddedEvent` | src/lib/events.ts:68-72 | type `row-added`, bubbling and composed, `index` and `row` stored unchanged |
| `Events.RowRemovedEvent` | src/lib/events.ts:74-78 | type `row-removed`, bubbling and composed, `index` and `row` stored unchanged |
| `Events.RowUpdatedEvent` | src/lib/events.ts:80-84 | type `row-updated`, bubbling and composed, `index` and `row` stored unchanged |
| `Events.EventsAreBubbly` | src/lib/events.ts:4-8 | every event class of the module is constructed with `bubbles` and `composed` and has a type string |
| `Events.TypeNameIdentifiesClass` | src/lib/events.ts:11-84 | two events of the module have the same type string exactly when they are of the same class |
| `Menus.IndexOfValue` | src/components/menu/index.ts:163 | `findIndex`: the first index holding the value, or -1 exactly when no option holds it |
| `Menus.FindOption` | src/components/menu/index.ts:132 | `find`: absent exactly when no option has the value, otherwise an option of the level with that value |
| `Menus.IndexOfDistinct` | src/components/menu/index.ts:163 | on a level with distinct values, looking up the value at index i finds i |
| `Menus.FocusForward` | src/components/menu/index.ts:159-166 | ArrowDown: nothing focused gives the first option; index i < n-1 gives i+1; the last wraps to the first; an absent value stays; an absent value on an empty level throws, and only that throws |
| `Menus.FocusBackward` | src/components/menu/index.ts:167-174 | ArrowUp: nothing focused gives the last option; index i > 0 gives i-1; the first wraps to the last; an absent value stays |
| `Menus.PressesRepeat` | src/components/menu/index.ts:159-174 | once press n+1 equals press 1, the focus repeats with period n |
| `Menus.ForwardFirstCycle` | src/components/menu/index.ts:159-166 | from nothing focused, ArrowDown press k focuses option k-1, for k up to the number of options |
| `Menus.ForwardFromLast` | src/components/menu/index.ts:165 | ArrowDown on the last option focuses the first |
| `Menus.ForwardFirstPress` | src/components/menu/index.ts:161 | the first ArrowDown from nothing focused focuses the first option |
| `Menus.ForwardWrapStep` | src/components/menu/index.ts:159-166 | ArrowDown press N+1 on N options equals press 1 |
| `Menus.ForwardPeriodic` | src/components/menu/index.ts:159-166 | N further ArrowDown presses on N options return to the same option |
| `Menus.ArrowDownReturnsToFirst` | src/components/menu/index.ts:159-166 | N+1 ArrowDown presses on N options focus the first option |
| `Menus.BackwardFirstCycle` | src/components/menu/index.ts:167-174 | from nothing focused, ArrowUp press k focuses the k-th option from the end |
| `Menus.BackwardWrapStep` | src/components/menu/index.ts:167-174 | ArrowUp press N+1 on N options equals press 1 |
| `Menus.BackwardPeriodic` | src/components/menu/index.ts:167-174 | N further ArrowUp presses on N options return to the same option |
| `Menus.FocusStaysOnOptions` | src/components/menu/index.ts:159-174 | from nothing or an option of the level, both arrows focus an option of the level, and are absent only on an empty level; ArrowDown does not throw there |
| `Menus.RecoverDataValue` | src/components/menu/index.ts:121-124 | the parent walk stops at the first element with a `data-value`, or at the outermost element |
| `Menus.HolderUnique` | src/components/menu/index.ts:121-124 | the element the walk stops at is unique |
| `Menus.AfterSelection` | src/components/menu/index.ts:131-146 | a value with sub-options pushes the level onto the history and shows the sub-level, with no selection and no event; any other value becomes the selection with exactly one selection event; `open` and `focused` are kept |
| `Menus.Menu.constructor` | src/components/menu/index.ts:22-45 | closed, no selection, empty levels and history, nothing focused, no listener; `open` and `options` recorded as changed |
| `Menus.Menu.SetOpen` | src/components/menu/index.ts:22-23 | `open` is set; the change is recorded when the value differs; nothing else changes |
| `Menus.Menu.Close` | src/components/menu/index.ts:60 | the close closure sets `open` false and nothing else |
| `Menus.Menu.SetOptions` | src/components/menu/index.ts:29-30 | `options` is set and recorded as changed; nothing else changes |
| `Menus.Menu.Update` | src/components/menu/index.ts:62-107 | opening registers the listener and emits one open event carrying the close closure; closing restores the root level, empties the history, unregisters the listener and clears the focus; a change of `options` shows that level; afterwards the listener is registered exactly while open |
| `Menus.Menu.OnTrigger` | src/components/menu/index.ts:109-112 | toggles `open` and records the triggering event; nothing else changes |
| `Menus.Menu.OnDocumentClick` | src/components/menu/index.ts:68-74 | a click other than the recorded one closes the menu and unregisters the listener; the recorded click, or no listener, changes nothing |
| `Menus.Menu.OnSelection` | src/components/menu/index.ts:131-146 | the new state is `AfterSelection` of the old; the event is stopped exactly when it drills down |
| `Menus.Menu.OnItemClick` | src/components/menu/index.ts:114-129 | selects the `data-value` found by the parent walk; an absent or empty value throws and changes nothing |
| `Menus.Menu.ToggleByKey` | src/components/menu/index.ts:153-158 | toggles `open`; when that closes the menu with a value focused, that value is selected |
| `Menus.Menu.OnKeyDown` | src/components/menu/index.ts:148-179 | Escape closes; Enter and Space toggle and select as above; the arrows move the focus as `FocusForward`/`FocusBackward`; Tab is prevented exactly while open; other keys change nothing |
| `Menus.EnterOnSubmenuOptionKeepsRoot` | src/components/menu/index.ts:80-158 | Enter on a focused option with sub-options, then the update, leaves the menu closed on its root level with nothing selected and no event |
| `Menus.OpenThenClickOutside` | src/components/menu/index.ts:62-112 | the opening click is ignored by the listener; a later outside click closes the menu and removes the listener; one open event is emitted |
| `GridNav.CellArrow` | src/components/table/td.ts:216-240 | Right: next sibling, none past the last; Left: previous sibling, or its check-box, none before the first; Up/Down: same slot of the adjacent row, none past the edges; focus stays in the grid |
| `GridNav.CheckboxArrow` | src/components/table/td.ts:176-190 | on a check-box, Up/Down focus the adjacent row's check-box, Right the cell after the selector, Left nothing; focus stays in the grid |
| `GridNav.ArrowStaysInGrid` | src/components/table/td.ts:176-240 | no arrow key moves focus out of the grid |
| `GridNav.LeftUndoesRight` | src/components/table/td.ts:218-227 | Left after Right returns to the cell, or to the row's check-box when Right left the selector cell |
| `GridNav.CheckboxRightThenLeft` | src/components/table/td.ts:185-188 | from a check-box, Right then Left returns to it |
| `GridNav.UpUndoesDown` | src/components/table/td.ts:228-239 | Up after Down returns to the same cell or check-box, away from the last row |
| `GridNav.RepeatRight` | src/components/table/td.ts:218-221 | k Right presses stop at the last cell of the row |
| `GridNav.RepeatDown` | src/components/table/td.ts:228-233 | k Down presses stop at the last row, in the same column |
| `Cells.CellBaseOptions` | src/components/table/td.ts:321-331 | exactly [copy] when read-only, otherwise [edit, copy, paste, clear] in that order, all plain leaves |
| `Cells.RevertLabel` | src/components/table/td.ts:389-398 | plain "Revert" exactly for object and null originals, otherwise "Revert to" showing the original |
| `Cells.CellMenuOptions` | src/components/table/td.ts:386-402 | the base options followed by exactly one `reset` entry when dirty, exactly the base options otherwise |
| `Cells.ResetOfferedIffDirty` | src/components/table/td.ts:386-402 | the rendered cell menu offers `reset` exactly when the cell is dirty |
| `Cells.Mode` | src/components/table/td.ts:436 | exactly one of editing, blank slot or display, with editing first |
| `Cells.ClipboardText` | src/components/table/td.ts:144-148 | null and undefined copy as "", an object as its JSON text, anything else as its string form |
| `Cells.IsAlphanumericOrSpecial` | src/components/table/td.ts:18-21 | true exactly for non-empty keys of letters, digits, space, period and comma |
| `Cells.AppendKey` | src/components/table/td.ts:205-206 | the key replaces a null or undefined value, else is appended to its string form; a non-empty key always changes the value |
| `Cells.TypingIntoCleanCell` | src/components/table/td.ts:198-206 | typing "b" into "foo" gives "foob", which differs from the original |
| `Cells.CellChoiceOf` | src/components/table/td.ts:119-137 | each menu value is told apart exactly |
| `Cells.MenuAction` | src/components/table/td.ts:119-138 | paste, clear and reset each notify once and set the clipboard text, null and the original; edit only starts editing; copy writes the clipboard text and changes nothing |
| `Cells.CheckboxKey` | src/components/table/td.ts:176-190 | on a check-box only Down, Up and Right act (prevented, focus moved); the value and mode never change |
| `Cells.ViewKey` | src/components/table/td.ts:192-252 | a printable key starts editing and appends itself; arrows move focus (Up/Down only when not typing); meta+C copies; Backspace/Delete set undefined; the value is otherwise kept |
| `Cells.KeyDown` | src/components/table/td.ts:150-253 | `onKeyDown` on a cell: the value changes only for a cell in view mode, outside plugins, an open menu and editing; a clipboard write only for meta+C (`KeyDownEffects` gives every branch) |
| `Cells.KeyDownEffects` | src/components/table/td.ts:150-253 | events from plugins or with the menu open are ignored; a plugin cell's Enter moves down; nothing happens while editing; only a printable key on a cell in view mode starts editing; the value changes only there, by typing or deleting; focus stays in the grid |
| `Cells.TableData.RenderedOptions` | src/components/table/td.ts:386-402 | one entry more than the base options exactly when dirty |
| `Cells.TableData.constructor` | src/components/table/td.ts:78-84 | a new cell holds its values, its plugin and its `isInteractive` flag, is not editing, has the writable menu and records `readonly` as changed |
| `Cells.TableData.SetReadonly` | src/components/table/td.ts:321-322 | `readonly` set, its change recorded when it differs |
| `Cells.TableData.Update` | src/components/table/td.ts:318-332 | after the update the base menu matches `readonly` |
| `Cells.TableData.OnContextMenu` | src/components/table/td.ts:89-101 | opens the menu and prevents the default exactly when not from a plugin editor and the menu is rendered (not blank, not editing); otherwise nothing changes |
| `Cells.TableData.OnPluginEvent` | src/components/table/td.ts:103-117 | edit shows the plugin editor, stop or cancel hide it, an update sets the value; nothing else changes |
| `Cells.TableData.OnDisplayEditor` | src/components/table/td.ts:308-316 | a click outside the plugin editor hides it; one inside keeps it |
| `Cells.TableData.CopyValueToClipboard` | src/components/table/td.ts:144-148 | writes the clipboard text of the value; a string is written as itself |
| `Cells.TableData.OnMenuSelection` | src/components/table/td.ts:119-138 | value, editing, clipboard write and change notification are those of `MenuAction` |
| `Cells.TableData.OnKeyDown` | src/components/table/td.ts:150-253 | value, editing, focus, prevention and clipboard write are those of `KeyDown` on the cell before the key |
| `Cells.TableData.CheckboxKeyDown` | src/components/table/td.ts:176-190 | focus and prevention are those of `CheckboxKey` |
| `Cells.TableData.ViewKeyDown` | src/components/table/td.ts:192-252 | value, editing, focus, prevention and clipboard write are those of `ViewKey` |
| `Cells.TableData.OnDoubleClick` | src/components/table/td.ts:263-291 | on an interactive cell without a plugin, starts editing unless already editing or the click came from a plugin; on any other cell nothing changes; `readonly` is not consulted |
| `Cells.TableData.OnPaste` | src/components/table/td.ts:412-415 | on a displayed cell the value becomes the pasted text, undefined without one; nothing is dispatched |
| `Cells.TypeIntoCleanCell` | src/components/table/td.ts:192-206 | typing "b" into a clean "foo" cell starts editing with "foob", makes it dirty and dispatches nothing |
| `Cells.ResetThroughMenu` | src/components/table/td.ts:133-136 | a reset chosen from the menu leaves the cell clean, its menu without the revert entry, the editing mode unchanged, and notifies once |
| `Cells.CopyClearPaste` | src/components/table/td.ts:119-148 | copying a string cell, clearing it and pasting what the copy wrote restores the string, with two notifications |
| `Headers.HeaderOptions` | src/components/table/th.ts:265-311 | read-only: [sort asc, sort desc, hide, delete]; writable: the same with `rename` before `delete`; delete is red |
| `Headers.ReadonlyDropsRename` | src/components/table/th.ts:265-311 | the read-only list is the writable one with `rename` (index 3) removed |
| `Headers.NonDefault` | src/components/table/th.ts:253 | keeps exactly the non-default plugins of the list |
| `Headers.NonDefaultAppend` | src/components/table/th.ts:253 | the filter keeps order: an appended plugin lands last when kept |
| `Headers.PluginEntries` | src/components/table/th.ts:254-258 | one option per plugin, label `displayName`, value `tagName`, in order |
| `Headers.PluginOptions` | src/components/table/th.ts:252-259 | no plugins give no options; otherwise the entries of the non-default plugins |
| `Headers.PluginOfferedIffNotDefault` | src/components/table/th.ts:252-259 | a non-default plugin is offered; a tag name only default plugins carry is not |
| `Headers.InsertAt` | src/components/table/th.ts:327-342 | `splice(at, 0, x)`: one more entry, `x` at the index (clamped to the end), the rest kept in order |
| `Headers.RemoveInserted` | src/components/table/th.ts:327-342 | removing the spliced entry gives back the list |
| `Headers.HeaderMenu` | src/components/table/th.ts:314-342 | the options, with the revert entry appended when dirty, and the plugin entry spliced at index 2 exactly when there are plugin options |
| `Headers.HeaderMenuLayout` | src/components/table/th.ts:317-342 | the length counts the revert and plugin entries; with plugins the third entry is remove-plugin or the plugins submenu and the first two are kept; dirty lists end with the revert entry |
| `Headers.InsertedMembers` | src/components/table/th.ts:328-341 | the spliced list holds exactly the list's entries and the inserted one |
| `Headers.NoResetInHeaderOptions` | src/components/table/th.ts:265-311 | neither base list contains `reset` |
| `Headers.HeaderResetIffDirty` | src/components/table/th.ts:317-342 | the rendered header menu offers `reset` exactly when the header is dirty |
| `Headers.FindPlugin` | src/components/table/th.ts:155 | `find` by tag name: absent exactly when no plugin has it, otherwise the first that does |
| `Headers.ChoiceOf` | src/components/table/th.ts:155-189 | a plugin tag name takes precedence; otherwise each fixed value is told apart exactly |
| `Headers.SelectionEffect` | src/components/table/th.ts:148-199 | `onMenuSelection` for a choice: only uninstall, hide and delete can raise; only rename starts editing; only reset sets a new value (`SelectionOutcomes` gives every case) |
| `Headers.ColumnName` | src/components/table/th.ts:152 | the original name, else the value, else "" |
| `Headers.SelectionOutcomes` | src/components/table/th.ts:148-199 | raises exactly for uninstall with no installed plugin and hide/delete without an original name; a plugin emits one activation only; uninstall emits deactivation then `column-updated`; hide/delete one event named by the original; rename only edits; reset renames and sets the value; others emit one `column-updated` with the action |
| `Headers.EventsPerChoice` | src/components/table/th.ts:148-199 | a choice that does not raise emits two events for uninstall, none for rename, one otherwise |
| `Headers.MenuSortPassesThrough` | src/components/table/th.ts:186-198 | a sort chosen from the menu reaches the table as one `column-updated` carrying that action |
| `Headers.SortClick` | src/components/table/th.ts:210-228 | one sort-ascending `column-updated` exactly when not on the trigger or resizer and the name is non-empty |
| `Headers.ChangedEvent` | src/components/table/th.ts:117-126 | no notification when the original is not a string, otherwise one rename from the original with the new name |
| `Headers.TH.constructor` | src/components/table/th.ts:46-89 | read-only by default with the writable list until the first update, no plugin options, no width; `readonly` and `plugins` recorded as changed |
| `Headers.TH.SetValue` | src/components/table/th.ts:94-98 | the getter reads the assigned string back |
| `Headers.TH.SetReadonly` | src/components/table/th.ts:265 | `readonly` set, its change recorded when it differs |
| `Headers.TH.SetPlugins` | src/components/table/th.ts:54-55 | `plugins` set and recorded as changed |
| `Headers.TH.Update` | src/components/table/th.ts:249-312 | after the update the base list matches `readonly` and the plugin options match `plugins` |
| `Headers.TH.DispatchChangedEvent` | src/components/table/th.ts:117-126 | appends exactly the events of `ChangedEvent` |
| `Headers.TH.RemoveColumn` | src/components/table/th.ts:128-136 | throws exactly without an original name and emits nothing then; otherwise emits one removal named by the original |
| `Headers.TH.HideColumn` | src/components/table/th.ts:138-146 | throws exactly without an original name and emits nothing then; otherwise emits one hidden event named by the original |
| `Headers.TH.OnMenuSelection` | src/components/table/th.ts:148-199 | outcome, events, editing and value are those of `SelectionEffect` for the choice |
| `Headers.TH.OnClick` | src/components/table/th.ts:210-228 | appends exactly the event of `SortClick` |
| `Headers.TH.OnContextMenu` | src/components/table/th.ts:201-208 | opens the menu and prevents the default exactly when the menu is rendered; otherwise nothing changes |
| `Headers.TH.OnResizeStart` | src/components/table/th.ts:376-380 | remembers the width, 0 without one |
| `Headers.TH.OnResize` | src/components/table/th.ts:381-383 | the width is the remembered width plus the delta |
| `Headers.ResetRestoresOriginal` | src/components/table/th.ts:178-185 | on a header whose plugins carry no "reset" tag, a reset emits one rename with the previous value, sets `value` to the original text (or ''), keeps editing unchanged, and leaves the header clean exactly when the original is not nullish |
| `Headers.DragTwice` | src/components/table/th.ts:376-383 | deltas are measured from the drag start, so only the last counts |
| `Tables.KeysOf` | src/components/table/index.ts:77 | `Object.keys`: the property names in order |
| `Tables.ValuesOf` | src/components/table/index.ts:78 | `Object.values`: the property values in order |
| `Tables.KeysAndValuesAlign` | src/components/table/index.ts:77-78 | key c and value c of a row are the same property |
| `Tables.RowsOf` | src/components/table/index.ts:78 | row i holds the values of data row i |
| `Tables.HeaderRow` | src/components/table/index.ts:120-143 | the "Delete" selector header when rows are removable, then one header per column, flagged last at the last column |
| `Tables.OnlyLastColumnIsLast` | src/components/table/index.ts:140 | among the column headers exactly the last is flagged last |
| `Tables.SelectorHeaderAlsoLast` | src/components/table/index.ts:127 | with any column the selector header is also flagged last |
| `Tables.RowCells` | src/components/table/index.ts:152-177 | the selector cell when removable, then one cell per value at `{row, column}`, with a right border at the last column or without resizers |
| `Tables.BodyRows` | src/components/table/index.ts:149-178 | one row of cells per row of values |
| `Tables.DataCellPositions` | src/components/table/index.ts:164-176 | the data cell at row r, column c has position `{r, c}` and shows value c of row r |
| `Tables.SelectorIffRemovable` | src/components/table/index.ts:153-162 | every row has a selector cell exactly when rows are removable; it is first, at `{-1,-1}`, holding false |
| `Tables.Table.constructor` | src/components/table/index.ts:24-69 | no data, columns, rows, source, token or fetches; resizers off |
| `Tables.Table.SetData` | src/components/table/index.ts:49-50 | `data` set and recorded as changed |
| `Tables.Table.SetSourceId` | src/components/table/index.ts:59-60 | `sourceId` set; the change and the value before it recorded on the first change |
| `Tables.Table.SetAuthToken` | src/components/table/index.ts:62-63 | `authToken` set |
| `Tables.Table.EnableResizer` | src/components/table/index.ts:36 | the deferred callback turns the resizers on |
| `Tables.Table.Update` | src/components/table/index.ts:71-95 | new data with rows replaces columns (first row's keys) and rows (each row's values), otherwise both stay; a `sourceId` change without a token throws before any fetch; a fetch starts exactly for a non-empty id differing from the previous one |
| `Tables.Table.OnFetched` | src/components/table/index.ts:90-92 | the fetched rows become the data |
| `Tables.RowsReachTheirCells` | src/components/table/index.ts:75-176 | after new data, the value of property c of row r is rendered at position `{r, c}` |
| `TableRows.BackgroundOf` | src/components/table/tr.ts:9-28 | the new background exactly when new and unselected, stripes exactly when not new, not a header and unselected, selected exactly when selected and not a header |
| `TableRows.BackgroundsExclusive` | src/components/table/tr.ts:18-26 | at most one of the three backgrounds applies |
| `TableRows.HeaderRowsUnstriped` | src/components/table/tr.ts:21-26 | header rows are never striped or highlighted as selected |
| `TableRows.TableRow.constructor` | src/components/table/tr.ts:30-37 | unselected, not new, no events; the initial assignment recorded with no previous value |
| `TableRows.TableRow.SetSelected` | src/components/table/tr.ts:30-31 | `selected` set; the change and the value before it recorded on the first change |
| `TableRows.TableRow.Update` | src/components/table/tr.ts:39-45 | one selection notification exactly when `selected` changed from a defined value |
| `TableRows.FirstUpdateIsSilent` | src/components/table/tr.ts:30-45 | the first update announces nothing; selecting afterwards announces once |
| `Checkboxes.CustomCheckbox.constructor` | src/components/check-box.ts:19 | starts unchecked |
| `Checkboxes.CustomCheckbox.Toggle` | src/components/check-box.ts:22-26 | negates `checked`, emits one check event, prevents the default |
| `Checkboxes.CustomCheckbox.OnKeyDown` | src/components/check-box.ts:29-34 | Enter and Space toggle; any other key changes nothing and emits nothing |
| `Checkboxes.ToggleTwice` | src/components/check-box.ts:22-26 | two toggles restore `checked` and emit two check events |
| `AddColumn.AddColumnElement.constructor` | src/components/widgets/add-column.ts:37-41 | empty name, no warning, no events |
| `AddColumn.AddColumnElement.OnChange` | src/components/widgets/add-column.ts:43-46 | the name becomes the input's value |
| `AddColumn.AddColumnElement.OnSubmit` | src/components/widgets/add-column.ts:48-60 | the warning is shown on every submit; an empty name throws and emits nothing; otherwise one `column-added` with the name |
| `AddColumn.TypeAndSubmit` | src/components/widgets/add-column.ts:43-60 | typing a non-empty name and submitting emits exactly one `column-added` with it |

## Left out

- Lit templating and styling: `html`, `classMap`, `repeat`, the plugin markup built with `unsafeHTML`, and every class string except the row's background choice.
- DOM focus and caret calls (`focus()`, `setSelectionRange`) and the `setTimeout` deferrals are left out. The focus target of the cell keyboard handler is a grid position, and the resizer callback is the `EnableResizer` step.
- Cell click (`onClick`) and the display span's keydown guard are left out: they only move DOM focus and prevent defaults inside the editable span.
- The plugin editor's document listener is left out; only its callback (`OnDisplayEditor`) is modelled.
- The registration and removal of element listeners in `connectedCallback`/`disconnectedCallback` are left out as calls. Their one condition is modelled: the double-click handler exists only on an interactive cell without a plugin, which `Cells.TableData.OnDoubleClick` checks through the `isInteractive` and `plugin` fields. The click handler is left out, as noted above.
- `navigator.clipboard` is a parameter (the pasted text) and a result (the copied text). The asynchronous `await` is not modelled.
- `JSON.stringify` and `String` of an object are fixed texts carried by the object value.
- Numbers are integers; no floating point. Header widths are integer pixels instead of `px` strings, so the `+width.slice(0, -2)` parsing is not modelled.
- The `dbRowsForSource` fetch is left out: a started fetch is recorded in `fetches`, and its result is delivered through `OnFetched`.
- `ResizeObserver`/`heightOfElement` and `document.body.classList` are left out as browser plumbing.
- The `mutable-element.js` base class is not part of this model. Its `dirty`, key handler, row moves and change notification are the assumptions stated above.
- `cell-menu.js`, `column-menu.js` and `event-target-is-plugin.js` are not part of this model; the menus are plain `Menu`s and the plugin tests are parameters.
- The event classes the components import from elsewhere carry only the payload visible where they are constructed.
- The global one-menu-open coordinator that consumes the open event is not part of this model.
- The header's `width` property styling in `firstUpdated`/`willUpdate` is left out; only the stored width is modelled.
- Element attributes that only configure rendering (theme, borders, `withResizer`, `tableHeight`, `schema`) are left out.
- A data row is its list of properties in enumeration order; the object itself is not modelled.
- Tables.Table.SetData and Headers.TH.SetPlugins record a change on every assignment, while Lit skips re-assigning the same reference. References are not modelled; the update then recomputes the same columns, rows and plugin options, so nothing observable differs.
