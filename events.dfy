/**
 * The notifications the grid's elements dispatch. The classes defined in
 * src/lib/events.ts are built on `BubblyEvent`; the others are imported from
 * the same module by the components but defined elsewhere, so they carry only
 * the payload visible where the components construct them.
 */
module Events {
  import opened Wrappers
  import opened JsValues

  /** A cell's place in the grid; `{row: -1, column: -1}` marks the row-selector cell. */
  datatype Position = Position(row: int, column: int)

  const SelectorPosition := Position(-1, -1)

  /** An open record such as `{ action: 'sort:alphabetical:ascending' }`. */
  type Fields = map<string, Value>

  /** The `detail` of a cell update (its type lives in types.ts, outside this model). */
  datatype CellDetail = CellDetail(position: Position, value: Value)

  /** `{ name, data }`; `data` is absent where the call site passes only a name. */
  datatype ColumnAttributes = ColumnAttributes(name: string, data: Option<Fields>)

  /** One row of values, as the table renders it. */
  type Row = seq<Value>

  /** `{ index, row }` */
  datatype RowAttributes = RowAttributes(index: int, row: Row)

  /** A column plugin as registered with a header. */
  datatype ColumnPlugin = ColumnPlugin(tagName: string, displayName: string, config: string, isDefault: bool)

  /** A plugin installed on a column, known by identity; only `isDefaultPlugin` is read. */
  datatype Installation = Installation(ref: nat, isDefaultPlugin: bool)

  /** `{ ...plugin, columnName }` */
  datatype PluginActivation = PluginActivation(plugin: ColumnPlugin, columnName: string)

  /** Identity of the `close` closure a menu hands out when it opens. */
  type CloseHandle = nat

  datatype Notification =
      // classes of events.ts
    | CellUpdate(detail: CellDetail)
    | ColumnAdded(column: ColumnAttributes)
    | ColumnRemoved(column: ColumnAttributes)
    | ColumnUpdated(column: ColumnAttributes)
    | RowSelected(row: RowAttributes)
    | RowAdded(row: RowAttributes)
    | RowRemoved(row: RowAttributes)
    | RowUpdated(row: RowAttributes)
      // imported by the components, defined outside events.ts
    | ColumnRename(column: ColumnAttributes)
    | ColumnHidden(column: ColumnAttributes)
    | ColumnPluginActivated(columnName: string, activation: PluginActivation)
    | ColumnPluginDeactivated(columnName: string, installation: Installation)
    | MenuSelected(value: string)
    | MenuOpen(close: CloseHandle)
    | Check
      // the column resizer's event; the header reads only its `delta`
    | Resize(delta: int)
      // the change notification of the MutableElement base class
    | Changed
      // TableRow's plain `new Event('on-selection')`
    | OnSelection

  /** The options passed to the DOM `Event` constructor. */
  datatype EventInit = EventInit(bubbles: bool, composed: bool)

  /** `BubblyEvent`'s `{ bubbles: true, composed: true }` */
  const Bubbly := EventInit(true, true)

  /** Whether the notification is one of the classes events.ts defines. */
  predicate DefinedInEvents(n: Notification) {
    || n.CellUpdate? || n.ColumnAdded? || n.ColumnRemoved? || n.ColumnUpdated?
    || n.RowSelected? || n.RowAdded? || n.RowRemoved? || n.RowUpdated?
  }

  /** The event's `type`, where the model knows it. */
  function TypeName(n: Notification): Option<string> {
    match n
    case CellUpdate(_) => Some("cell-updated")
    case ColumnAdded(_) => Some("column-added")
    case ColumnRemoved(_) => Some("column-removed")
    case ColumnUpdated(_) => Some("column-updated")
    case RowSelected(_) => Some("row-selected")
    case RowAdded(_) => Some("row-added")
    case RowRemoved(_) => Some("row-removed")
    case RowUpdated(_) => Some("row-updated")
    case OnSelection => Some("on-selection")
    case _ => None
  }

  /** The init options the event was constructed with, where the model knows them. */
  function InitOf(n: Notification): Option<EventInit> {
    if DefinedInEvents(n) then Some(Bubbly)
    else if n.OnSelection? then Some(EventInit(false, false))
    else None
  }

  /** Whether two notifications are instances of the same class. */
  predicate SameClass(a: Notification, b: Notification) {
    || (a.CellUpdate? && b.CellUpdate?)
    || (a.ColumnAdded? && b.ColumnAdded?)
    || (a.ColumnRemoved? && b.ColumnRemoved?)
    || (a.ColumnUpdated? && b.ColumnUpdated?)
    || (a.RowSelected? && b.RowSelected?)
    || (a.RowAdded? && b.RowAdded?)
    || (a.RowRemoved? && b.RowRemoved?)
    || (a.RowUpdated? && b.RowUpdated?)
  }

  // The constructors of events.ts.

  function CellUpdateEvent(detail: CellDetail): (e: Notification)
    ensures TypeName(e) == Some("cell-updated") && InitOf(e) == Some(Bubbly)
    ensures e.detail == detail
  {
    CellUpdate(detail)
  }

  function ColumnAddedEvent(attr: ColumnAttributes): (e: Notification)
    ensures TypeName(e) == Some("column-added") && InitOf(e) == Some(Bubbly)
    ensures e.column.name == attr.name && e.column.data == attr.data
  {
    ColumnAdded(attr)
  }

  function ColumnRemovedEvent(attr: ColumnAttributes): (e: Notification)
    ensures TypeName(e) == Some("column-removed") && InitOf(e) == Some(Bubbly)
    ensures e.column.name == attr.name && e.column.data == attr.data
  {
    ColumnRemoved(attr)
  }

  function ColumnUpdatedEvent(attr: ColumnAttributes): (e: Notification)
    ensures TypeName(e) == Some("column-updated") && InitOf(e) == Some(Bubbly)
    ensures e.column.name == attr.name && e.column.data == attr.data
  {
    ColumnUpdated(attr)
  }

  function RowSelectedEvent(attr: RowAttributes): (e: Notification)
    ensures TypeName(e) == Some("row-selected") && InitOf(e) == Some(Bubbly)
    ensures e.row.index == attr.index && e.row.row == attr.row
  {
    RowSelected(attr)
  }

  function RowAddedEvent(attr: RowAttributes): (e: Notification)
    ensures TypeName(e) == Some("row-added") && InitOf(e) == Some(Bubbly)
    ensures e.row.index == attr.index && e.row.row == attr.row
  {
    RowAdded(attr)
  }

  function RowRemovedEvent(attr: RowAttributes): (e: Notification)
    ensures TypeName(e) == Some("row-removed") && InitOf(e) == Some(Bubbly)
    ensures e.row.index == attr.index && e.row.row == attr.row
  {
    RowRemoved(attr)
  }

  function RowUpdatedEvent(attr: RowAttributes): (e: Notification)
    ensures TypeName(e) == Some("row-updated") && InitOf(e) == Some(Bubbly)
    ensures e.row.index == attr.index && e.row.row == attr.row
  {
    RowUpdated(attr)
  }

  /** Every class of events.ts bubbles and crosses shadow boundaries. */
  lemma EventsAreBubbly(n: Notification)
    requires DefinedInEvents(n)
    ensures InitOf(n) == Some(Bubbly)
    ensures TypeName(n).Some?
  {
  }

  /** Listeners can tell the classes of events.ts apart by their type string alone. */
  lemma TypeNameIdentifiesClass(a: Notification, b: Notification)
    requires DefinedInEvents(a) && DefinedInEvents(b)
    ensures TypeName(a) == TypeName(b) <==> SameClass(a, b)
  {
  }
}
