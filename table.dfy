/**
 * The table (`outerbase-table`): `columns` and `rows` derived from the
 * `data` rows, the `sourceId` guard before a fetch, and the cells `render`
 * lays out, with their positions and border and last-column flags.
 *
 * A data row is an object; it is modelled as its entries in JavaScript's
 * enumeration order, which `Object.keys` and `Object.values` share.
 */
module Tables {
  import opened Wrappers
  import opened JsValues
  import opened Events

  /** One `data.rows` entry: its properties in enumeration order. */
  type DataRow = seq<(string, Value)>

  /** `Queryd`: only `rows` is read, and it may be absent. */
  datatype Queryd = Queryd(rows: Option<seq<DataRow>>)

  const MissingTokenMessage := "Unable to fetch data without `auth-token`"

  /** `Object.keys(row)` */
  function KeysOf(row: DataRow): (r: seq<string>)
    ensures |r| == |row|
    ensures forall i :: 0 <= i < |row| ==> r[i] == row[i].0
  {
    if row == [] then [] else [row[0].0] + KeysOf(row[1..])
  }

  /** `Object.values(row)` */
  function ValuesOf(row: DataRow): (r: Row)
    ensures |r| == |row|
    ensures forall i :: 0 <= i < |row| ==> r[i] == row[i].1
  {
    if row == [] then [] else [row[0].1] + ValuesOf(row[1..])
  }

  /** Keys and values line up: value `c` of a row is the property named by key `c`. */
  lemma KeysAndValuesAlign(row: DataRow)
    ensures |KeysOf(row)| == |ValuesOf(row)|
    ensures forall c :: 0 <= c < |row| ==> (KeysOf(row)[c], ValuesOf(row)[c]) == row[c]
  {
  }

  /** `data.rows.map((row) => Object.values(row))` */
  function RowsOf(rows: seq<DataRow>): (r: seq<Row>)
    ensures |r| == |rows|
    ensures forall i :: 0 <= i < |rows| ==> r[i] == ValuesOf(rows[i])
  {
    seq(|rows|, i requires 0 <= i < |rows| => ValuesOf(rows[i]))
  }

  /** Whether `data && data.rows?.length > 0`. */
  predicate HasRows(data: Option<Queryd>) {
    data.Some? && data.value.rows.Some? && |data.value.rows.value| > 0
  }

  /** A fetch `dbRowsForSource(sourceId, authToken)` that was started. */
  datatype Fetch = Fetch(sourceId: string, authToken: string)

  /** A header cell as `render` lays it out. */
  datatype HeaderCell = HeaderCell(text: string, isLast: bool, withResizer: bool)

  /** The header row: the "Delete" selector header when rows are removable, then one header per column. */
  function HeaderRow(columns: seq<string>, removableRows: bool, resizerEnabled: bool): (r: seq<HeaderCell>)
    ensures |r| == |columns| + (if removableRows then 1 else 0)
    ensures removableRows ==> r[0] == HeaderCell("Delete", 0 < |columns|, resizerEnabled)
    ensures var off := if removableRows then 1 else 0;
            forall c :: 0 <= c < |columns| ==>
              r[c + off] == HeaderCell(columns[c], c == |columns| - 1, resizerEnabled)
  {
    var headers := seq(|columns|, c requires 0 <= c < |columns| =>
                         HeaderCell(columns[c], c == |columns| - 1, resizerEnabled));
    if removableRows then [HeaderCell("Delete", 0 < |columns|, resizerEnabled)] + headers else headers
  }

  /** Among the column headers, exactly the last one is flagged last. */
  lemma OnlyLastColumnIsLast(columns: seq<string>, removableRows: bool, resizerEnabled: bool, c: nat)
    requires c < |columns|
    ensures var off := if removableRows then 1 else 0;
            HeaderRow(columns, removableRows, resizerEnabled)[c + off].isLast <==> c == |columns| - 1
  {
  }

  /** The selector header is flagged last whenever there is any column, so two headers then carry the flag. */
  lemma SelectorHeaderAlsoLast(columns: seq<string>, resizerEnabled: bool)
    requires |columns| > 0
    ensures var r := HeaderRow(columns, true, resizerEnabled);
            r[0].isLast && r[|r| - 1].isLast && |r| > 1
  {
  }

  /** A body cell as `render` lays it out. */
  datatype BodyCell = BodyCell(value: Value, position: Position, drawRightBorder: bool, selector: bool)

  /** The row-selector cell: value `false`, position `{-1, -1}`, no type. */
  function SelectorCell(resizerEnabled: bool): BodyCell {
    BodyCell(Bool(false), SelectorPosition, !resizerEnabled, true)
  }

  /** The cells of row `r`: the selector cell when rows are removable, then one cell per value. */
  function RowCells(values: Row, r: int, removableRows: bool, resizerEnabled: bool): (cells: seq<BodyCell>)
    ensures |cells| == |values| + (if removableRows then 1 else 0)
    ensures removableRows ==> cells[0] == SelectorCell(resizerEnabled)
    ensures var off := if removableRows then 1 else 0;
            forall c :: 0 <= c < |values| ==>
              cells[c + off] == BodyCell(values[c], Position(r, c), c == |values| - 1 || !resizerEnabled, false)
  {
    var data := seq(|values|, c requires 0 <= c < |values| =>
                      BodyCell(values[c], Position(r, c), c == |values| - 1 || !resizerEnabled, false));
    if removableRows then [SelectorCell(resizerEnabled)] + data else data
  }

  /** The body: one row of cells per row of values. */
  function BodyRows(rows: seq<Row>, removableRows: bool, resizerEnabled: bool): (r: seq<seq<BodyCell>>)
    ensures |r| == |rows|
    ensures forall i :: 0 <= i < |rows| ==> r[i] == RowCells(rows[i], i, removableRows, resizerEnabled)
  {
    seq(|rows|, i requires 0 <= i < |rows| => RowCells(rows[i], i, removableRows, resizerEnabled))
  }

  /** Every data cell sits at its own row and column index and shows the value found there. */
  lemma DataCellPositions(rows: seq<Row>, removableRows: bool, resizerEnabled: bool, r: nat, c: nat)
    requires r < |rows| && c < |rows[r]|
    ensures var off := if removableRows then 1 else 0;
            var cell := BodyRows(rows, removableRows, resizerEnabled)[r][c + off];
            cell.position == Position(r, c) && cell.value == rows[r][c] && !cell.selector
  {
    var cells := RowCells(rows[r], r, removableRows, resizerEnabled);
    assert BodyRows(rows, removableRows, resizerEnabled)[r] == cells;
  }

  /** Every row has a selector cell at `{-1, -1}` holding `false` exactly when rows are removable. */
  lemma SelectorIffRemovable(rows: seq<Row>, removableRows: bool, resizerEnabled: bool, r: nat)
    requires r < |rows|
    ensures var cells := BodyRows(rows, removableRows, resizerEnabled)[r];
            removableRows <==> exists k :: 0 <= k < |cells| && cells[k].selector
    ensures var cells := BodyRows(rows, removableRows, resizerEnabled)[r];
            forall k :: 0 <= k < |cells| && cells[k].selector ==>
              k == 0 && cells[k].position == SelectorPosition && cells[k].value == Bool(false)
  {
    var cells := RowCells(rows[r], r, removableRows, resizerEnabled);
    assert BodyRows(rows, removableRows, resizerEnabled)[r] == cells;
    var off := if removableRows then 1 else 0;
    forall k | 0 <= k < |cells| && k >= off
      ensures !cells[k].selector
    {
      assert cells[(k - off) + off].selector == false;
    }
    if removableRows {
      assert cells[0].selector;
    }
  }

  class Table {
    var data: Option<Queryd>
    var columns: seq<string>
    var rows: seq<Row>
    var sourceId: Option<string>
    var authToken: Option<string>
    const removableRows: bool
    var columnResizerEnabled: bool
    /** Fetches requested so far, oldest first. */
    var fetches: seq<Fetch>
    /** Lit recorded a change of `data`, resp. of `sourceId` together with its previous value. */
    var dataChanged: bool
    var sourceIdChanged: bool
    var previousSourceId: Option<string>

    constructor (removableRows: bool)
      ensures this.removableRows == removableRows && data.None? && columns == [] && rows == []
      ensures sourceId.None? && authToken.None? && !columnResizerEnabled && fetches == []
      ensures !dataChanged && !sourceIdChanged
    {
      this.removableRows := removableRows;
      data, columns, rows := None, [], [];
      sourceId, authToken, previousSourceId := None, None, None;
      columnResizerEnabled, fetches := false, [];
      dataChanged, sourceIdChanged := false, false;
    }

    /** Assigning `data`; an object assignment always counts as a change. */
    method SetData(d: Option<Queryd>)
      modifies this`data, this`dataChanged
      ensures data == d && dataChanged
    {
      data, dataChanged := d, true;
    }

    /** Assigning `sourceId`; Lit keeps the value from before the first change of the cycle. */
    method SetSourceId(s: Option<string>)
      modifies this`sourceId, this`sourceIdChanged, this`previousSourceId
      ensures sourceId == s
      ensures sourceIdChanged == (old(sourceIdChanged) || s != old(sourceId))
      ensures previousSourceId == if !old(sourceIdChanged) && s != old(sourceId) then old(sourceId) else old(previousSourceId)
    {
      if s != sourceId {
        if !sourceIdChanged {
          previousSourceId, sourceIdChanged := sourceId, true;
        }
        sourceId := s;
      }
    }

    method SetAuthToken(t: Option<string>)
      modifies this`authToken
      ensures authToken == t
    {
      authToken := t;
    }

    /** The deferred callback of `connectedCallback`. */
    method EnableResizer()
      modifies this`columnResizerEnabled
      ensures columnResizerEnabled
    {
      columnResizerEnabled := true;
    }

    /**
     * `willUpdate`. New rows replace `columns` and `rows`; a `sourceId` change
     * then needs a token, and starts a fetch when the new id is non-empty and
     * differs from the previous one. The recorded changes are consumed even
     * when the hook throws.
     */
    method Update() returns (outcome: Outcome)
      modifies this`columns, this`rows, this`fetches, this`dataChanged, this`sourceIdChanged
      ensures !dataChanged && !sourceIdChanged
      ensures old(dataChanged) && HasRows(data) ==>
                columns == KeysOf(data.value.rows.value[0]) && rows == RowsOf(data.value.rows.value)
      ensures !(old(dataChanged) && HasRows(data)) ==> columns == old(columns) && rows == old(rows)
      ensures outcome.Threw? <==> old(sourceIdChanged) && !TruthyString(authToken)
      ensures outcome.Threw? ==> outcome.message == MissingTokenMessage && fetches == old(fetches)
      ensures outcome.Done? ==>
                fetches == old(fetches) +
                  (if old(sourceIdChanged) && TruthyString(sourceId) && sourceId != previousSourceId
                   then [Fetch(sourceId.value, authToken.value)] else [])
    {
      var changedData, changedSource := dataChanged, sourceIdChanged;
      dataChanged, sourceIdChanged := false, false;
      if changedData && HasRows(data) {
        var given := data.value.rows.value;
        columns := KeysOf(given[0]);
        rows := RowsOf(given);
      }
      if changedSource {
        if !TruthyString(authToken) {
          return Threw(MissingTokenMessage);
        }
        if TruthyString(sourceId) && sourceId != previousSourceId {
          fetches := fetches + [Fetch(sourceId.value, authToken.value)];
        }
      }
      outcome := Done;
    }

    /** The fetch's `.then`, which assigns the rows it received. */
    method OnFetched(d: Queryd)
      modifies this`data, this`dataChanged
      ensures data == Some(d) && dataChanged
    {
      SetData(Some(d));
    }

    function Header(): seq<HeaderCell>
      reads this
    {
      HeaderRow(columns, removableRows, columnResizerEnabled)
    }

    function Body(): seq<seq<BodyCell>>
      reads this
    {
      BodyRows(rows, removableRows, columnResizerEnabled)
    }
  }

  /** New data with rows, rendered, puts the value of property `c` of row `r` at position `{r, c}`. */
  method RowsReachTheirCells(t: Table, given: seq<DataRow>, r: nat, c: nat)
    requires r < |given| && c < |given[r]|
    modifies t`data, t`dataChanged, t`columns, t`rows, t`fetches, t`sourceIdChanged
    ensures t.rows == RowsOf(given) && t.columns == KeysOf(given[0])
    ensures var off := if t.removableRows then 1 else 0;
            t.Body()[r][c + off] == BodyCell(given[r][c].1, Position(r, c), c == |given[r]| - 1 || !t.columnResizerEnabled, false)
  {
    t.SetData(Some(Queryd(Some(given))));
    var outcome := t.Update();
    DataCellPositions(t.rows, t.removableRows, t.columnResizerEnabled, r, c);
  }
}
