/**
 * A table row (`outerbase-tr`): the background its class map selects, and
 * the `on-selection` notification when `selected` changes.
 */
module TableRows {
  import opened Wrappers
  import opened Events

  // The background classes of the row's class map.

  /** New and not selected. */
  predicate NewBackground(isNew: bool, selected: bool) {
    isNew && !selected
  }

  /** The odd/even stripes: not new, not a header, not selected. */
  predicate StripedBackground(isNew: bool, selected: bool, isHeaderRow: bool) {
    !isNew && !isHeaderRow && !selected
  }

  /** Selected and not a header. */
  predicate SelectedBackground(selected: bool, isHeaderRow: bool) {
    selected && !isHeaderRow
  }

  /** The header text colour. */
  predicate HeaderText(isHeaderRow: bool) {
    isHeaderRow
  }

  datatype Background = NewRowBackground | Stripes | SelectedRowBackground | Plain

  /** The single background the class map turns on, if any. */
  function BackgroundOf(isNew: bool, selected: bool, isHeaderRow: bool): (b: Background)
    ensures b == NewRowBackground <==> NewBackground(isNew, selected)
    ensures b == Stripes <==> StripedBackground(isNew, selected, isHeaderRow)
    ensures b == SelectedRowBackground <==> SelectedBackground(selected, isHeaderRow)
    ensures b == Plain <==> isHeaderRow && !NewBackground(isNew, selected)
  {
    if isNew && !selected then NewRowBackground
    else if selected && !isHeaderRow then SelectedRowBackground
    else if !isHeaderRow then Stripes
    else Plain
  }

  /** At most one of the three backgrounds applies. */
  lemma BackgroundsExclusive(isNew: bool, selected: bool, isHeaderRow: bool)
    ensures !(NewBackground(isNew, selected) && StripedBackground(isNew, selected, isHeaderRow))
    ensures !(NewBackground(isNew, selected) && SelectedBackground(selected, isHeaderRow))
    ensures !(StripedBackground(isNew, selected, isHeaderRow) && SelectedBackground(selected, isHeaderRow))
  {
  }

  /** A header row is never striped or highlighted as selected. */
  lemma HeaderRowsUnstriped(isNew: bool, selected: bool)
    ensures !StripedBackground(isNew, selected, true) && !SelectedBackground(selected, true)
  {
  }

  class TableRow {
    var selected: bool
    const isHeaderRow: bool
    /** The `new` property. */
    var isNew: bool
    /** Events dispatched by the row, oldest first. */
    var log: seq<Notification>
    /** Lit recorded a change of `selected`, with the value it had before (absent before the first assignment). */
    var selectedChanged: bool
    var previousSelected: Option<bool>

    /** The field initialiser's `selected = false` is the first, recorded, assignment. */
    constructor (isHeaderRow: bool)
      ensures !selected && this.isHeaderRow == isHeaderRow && !isNew && log == []
      ensures selectedChanged && previousSelected.None?
    {
      this.isHeaderRow := isHeaderRow;
      selected, isNew, log := false, false, [];
      selectedChanged, previousSelected := true, None;
    }

    method SetSelected(v: bool)
      modifies this`selected, this`selectedChanged, this`previousSelected
      ensures selected == v
      ensures selectedChanged == (old(selectedChanged) || v != old(selected))
      ensures previousSelected == if !old(selectedChanged) && v != old(selected) then Some(old(selected)) else old(previousSelected)
    {
      if v != selected {
        if !selectedChanged {
          previousSelected, selectedChanged := Some(selected), true;
        }
        selected := v;
      }
    }

    /** `willUpdate`: a change of `selected` from a defined value is announced. */
    method Update()
      modifies this`log, this`selectedChanged
      ensures !selectedChanged
      ensures log == old(log) + (if old(selectedChanged) && previousSelected.Some? then [OnSelection] else [])
    {
      if selectedChanged && previousSelected.Some? {
        log := log + [OnSelection];
      }
      selectedChanged := false;
    }

    function Background(): Background
      reads this
    {
      BackgroundOf(isNew, selected, isHeaderRow)
    }
  }

  /** The first update announces nothing; selecting the row afterwards announces one change. */
  method FirstUpdateIsSilent(isHeaderRow: bool) returns (r: TableRow)
    ensures r.log == [OnSelection] && r.selected
  {
    r := new TableRow(isHeaderRow);
    r.Update();
    assert r.log == [];
    r.SetSelected(true);
    r.Update();
  }
}
