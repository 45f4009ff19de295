/**
 * Where keyboard focus goes when a table cell handles an arrow key. A body
 * row is a run of sibling cells. A grid with `selector` has, as the first
 * cell of each row, a `blank` cell whose slot holds a `check-box` (inside a
 * wrapper, inside the cell, inside the row), which takes focus itself. The
 * cell's key handler supports that layout; the table element's own selector
 * cell is a plain cell holding `false`, with no check-box, so for the grid
 * that element renders `selector` is false.
 */
module GridNav {

  /** `rows` body rows of `columns` data cells, optionally preceded by a selector cell. */
  datatype Grid = Grid(rows: nat, columns: nat, selector: bool)

  /** Number of sibling cells in one row. */
  function Width(g: Grid): nat {
    g.columns + if g.selector then 1 else 0
  }

  /** The focused element: a cell (by row and sibling slot), or the check-box of a row. */
  datatype Focus = CellAt(row: nat, slot: nat) | CheckboxAt(row: nat)

  datatype Direction = Left | Right | Up | Down

  ghost predicate InGrid(g: Grid, f: Focus) {
    match f
    case CellAt(r, s) => r < g.rows && s < Width(g)
    case CheckboxAt(r) => g.selector && r < g.rows
  }

  /**
   * An arrow key on a cell: Right focuses the next sibling, Left the check-box
   * in the previous sibling if it holds one and the previous sibling
   * otherwise; Up and Down move to the same slot of the adjacent row. There
   * is no wrap-around: at an edge the focus stays.
   */
  function CellArrow(g: Grid, row: nat, slot: nat, d: Direction): (f: Focus)
    ensures row < g.rows && slot < Width(g) ==> InGrid(g, f)
    ensures d == Right ==> f == if slot + 1 < Width(g) then CellAt(row, slot + 1) else CellAt(row, slot)
    ensures d == Left && slot == 0 ==> f == CellAt(row, slot)
    ensures d == Left && slot > 0 ==> f.row == row && (f.CheckboxAt? <==> g.selector && slot == 1)
    ensures d == Down ==> f == if row + 1 < g.rows then CellAt(row + 1, slot) else CellAt(row, slot)
    ensures d == Up ==> f == if row > 0 then CellAt(row - 1, slot) else CellAt(row, slot)
  {
    match d
    case Right => if slot + 1 < Width(g) then CellAt(row, slot + 1) else CellAt(row, slot)
    case Left =>
      if slot == 0 then CellAt(row, slot)
      else if g.selector && slot - 1 == 0 then CheckboxAt(row)
      else CellAt(row, slot - 1)
    case Down => if row + 1 < g.rows then CellAt(row + 1, slot) else CellAt(row, slot)
    case Up => if row > 0 then CellAt(row - 1, slot) else CellAt(row, slot)
  }

  /**
   * An arrow key on a row's check-box: Up and Down focus the check-box of
   * the adjacent row, Right the cell after the selector cell, Left nothing.
   */
  function CheckboxArrow(g: Grid, row: nat, d: Direction): (f: Focus)
    ensures g.selector && row < g.rows ==> InGrid(g, f)
    ensures d == Left ==> f == CheckboxAt(row)
    ensures d == Right ==> f == if 1 < Width(g) then CellAt(row, 1) else CheckboxAt(row)
    ensures d == Down ==> f == if row + 1 < g.rows then CheckboxAt(row + 1) else CheckboxAt(row)
    ensures d == Up ==> f == if row > 0 then CheckboxAt(row - 1) else CheckboxAt(row)
  {
    match d
    case Left => CheckboxAt(row)
    case Right => if 1 < Width(g) then CellAt(row, 1) else CheckboxAt(row)
    case Down => if row + 1 < g.rows then CheckboxAt(row + 1) else CheckboxAt(row)
    case Up => if row > 0 then CheckboxAt(row - 1) else CheckboxAt(row)
  }

  function Arrow(g: Grid, f: Focus, d: Direction): Focus {
    match f
    case CellAt(r, s) => CellArrow(g, r, s, d)
    case CheckboxAt(r) => CheckboxArrow(g, r, d)
  }

  /** `Arrow` applied `k` times in the same direction. */
  function Repeat(g: Grid, f: Focus, d: Direction, k: nat): Focus
    decreases k
  {
    if k == 0 then f else Arrow(g, Repeat(g, f, d, k - 1), d)
  }

  /** Focus never leaves the grid. */
  lemma ArrowStaysInGrid(g: Grid, f: Focus, d: Direction)
    requires InGrid(g, f)
    ensures InGrid(g, Arrow(g, f, d))
  {
  }

  /** Left undoes Right, except when Right leaves the selector cell (Left then takes its check-box). */
  lemma LeftUndoesRight(g: Grid, row: nat, slot: nat)
    requires slot + 1 < Width(g)
    ensures Arrow(g, Arrow(g, CellAt(row, slot), Right), Left) ==
              if g.selector && slot == 0 then CheckboxAt(row) else CellAt(row, slot)
  {
  }

  /** From a check-box, Right then Left comes back to it. */
  lemma CheckboxRightThenLeft(g: Grid, row: nat)
    requires g.selector && g.columns > 0
    ensures Arrow(g, Arrow(g, CheckboxAt(row), Right), Left) == CheckboxAt(row)
  {
  }

  /** Up undoes Down away from the last row, for cells and check-boxes alike. */
  lemma UpUndoesDown(g: Grid, f: Focus)
    requires f.row + 1 < g.rows
    ensures Arrow(g, Arrow(g, f, Down), Up) == f
  {
  }

  /** k presses of ArrowRight from a cell stop at the last cell of the row. */
  lemma {:induction false} RepeatRight(g: Grid, row: nat, slot: nat, k: nat)
    requires slot < Width(g)
    ensures Repeat(g, CellAt(row, slot), Right, k) ==
              CellAt(row, if slot + k < Width(g) then slot + k else Width(g) - 1)
  {
    if k > 0 {
      RepeatRight(g, row, slot, k - 1);
    }
  }

  /** k presses of ArrowDown from any element stop at the last row, in the same column. */
  lemma {:induction false} RepeatDown(g: Grid, f: Focus, k: nat)
    requires f.row < g.rows
    ensures var last := if f.row + k < g.rows then f.row + k else g.rows - 1;
            Repeat(g, f, Down, k) == f.(row := last)
  {
    if k > 0 {
      RepeatDown(g, f, k - 1);
    }
  }
}
