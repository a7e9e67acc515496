/**
 * The workspace map editor (Configure/map.tsx): a 10 x 10 grid whose cells
 * cycle empty -> workstation -> obstacle -> empty when clicked, a selected
 * cell, a reset button, and the workstation / obstacle counts.
 */
module WorkspaceMap {
  import opened Wrappers

  datatype Cell = Empty | Workstation | Obstacle

  type Grid = seq<seq<Cell>>

  const Rows: nat := 10
  const Cols: nat := 10

  /** `Array(10).fill(null).map(() => Array(10).fill("empty"))`. */
  function InitialMap(): Grid
  {
    seq(Rows, _ => seq(Cols, _ => Empty))
  }

  /** Every row has `cols` cells and there are `rows` rows. */
  predicate Shaped(g: Grid, rows: nat, cols: nat)
  {
    |g| == rows && forall r :: 0 <= r < |g| ==> |g[r]| == cols
  }

  /** Whether (row, col) names a cell of the grid. */
  predicate InGrid(g: Grid, row: int, col: int)
  {
    0 <= row < |g| && 0 <= col < |g[row]|
  }

  /** The click cycle: empty -> workstation -> obstacle -> empty. */
  function Next(c: Cell): Cell
  {
    if c == Empty then Workstation
    else if c == Workstation then Obstacle
    else Empty
  }

  /** Three clicks bring a cell back, and no single click leaves it as it was. */
  lemma NextCycles(c: Cell)
    ensures Next(c) != c && Next(Next(c)) != c
    ensures Next(Next(Next(c))) == c
  {
  }

  /** The grid `handleCellClick` leaves: the rows copied, then one cell advanced. */
  function Toggled(g: Grid, row: int, col: int): Grid
    requires InGrid(g, row, col)
  {
    g[row := g[row][col := Next(g[row][col])]]
  }

  /** A click advances cell (row, col) and changes no other cell and neither dimension. */
  lemma ToggledChangesOnlyCell(g: Grid, row: int, col: int)
    requires InGrid(g, row, col)
    ensures var t := Toggled(g, row, col);
      && |t| == |g|
      && (forall r :: 0 <= r < |g| ==> |t[r]| == |g[r]|)
      && t[row][col] == Next(g[row][col])
      && (forall r, c :: 0 <= r < |g| && 0 <= c < |g[r]| && (r, c) != (row, col) ==> t[r][c] == g[r][c])
  {
  }

  /** Three clicks on the same cell restore the original map. */
  lemma ThreeClicksRestore(g: Grid, row: int, col: int)
    requires InGrid(g, row, col)
    ensures InGrid(Toggled(g, row, col), row, col)
    ensures InGrid(Toggled(Toggled(g, row, col), row, col), row, col)
    ensures Toggled(Toggled(Toggled(g, row, col), row, col), row, col) == g
  {
    var g1 := Toggled(g, row, col);
    var g2 := Toggled(g1, row, col);
    var g3 := Toggled(g2, row, col);
    NextCycles(g[row][col]);
    assert g3[row] == g[row];
  }

  /** Occurrences of `kind` in one row: `row.filter(cell => cell === kind).length`. */
  function RowCount(cells: seq<Cell>, kind: Cell): nat
  {
    if cells == [] then 0
    else (if cells[0] == kind then 1 else 0) + RowCount(cells[1..], kind)
  }

  /** Occurrences of `kind` in the whole grid: `mapData.flat().filter(cell => cell === kind).length`. */
  function Count(g: Grid, kind: Cell): nat
  {
    if g == [] then 0 else RowCount(g[0], kind) + Count(g[1..], kind)
  }

  /** The number of cells: `mapData.flat().length`. */
  function CellCount(g: Grid): nat
  {
    if g == [] then 0 else |g[0]| + CellCount(g[1..])
  }

  lemma {:induction false} RowCountsBounded(cells: seq<Cell>)
    ensures RowCount(cells, Workstation) + RowCount(cells, Obstacle) <= |cells|
    decreases |cells|
  {
    if cells != [] {
      RowCountsBounded(cells[1..]);
    }
  }

  /** The workstation and obstacle counts together never exceed the number of cells. */
  lemma {:induction false} CountsBounded(g: Grid)
    ensures Count(g, Workstation) + Count(g, Obstacle) <= CellCount(g)
    decreases |g|
  {
    if g != [] {
      RowCountsBounded(g[0]);
      CountsBounded(g[1..]);
    }
  }

  /** A grid of rows x cols cells has rows * cols cells. */
  lemma {:induction false} ShapedCellCount(g: Grid, rows: nat, cols: nat)
    requires Shaped(g, rows, cols)
    ensures CellCount(g) == rows * cols
    decreases rows
  {
    if rows > 0 {
      ShapedCellCount(g[1..], rows - 1, cols);
    }
  }

  lemma {:induction false} AllEmptyRowCount(cells: seq<Cell>, kind: Cell)
    requires kind != Empty
    requires forall c :: 0 <= c < |cells| ==> cells[c] == Empty
    ensures RowCount(cells, kind) == 0
    decreases |cells|
  {
    if cells != [] {
      AllEmptyRowCount(cells[1..], kind);
    }
  }

  lemma {:induction false} AllEmptyCount(g: Grid, kind: Cell)
    requires kind != Empty
    requires forall r, c :: 0 <= r < |g| && 0 <= c < |g[r]| ==> g[r][c] == Empty
    ensures Count(g, kind) == 0
    decreases |g|
  {
    if g != [] {
      AllEmptyRowCount(g[0], kind);
      AllEmptyCount(g[1..], kind);
    }
  }

  /** The initial map is 10 x 10, every cell empty, with no workstation and no obstacle. */
  lemma InitialMapEmpty()
    ensures Shaped(InitialMap(), 10, 10)
    ensures forall r, c :: 0 <= r < 10 && 0 <= c < 10 ==> InitialMap()[r][c] == Empty
    ensures Count(InitialMap(), Workstation) == 0 && Count(InitialMap(), Obstacle) == 0
    ensures CellCount(InitialMap()) == 100
  {
    AllEmptyCount(InitialMap(), Workstation);
    AllEmptyCount(InitialMap(), Obstacle);
    ShapedCellCount(InitialMap(), 10, 10);
  }

  lemma {:induction false} RowCountUpdate(cells: seq<Cell>, col: nat, v: Cell, kind: Cell)
    requires col < |cells|
    ensures RowCount(cells[col := v], kind) ==
      RowCount(cells, kind) - (if cells[col] == kind then 1 else 0) + (if v == kind then 1 else 0)
    decreases |cells|
  {
    if col > 0 {
      assert cells[col := v][1..] == cells[1..][col - 1 := v];
      RowCountUpdate(cells[1..], col - 1, v, kind);
    } else {
      assert cells[col := v][1..] == cells[1..];
    }
  }

  /** One click moves one cell from its old kind's count to its new kind's count. */
  lemma {:induction false} ToggledCounts(g: Grid, row: int, col: int, kind: Cell)
    requires InGrid(g, row, col)
    ensures Count(Toggled(g, row, col), kind) ==
      Count(g, kind) - (if g[row][col] == kind then 1 else 0) + (if Next(g[row][col]) == kind then 1 else 0)
    decreases |g|
  {
    var t := Toggled(g, row, col);
    if row > 0 {
      assert t[1..] == Toggled(g[1..], row - 1, col);
      ToggledCounts(g[1..], row - 1, col, kind);
    } else {
      assert t[1..] == g[1..];
      RowCountUpdate(g[0], col, Next(g[0][col]), kind);
    }
  }

  datatype Position = Position(row: int, col: int)

  class MapEditor {
    var mapData: Grid
    var selectedCell: Option<Position>

    /** The grid is 10 x 10 and a selection names one of its cells. */
    ghost predicate Valid()
      reads this
    {
      && Shaped(mapData, Rows, Cols)
      && (selectedCell.Some? ==> InGrid(mapData, selectedCell.value.row, selectedCell.value.col))
    }

    constructor ()
      ensures Valid()
      ensures mapData == InitialMap() && selectedCell == None
    {
      mapData := InitialMap();
      selectedCell := None;
    }

    /** A click on a rendered cell selects it and advances it along the cycle. */
    method HandleCellClick(row: int, col: int)
      requires Valid() && InGrid(mapData, row, col)
      modifies this
      ensures Valid()
      ensures selectedCell == Some(Position(row, col))
      ensures mapData == Toggled(old(mapData), row, col)
      ensures SelectedCellType() == Some(Next(old(mapData)[row][col]))
    {
      selectedCell := Some(Position(row, col));
      mapData := Toggled(mapData, row, col);
    }

    /** Reset: the all-empty map, no selection, both counts 0. */
    method HandleReset()
      modifies this
      ensures Valid()
      ensures mapData == InitialMap() && selectedCell == None
      ensures WorkstationCount() == 0 && ObstacleCount() == 0
    {
      mapData := InitialMap();
      selectedCell := None;
      InitialMapEmpty();
    }

    function WorkstationCount(): nat
      reads this
    {
      Count(mapData, Workstation)
    }

    function ObstacleCount(): nat
      reads this
    {
      Count(mapData, Obstacle)
    }

    /** `selectedCellType`: the selected cell's kind, or None ("none") without a selection. */
    function SelectedCellType(): Option<Cell>
      reads this
      requires Valid()
    {
      match selectedCell
      case None => None
      case Some(p) => Some(mapData[p.row][p.col])
    }

    /** The two counts shown under the map never add up to more than the 100 cells. */
    lemma CountsWithinGrid()
      requires Valid()
      ensures WorkstationCount() + ObstacleCount() <= Rows * Cols
    {
      CountsBounded(mapData);
      ShapedCellCount(mapData, Rows, Cols);
    }
  }
}
