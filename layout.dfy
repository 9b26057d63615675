/** The brick field's geometry: grid cells, the cell lists of the four layout
    patterns, and the draw that picks a brick's durability. */
module Layout {
  import opened Entities
  import opened Lists

  /** A cell of the brick grid, by column and row. */
  datatype Cell = Cell(col: int, row: int)

  const GridColumns: int := 8
  const GridRows: int := 6

  /** Grid pitch: a brick plus a two-pixel gutter; the grid starts at (45, 50)
      and a brick of the grid lies wholly on the screen. */
  function CellX(col: int): (x: int)
    ensures 0 <= col < GridColumns ==> 45 <= x && x + BrickWidth < ScreenWidth
  {
    col * (BrickWidth + 2) + 45
  }

  /** A brick of the grid lies wholly above the paddle's row, 40 pixels up
      from the bottom edge. */
  function CellY(row: int): (y: int)
    ensures 0 <= row < GridRows ==> 50 <= y && y + BrickHeight < ScreenHeight - 40
  {
    row * (BrickHeight + 2) + 50
  }

  /** Row colours, top row first. */
  const Palette: seq<Color> := [Red, Orange, Yellow, Green, Blue, Purple]

  datatype Pattern = Normal | Pyramid | Scattered | Diagonal

  /** The list the source draws the pattern from, in its order. */
  const Patterns: seq<Pattern> := [Normal, Pyramid, Scattered, Diagonal]

  /** `random.choices([1, 2, 3], weights=[0.7, 0.2, 0.1])[0]` for the draw `u`:
      the first value whose cumulative weight exceeds `u`. */
  function HitsRequired(u: real): (h: int)
    ensures 1 <= h <= 3
    ensures h == 1 <==> u < 0.7
    ensures h == 3 <==> u >= 0.9
  {
    if u < 0.7 then 1 else if u < 0.9 then 2 else 3
  }

  /** A cell of the full 8 x 6 grid. */
  predicate InGrid(c: Cell)
  {
    0 <= c.col < GridColumns && 0 <= c.row < GridRows
  }

  /** Reading order: row by row, left to right. */
  function RowMajor(c: Cell): int { c.row * GridColumns + c.col }

  /** Diagonal order: band by band (a band is the cells with equal col + row),
      top to bottom within a band. */
  function BandMajor(c: Cell): int { (c.col + c.row) * GridColumns + c.row }

  function OrderKey(c: Cell, byBands: bool): int { if byBands then BandMajor(c) else RowMajor(c) }

  /** The cells come in strictly increasing diagonal or reading order. */
  predicate Increasing(cells: seq<Cell>, byBands: bool)
  {
    forall a, b :: 0 <= a < b < |cells| ==> OrderKey(cells[a], byBands) < OrderKey(cells[b], byBands)
  }

  /** Two increasing runs, the first below `bound` and the second from it
      on, join into an increasing run. */
  lemma JoinIncreasing(p: seq<Cell>, q: seq<Cell>, bound: int, byBands: bool)
    requires Increasing(p, byBands) && Increasing(q, byBands)
    requires forall k :: 0 <= k < |p| ==> OrderKey(p[k], byBands) < bound
    requires forall k :: 0 <= k < |q| ==> bound <= OrderKey(q[k], byBands)
    ensures Increasing(p + q, byBands)
  {
    var r := p + q;
    forall a, b | 0 <= a < b < |r| ensures OrderKey(r[a], byBands) < OrderKey(r[b], byBands) {
      if b < |p| {
        assert r[a] == p[a] && r[b] == p[b];
      } else if a < |p| {
        assert r[a] == p[a] && r[b] == q[b - |p|];
      } else {
        assert r[a] == q[a - |p|] && r[b] == q[b - |p|];
      }
    }
  }

  /** The cells `from` to `to - 1` of `row`, left to right. */
  function RowSpan(row: int, from: int, to: int): (cells: seq<Cell>)
    decreases to - from
    ensures |cells| == Max(to - from, 0)
    ensures forall k :: 0 <= k < |cells| ==> cells[k] == Cell(from + k, row)
  {
    if to <= from then [] else RowSpan(row, from, to - 1) + [Cell(to - 1, row)]
  }

  /** The first `n` full rows of the grid, as the `normal` pattern's nested
      loops visit them. */
  function FullRows(n: nat): (cells: seq<Cell>)
    ensures |cells| == GridColumns * n
    ensures forall k :: 0 <= k < |cells| ==> cells[k] == Cell(k % GridColumns, k / GridColumns)
  {
    if n == 0 then []
    else
      var prefix := FullRows(n - 1);
      var row := RowSpan(n - 1, 0, GridColumns);
      assert forall k :: |prefix| <= k < |prefix| + |row| ==>
        k % GridColumns == k - |prefix| && k / GridColumns == n - 1;
      prefix + row
  }

  /** Rows 0 to n - 1 of the pyramid: row r spans columns r to 7 - r. */
  function PyramidRows(n: nat): (cells: seq<Cell>)
    ensures |cells| == if n <= 4 then n * (9 - n) else 20
    ensures forall k :: 0 <= k < |cells| ==>
      0 <= cells[k].row < n && cells[k].row <= cells[k].col < GridColumns - cells[k].row
    ensures Increasing(cells, false)
  {
    if n == 0 then []
    else
      var prefix := PyramidRows(n - 1);
      var row := RowSpan(n - 1, n - 1, GridColumns - (n - 1));
      assert forall k :: 0 <= k < |row| ==> OrderKey(row[k], false) == (n - 1) * GridColumns + (n - 1) + k;
      JoinIncreasing(prefix, row, (n - 1) * GridColumns, false);
      prefix + row
  }

  /** Band `i` of the diagonal pattern restricted to rows below `j`: the cells
      (i - r, r) for r < j whose column is on the grid. */
  function Band(i: nat, j: nat): (cells: seq<Cell>)
    requires j <= i + 1
    ensures |cells| == if i > 7 then Max(j - (i - 7), 0) else j
    ensures forall k :: 0 <= k < |cells| ==>
      cells[k].col + cells[k].row == i && 0 <= cells[k].row < j && 0 <= cells[k].col < GridColumns
    ensures Increasing(cells, true)
  {
    if j == 0 then []
    else
      var prefix := Band(i, j - 1);
      var last := if i - (j - 1) < GridColumns then [Cell(i - (j - 1), j - 1)] else [];
      assert forall k :: 0 <= k < |prefix| ==> OrderKey(prefix[k], true) == i * GridColumns + prefix[k].row;
      JoinIncreasing(prefix, last, i * GridColumns + j - 1, true);
      prefix + last
  }

  /** Bands 0 to n - 1 of the diagonal pattern, each cut at six rows. */
  function Bands(n: nat): (cells: seq<Cell>)
    ensures forall k :: 0 <= k < |cells| ==>
      InGrid(cells[k]) && cells[k].col + cells[k].row < n
    ensures Increasing(cells, true)
  {
    if n == 0 then []
    else
      var prefix := Bands(n - 1);
      var band := Band(n - 1, if n < GridRows then n else GridRows);
      assert forall k :: 0 <= k < |band| ==> OrderKey(band[k], true) == (n - 1) * GridColumns + band[k].row;
      JoinIncreasing(prefix, band, (n - 1) * GridColumns, true);
      prefix + band
  }

  /** A sequence strictly increasing under some key has no repeated element. */
  lemma {:induction false} IncreasingIsDistinct(cells: seq<Cell>, byBands: bool)
    requires Increasing(cells, byBands)
    ensures Distinct(cells)
  {
    forall a, b | 0 <= a < b < |cells| ensures cells[a] != cells[b] {
      assert OrderKey(cells[a], byBands) != OrderKey(cells[b], byBands);
    }
  }

  /** Every cell of the grid in reading order: the `normal` pattern, and the
      list of positions the `scattered` pattern samples from. */
  function GridCells(): (cells: seq<Cell>)
    ensures |cells| == 48
    ensures forall k :: 0 <= k < |cells| ==> InGrid(cells[k])
    ensures Distinct(cells)
  {
    var cells := FullRows(GridRows);
    forall a, b | 0 <= a < b < |cells| ensures cells[a] != cells[b] {
      assert a == a / GridColumns * GridColumns + a % GridColumns;
      assert b == b / GridColumns * GridColumns + b % GridColumns;
    }
    cells
  }

  /** The `pyramid` pattern: rows of 8, 6, 4 and 2 bricks, rows 4 and 5 empty. */
  function PyramidCells(): (cells: seq<Cell>)
    ensures |cells| == 20
    ensures forall k :: 0 <= k < |cells| ==> InGrid(cells[k]) && cells[k].row <= cells[k].col < GridColumns - cells[k].row
    ensures Distinct(cells)
  {
    var cells := PyramidRows(GridRows);
    IncreasingIsDistinct(cells, false);
    cells
  }

  /** The `diagonal` pattern: the 47 grid cells of bands 0 to 11. */
  function DiagonalCells(): (cells: seq<Cell>)
    ensures |cells| == 47
    ensures forall k :: 0 <= k < |cells| ==> InGrid(cells[k])
    ensures Distinct(cells)
  {
    var cells := Bands(12);
    IncreasingIsDistinct(cells, true);
    assert |Bands(6)| == 21;
    assert |Bands(9)| == 38;
    cells
  }

  /** The cells the nested loops of a pattern other than `scattered` visit. */
  function PatternCells(p: Pattern): (cells: seq<Cell>)
    requires p != Scattered
    ensures 20 <= |cells| <= 48 && Distinct(cells)
    ensures forall k :: 0 <= k < |cells| ==> InGrid(cells[k])
  {
    if p == Normal then GridCells()
    else if p == Pyramid then PyramidCells()
    else DiagonalCells()
  }

  /** The cell a brick lands in when the source unpacks a sampled (col, row)
      pair as `row, col`: column and row trade places. */
  function Swapped(c: Cell): Cell { Cell(c.row, c.col) }

  function SwapAll(cells: seq<Cell>): (r: seq<Cell>)
    ensures |r| == |cells| && forall k :: 0 <= k < |cells| ==> r[k] == Swapped(cells[k])
  {
    seq(|cells|, k requires 0 <= k < |cells| => Swapped(cells[k]))
  }

  /** A cell of the transposed grid the `scattered` pattern fills: 6 columns, 8 rows. */
  predicate InSwappedGrid(c: Cell)
  {
    0 <= c.col < GridRows && 0 <= c.row < GridColumns
  }

  /** The `scattered` pattern's cells: a draw of 30 cells without replacement
      from the grid, swapped, gives 30 distinct cells of the transposed grid. */
  lemma ScatteredCells(sample: seq<Cell>, grid: seq<Cell>)
    requires Distinct(grid) && forall k :: 0 <= k < |grid| ==> InGrid(grid[k])
    requires |sample| == 30 && multiset(sample) <= multiset(grid)
    ensures |SwapAll(sample)| == 30 && Distinct(SwapAll(sample))
    ensures forall k :: 0 <= k < 30 ==> InSwappedGrid(SwapAll(sample)[k])
  {
    SubMultisetDistinct(sample, grid);
    forall k | 0 <= k < 30 ensures InGrid(sample[k]) {
      assert sample[k] in multiset(sample);
      assert sample[k] in grid;
    }
    var swapped := SwapAll(sample);
    forall a, b | 0 <= a < b < 30 ensures swapped[a] != swapped[b] {
      assert sample[a] != sample[b];
    }
  }

  /** Bricks in distinct cells sit at distinct positions. */
  lemma CellPositionsDistinct(c: Cell, d: Cell)
    requires c != d
    ensures (CellX(c.col), CellY(c.row)) != (CellX(d.col), CellY(d.row))
  {
  }
}
