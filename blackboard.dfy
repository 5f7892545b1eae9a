/**
 * renderer.Blackboard: the sample grid of a soft-shadow light, a k x k
 * jittered raster around a centre point, built once and then kept.
 */
module Boards {
  import opened Reals
  import opened Wrappers
  import opened Vectors

  /** The values of the blackboard's fields. */
  datatype BoardState = BoardState(k: real, width: real, height: real, grid: Option<seq<Point>>, useSoftShadows: bool)

  /**
   * The random jitter of the cell in row i, column j, as (yMove, xMove).
   * Util.random is not visible, so the jitter is a parameter.
   */
  type Jitter = (nat, nat) -> (real, real)

  /** How many loop indices 0, 1, 2, ... are below k: the loops on i and j run this many times. */
  function LoopCount(k: real): (n: nat)
    ensures n == 0 <==> k <= 0.0
    ensures 0 < n ==> (n - 1) as real < k <= n as real
  {
    if k <= 0.0 then 0
    else if k.Floor as real == k then k.Floor
    else k.Floor + 1
  }

  /** Ry, the vertical spacing of the grid. */
  function RatioY(b: BoardState): real
    requires 0.0 < b.k
  {
    (b.height - 1.0) / b.k
  }

  /** Rx, the horizontal spacing of the grid. */
  function RatioX(b: BoardState): real
    requires 0.0 < b.k
  {
    (b.width - 1.0) / b.k
  }

  /** yI: row i's offset along vUp, measured from the middle row, rows growing downwards. */
  function RowOffset(b: BoardState, i: nat): real
    requires 0.0 < b.k
  {
    -((i as real) - (b.k - 1.0) / 2.0) * RatioY(b)
  }

  /** xJ: column j's offset along vRight, measured from the middle column. */
  function ColumnOffset(b: BoardState, j: nat): real
    requires 0.0 < b.k
  {
    ((j as real) - (b.k - 1.0) / 2.0) * RatioX(b)
  }

  /**
   * One move of the cell: p is moved by offset + move along v only when the
   * offset or the jitter is non-zero; a move by 0 scales v by 0 and fails.
   */
  function Step(p: Point, v: Vector, offset: real, move: real): (r: Result<Point>)
    ensures r.Err? <==> offset != 0.0 && offset + move == 0.0
    ensures r.Err? ==> r.error == ZeroVectorError
    ensures r.Ok? ==> r.value == Plus(p, Times(v, offset + move))
  {
    if offset != 0.0 || move != 0.0 then
      var scaled := Scale(v, offset + move);
      if scaled.Err? then Err(scaled.error) else Ok(Add(p, scaled.value))
    else
      Ok(p)
  }

  /** One cell of the grid: the centre moved along vRight by xJ + xMove, then along vUp by yI + yMove. */
  function Cell(b: BoardState, pCenter: Point, vUp: Vector, vRight: Vector, jitter: Jitter, i: nat, j: nat): (r: Result<Point>)
    requires 0.0 < b.k
  {
    var yMove := jitter(i, j).0;
    var xMove := jitter(i, j).1;
    var side := Step(pCenter, vRight, ColumnOffset(b, j), xMove);
    if side.Err? then side else Step(side.value, vUp, RowOffset(b, i), yMove)
  }

  /** Row i of the grid, column by column. */
  function Row(b: BoardState, pCenter: Point, vUp: Vector, vRight: Vector, jitter: Jitter, i: nat, n: nat): (s: seq<Result<Point>>)
    requires 0.0 < b.k
    ensures |s| == n
    ensures forall j :: 0 <= j < n ==> s[j] == Cell(b, pCenter, vUp, vRight, jitter, i, j)
  {
    seq(n, j requires 0 <= j < n => Cell(b, pCenter, vUp, vRight, jitter, i, j))
  }

  /** The first i rows of the grid in row-major order. */
  function FirstRows(b: BoardState, pCenter: Point, vUp: Vector, vRight: Vector, jitter: Jitter, i: nat, n: nat): seq<Result<Point>>
    requires 0.0 < b.k
  {
    if i == 0 then []
    else FirstRows(b, pCenter, vUp, vRight, jitter, i - 1, n) + Row(b, pCenter, vUp, vRight, jitter, i - 1, n)
  }

  /** What filling the grid cell by cell leaves: the points up to the first failure, and that failure. */
  datatype Filling = Filling(points: seq<Point>, failure: Option<Error>)

  function Fill(cells: seq<Result<Point>>): (f: Filling)
    ensures |f.points| <= |cells|
    ensures f.failure.None? ==> |f.points| == |cells|
  {
    if cells == [] then Filling([], None)
    else if cells[0].Err? then Filling([], Some(cells[0].error))
    else
      var rest := Fill(cells[1..]);
      Filling([cells[0].value] + rest.points, rest.failure)
  }

  /** Every cell was computed without failure. */
  predicate AllOk(cells: seq<Result<Point>>) {
    forall c :: 0 <= c < |cells| ==> cells[c].Ok?
  }

  /** The points of cells that all succeeded. */
  function Values(cells: seq<Result<Point>>): (ps: seq<Point>)
    requires AllOk(cells)
    ensures |ps| == |cells|
    ensures forall c :: 0 <= c < |cells| ==> ps[c] == cells[c].value
  {
    if cells == [] then [] else [cells[0].value] + Values(cells[1..])
  }

  /**
   * Blackboard.setGrid as a function of the fields: nothing changes once a
   * grid exists; k == 1 or soft shadows off give the centre alone; otherwise
   * the grid holds the cells up to the first failure, which is returned.
   */
  function SetGridSpec(b: BoardState, pCenter: Point, vUp: Vector, vRight: Vector, jitter: Jitter): (r: (BoardState, Option<Error>))
    ensures b.grid.Some? ==> r == (b, None)
    ensures b.grid.None? && (b.k == 1.0 || !b.useSoftShadows) ==> r == (b.(grid := Some([pCenter])), None)
    ensures r.0.k == b.k && r.0.width == b.width && r.0.height == b.height && r.0.useSoftShadows == b.useSoftShadows
    ensures r.0.grid.Some?
  {
    if b.grid.Some? then (b, None)
    else if b.k == 1.0 || !b.useSoftShadows then (b.(grid := Some([pCenter])), None)
    else if b.k <= 0.0 then (b.(grid := Some([])), None)
    else
      var f := Fill(FirstRows(b, pCenter, vUp, vRight, jitter, LoopCount(b.k), LoopCount(b.k)));
      (b.(grid := Some(f.points)), f.failure)
  }

  class Blackboard {
    var k: real
    var width: real
    var height: real
    var grid: Option<seq<Point>>
    var useSoftShadows: bool

    function State(): BoardState
      reads this
    {
      BoardState(k, width, height, grid, useSoftShadows)
    }

    /** Blackboard(k, width, height): no grid yet, soft shadows on. */
    constructor (k: real, width: real, height: real)
      ensures State() == BoardState(k, width, height, None, true)
    {
      this.k := k;
      this.width := width;
      this.height := height;
      this.grid := None;
      this.useSoftShadows := true;
    }

    method SetHeight(height: real)
      modifies this
      ensures State() == old(State()).(height := height)
    {
      this.height := height;
    }

    method SetWidth(width: real)
      modifies this
      ensures State() == old(State()).(width := width)
    {
      this.width := width;
    }

    method SetK(k: real)
      modifies this
      ensures State() == old(State()).(k := k)
    {
      this.k := k;
    }

    /**
     * Blackboard.setGrid. The failure of a cell is the exception the source
     * throws; the cells before it stay in the grid.
     */
    method SetGrid(pCenter: Point, vUp: Vector, vRight: Vector, jitter: Jitter) returns (failure: Option<Error>)
      modifies this
      ensures (State(), failure) == SetGridSpec(old(State()), pCenter, vUp, vRight, jitter)
    {
      if grid.Some? {
        return None;
      }
      var b := State();
      grid := Some([]);
      if k == 1.0 || !useSoftShadows {
        grid := Some([pCenter]);
        return None;
      }
      if k <= 0.0 {
        return None;
      }
      var n := LoopCount(k);
      for i := 0 to n
        invariant State() == b.(grid := grid) && grid.Some?
        invariant AllOk(FirstRows(b, pCenter, vUp, vRight, jitter, i, n))
        invariant grid.value == Values(FirstRows(b, pCenter, vUp, vRight, jitter, i, n))
      {
        ghost var done := FirstRows(b, pCenter, vUp, vRight, jitter, i, n);
        ghost var row := Row(b, pCenter, vUp, vRight, jitter, i, n);
        for j := 0 to n
          invariant State() == b.(grid := grid) && grid.Some?
          invariant AllOk(done + row[..j])
          invariant grid.value == Values(done + row[..j])
        {
          var pIJ := Cell(b, pCenter, vUp, vRight, jitter, i, j);
          if pIJ.Err? {
            FailureStops(b, pCenter, vUp, vRight, jitter, i, j, n);
            return Some(pIJ.error);
          }
          CellTaken(done, row, j);
          grid := Some(grid.value + [pIJ.value]);
        }
        assert row[..n] == row;
      }
      FillAllOk(FirstRows(b, pCenter, vUp, vRight, jitter, n, n));
      failure := None;
    }
  }

  /** Taking the cell at column j of a row that succeeded appends its point to the values so far. */
  lemma CellTaken(done: seq<Result<Point>>, row: seq<Result<Point>>, j: nat)
    requires j < |row| && AllOk(done + row[..j]) && row[j].Ok?
    ensures AllOk(done + row[..j + 1]) && Values(done + row[..j + 1]) == Values(done + row[..j]) + [row[j].value]
  {
    assert done + row[..j + 1] == (done + row[..j]) + [row[j]];
    ValuesSnoc(done + row[..j], row[j]);
  }

  lemma {:induction false} ValuesSnoc(cells: seq<Result<Point>>, c: Result<Point>)
    requires AllOk(cells) && c.Ok?
    ensures AllOk(cells + [c]) && Values(cells + [c]) == Values(cells) + [c.value]
  {
  }

  /** Cells that all succeed fill the grid completely. */
  lemma {:induction false} FillAllOk(cells: seq<Result<Point>>)
    requires AllOk(cells)
    ensures Fill(cells) == Filling(Values(cells), None)
  {
    if cells != [] {
      FillAllOk(cells[1..]);
    }
  }

  /** Filling stops at the first failure, keeping the points before it. */
  lemma {:induction false} FillStops(done: seq<Result<Point>>, failed: Result<Point>, rest: seq<Result<Point>>)
    requires AllOk(done) && failed.Err?
    ensures Fill(done + [failed] + rest) == Filling(Values(done), Some(failed.error))
  {
    if done != [] {
      assert (done + [failed] + rest)[1..] == done[1..] + [failed] + rest;
      FillStops(done[1..], failed, rest);
    } else {
      assert done + [failed] + rest == [failed] + rest;
    }
  }

  lemma SplitAt<T>(s: seq<T>, j: nat)
    requires j < |s|
    ensures s == s[..j] + [s[j]] + s[j + 1..]
  {
  }

  lemma Regroup<T>(a: seq<T>, s: seq<T>, e: seq<T>, j: nat)
    requires j < |s|
    ensures a + s + e == (a + s[..j]) + [s[j]] + (s[j + 1..] + e)
  {
    SplitAt(s, j);
  }

  /** Rows i to m - 1 of the grid, in order. */
  function RowsBetween(b: BoardState, pCenter: Point, vUp: Vector, vRight: Vector, jitter: Jitter, i: nat, m: nat, n: nat): seq<Result<Point>>
    requires 0.0 < b.k && i <= m
    decreases m - i
  {
    if i == m then [] else RowsBetween(b, pCenter, vUp, vRight, jitter, i, m - 1, n) + Row(b, pCenter, vUp, vRight, jitter, m - 1, n)
  }

  /** The first m rows are the first i rows followed by rows i to m - 1. */
  lemma {:induction false} SplitRows(b: BoardState, pCenter: Point, vUp: Vector, vRight: Vector, jitter: Jitter, i: nat, m: nat, n: nat)
    requires 0.0 < b.k && i <= m
    ensures FirstRows(b, pCenter, vUp, vRight, jitter, m, n) ==
      FirstRows(b, pCenter, vUp, vRight, jitter, i, n) + RowsBetween(b, pCenter, vUp, vRight, jitter, i, m, n)
    decreases m - i
  {
    var first := FirstRows(b, pCenter, vUp, vRight, jitter, i, n);
    if i == m {
      assert first + [] == first;
    } else {
      SplitRows(b, pCenter, vUp, vRight, jitter, i, m - 1, n);
      var between := RowsBetween(b, pCenter, vUp, vRight, jitter, i, m - 1, n);
      var last := Row(b, pCenter, vUp, vRight, jitter, m - 1, n);
      assert (first + between) + last == first + (between + last);
    }
  }

  /** Row i comes right after the first i rows. */
  lemma RowAfter(b: BoardState, pCenter: Point, vUp: Vector, vRight: Vector, jitter: Jitter, i: nat, n: nat)
    requires 0.0 < b.k && i < n
    ensures FirstRows(b, pCenter, vUp, vRight, jitter, n, n) ==
      FirstRows(b, pCenter, vUp, vRight, jitter, i, n) + Row(b, pCenter, vUp, vRight, jitter, i, n) +
      RowsBetween(b, pCenter, vUp, vRight, jitter, i + 1, n, n)
  {
    SplitRows(b, pCenter, vUp, vRight, jitter, i + 1, n, n);
  }

  /** A failing cell in row i, column j ends the filling with the cells before it. */
  lemma FailureStops(b: BoardState, pCenter: Point, vUp: Vector, vRight: Vector, jitter: Jitter, i: nat, j: nat, n: nat)
    requires 0.0 < b.k && i < n && j < n
    requires AllOk(FirstRows(b, pCenter, vUp, vRight, jitter, i, n) + Row(b, pCenter, vUp, vRight, jitter, i, n)[..j])
    requires Cell(b, pCenter, vUp, vRight, jitter, i, j).Err?
    ensures Fill(FirstRows(b, pCenter, vUp, vRight, jitter, n, n)) ==
      Filling(Values(FirstRows(b, pCenter, vUp, vRight, jitter, i, n) + Row(b, pCenter, vUp, vRight, jitter, i, n)[..j]),
              Some(Cell(b, pCenter, vUp, vRight, jitter, i, j).error))
  {
    var done := FirstRows(b, pCenter, vUp, vRight, jitter, i, n);
    var row := Row(b, pCenter, vUp, vRight, jitter, i, n);
    var later := RowsBetween(b, pCenter, vUp, vRight, jitter, i + 1, n, n);
    RowAfter(b, pCenter, vUp, vRight, jitter, i, n);
    Regroup(done, row, later, j);
    FillStops(done + row[..j], row[j], row[j + 1..] + later);
  }

  // What the cells are

  /**
   * Whatever branches are taken, a cell that succeeds is
   * pCenter + (xJ + xMove) vRight + (yI + yMove) vUp.
   */
  lemma CellFormula(b: BoardState, pCenter: Point, vUp: Vector, vRight: Vector, jitter: Jitter, i: nat, j: nat)
    requires 0.0 < b.k
    requires Cell(b, pCenter, vUp, vRight, jitter, i, j).Ok?
    ensures Cell(b, pCenter, vUp, vRight, jitter, i, j).value ==
      Plus(Plus(pCenter, Times(vRight, ColumnOffset(b, j) + jitter(i, j).1)), Times(vUp, RowOffset(b, i) + jitter(i, j).0))
  {
  }

  /** A cell fails exactly when an offset is non-zero and its jitter cancels it. */
  lemma CellFailure(b: BoardState, pCenter: Point, vUp: Vector, vRight: Vector, jitter: Jitter, i: nat, j: nat)
    requires 0.0 < b.k
    ensures Cell(b, pCenter, vUp, vRight, jitter, i, j).Err? <==>
      (ColumnOffset(b, j) != 0.0 && ColumnOffset(b, j) + jitter(i, j).1 == 0.0) ||
      (RowOffset(b, i) != 0.0 && RowOffset(b, i) + jitter(i, j).0 == 0.0)
  {
  }

  /** Without jitter, column j and column k - 1 - j lie symmetrically about the centre, and so do the rows. */
  lemma SymmetricOffsets(b: BoardState, i: nat, j: nat)
    requires 0.0 < b.k && (i as real) <= b.k - 1.0 && (j as real) <= b.k - 1.0
    requires (b.k - 1.0).Floor as real == b.k - 1.0
    ensures ColumnOffset(b, (b.k - 1.0).Floor - j) == -ColumnOffset(b, j)
    ensures RowOffset(b, (b.k - 1.0).Floor - i) == -RowOffset(b, i)
  {
  }

  /** The random jitter stays within half a cell on either side (|yMove| <= |Ry|/2, |xMove| <= |Rx|/2). */
  ghost predicate JitterWithin(b: BoardState, jitter: Jitter)
    requires 0.0 < b.k
  {
    forall i: nat, j: nat :: Abs(jitter(i, j).0) <= Abs(RatioY(b)) / 2.0 && Abs(jitter(i, j).1) <= Abs(RatioX(b)) / 2.0
  }

  /**
   * With an odd whole k and jitter within half a cell, no offset can be
   * cancelled, so no cell fails: a non-zero offset is a whole number of cells.
   */
  lemma OddGridNeverFails(b: BoardState, pCenter: Point, vUp: Vector, vRight: Vector, jitter: Jitter, m: nat, i: nat, j: nat)
    requires b.k == (2 * m + 1) as real
    requires JitterWithin(b, jitter)
    ensures Cell(b, pCenter, vUp, vRight, jitter, i, j).Ok?
  {
    CellFailure(b, pCenter, vUp, vRight, jitter, i, j);
    RowNotCancelled(b, m, i, jitter(i, j).0);
    ColumnNotCancelled(b, m, j, jitter(i, j).1);
  }

  lemma RowNotCancelled(b: BoardState, m: nat, i: nat, yMove: real)
    requires b.k == (2 * m + 1) as real
    requires Abs(yMove) <= Abs(RatioY(b)) / 2.0
    ensures RowOffset(b, i) != 0.0 ==> RowOffset(b, i) + yMove != 0.0
  {
    var ci := (i as real) - (b.k - 1.0) / 2.0;
    assert ci == (i as int - m) as real;
    WholeOffset(-ci, i as int - m, RatioY(b), yMove);
  }

  lemma ColumnNotCancelled(b: BoardState, m: nat, j: nat, xMove: real)
    requires b.k == (2 * m + 1) as real
    requires Abs(xMove) <= Abs(RatioX(b)) / 2.0
    ensures ColumnOffset(b, j) != 0.0 ==> ColumnOffset(b, j) + xMove != 0.0
  {
    var cj := (j as real) - (b.k - 1.0) / 2.0;
    assert cj == (j as int - m) as real;
    WholeOffset(cj, j as int - m, RatioX(b), xMove);
  }

  /** A whole multiple x R of R that is not 0 is not cancelled by a move of at most |R|/2. */
  lemma WholeOffset(x: real, c: int, r: real, move: real)
    requires x == c as real || x == -(c as real)
    requires Abs(move) <= Abs(r) / 2.0
    ensures x * r != 0.0 ==> x * r + move != 0.0
  {
    if c != 0 && r != 0.0 {
      AtLeastOneMultiple(c, r);
      assert Abs(x * r) == Abs((c as real) * r);
    }
  }

  lemma AtLeastOneMultiple(c: int, r: real)
    requires c != 0 && r != 0.0
    ensures Abs(r) <= Abs((c as real) * r)
  {
    if c > 0 {
      if r > 0.0 {
        assert (c as real) * r == r + ((c - 1) as real) * r;
        MulNonNegative((c - 1) as real, r);
      } else {
        assert (c as real) * (-r) == -r + ((c - 1) as real) * (-r);
        MulNonNegative((c - 1) as real, -r);
      }
    } else {
      if r > 0.0 {
        assert (-c as real) * r == r + ((-c - 1) as real) * r;
        MulNonNegative((-c - 1) as real, r);
      } else {
        assert (-c as real) * (-r) == -r + ((-c - 1) as real) * (-r);
        MulNonNegative((-c - 1) as real, -r);
      }
    }
  }

  /** Where row i starts in a row-major grid of rows of n cells: i * n, counted row by row. */
  function RowStart(i: nat, n: nat): (s: nat)
    ensures s == i * n
  {
    if i == 0 then 0 else RowStart(i - 1, n) + n
  }

  /** The first i rows hold i * n cells. */
  lemma {:induction false} FirstRowsLength(b: BoardState, pCenter: Point, vUp: Vector, vRight: Vector, jitter: Jitter, i: nat, n: nat)
    requires 0.0 < b.k
    ensures |FirstRows(b, pCenter, vUp, vRight, jitter, i, n)| == RowStart(i, n)
  {
    if i > 0 {
      FirstRowsLength(b, pCenter, vUp, vRight, jitter, i - 1, n);
    }
  }

  /** Column j of an earlier row comes before the start of row m. */
  lemma {:induction false} RowStartBound(i: nat, j: nat, m: nat, n: nat)
    requires i < m && j < n
    ensures RowStart(i, n) + j < RowStart(m, n)
    decreases m
  {
    if i < m - 1 {
      RowStartBound(i, j, m - 1, n);
    }
  }

  /** A filled grid of n rows has n * n points, the cell in row i and column j at index i * n + j. */
  lemma GridLayout(b: BoardState, pCenter: Point, vUp: Vector, vRight: Vector, jitter: Jitter, n: nat, i: nat, j: nat)
    requires 0.0 < b.k && i < n && j < n
    ensures |FirstRows(b, pCenter, vUp, vRight, jitter, n, n)| == RowStart(n, n)
    ensures RowStart(i, n) + j < RowStart(n, n)
    ensures FirstRows(b, pCenter, vUp, vRight, jitter, n, n)[RowStart(i, n) + j] == Cell(b, pCenter, vUp, vRight, jitter, i, j)
  {
    FirstRowsLength(b, pCenter, vUp, vRight, jitter, n, n);
    FirstRowsLength(b, pCenter, vUp, vRight, jitter, i, n);
    RowStartBound(i, j, n, n);
    RowAfter(b, pCenter, vUp, vRight, jitter, i, n);
    var done := FirstRows(b, pCenter, vUp, vRight, jitter, i, n);
    var row := Row(b, pCenter, vUp, vRight, jitter, i, n);
    var later := RowsBetween(b, pCenter, vUp, vRight, jitter, i + 1, n, n);
    ConcatIndex(done, row, later, j);
  }

  /** The element j of the middle part of a + s + e sits at |a| + j. */
  lemma ConcatIndex<T>(a: seq<T>, s: seq<T>, e: seq<T>, j: nat)
    requires j < |s|
    ensures (a + s + e)[|a| + j] == s[j]
  {
  }

  /** A filling that reports no failure took every cell. */
  lemma {:induction false} FillNoFailure(cells: seq<Result<Point>>)
    requires Fill(cells).failure.None?
    ensures AllOk(cells) && Fill(cells).points == Values(cells)
  {
    if cells != [] {
      FillNoFailure(cells[1..]);
      assert forall c :: 1 <= c < |cells| ==> cells[c] == cells[1..][c - 1];
    }
  }

  /**
   * A grid built without failure holds n * n points for n loop iterations,
   * row by row: the point at i * n + j (RowStart(i, n) + j) is the cell in
   * row i, column j.
   */
  lemma SetGridLayout(b: BoardState, pCenter: Point, vUp: Vector, vRight: Vector, jitter: Jitter, i: nat, j: nat)
    requires b.grid.None? && b.k != 1.0 && b.useSoftShadows && 0.0 < b.k
    requires SetGridSpec(b, pCenter, vUp, vRight, jitter).1.None?
    requires i < LoopCount(b.k) && j < LoopCount(b.k)
    ensures var grid := SetGridSpec(b, pCenter, vUp, vRight, jitter).0.grid.value;
      var n := LoopCount(b.k);
      |grid| == RowStart(n, n) && RowStart(i, n) + j < |grid| &&
      Cell(b, pCenter, vUp, vRight, jitter, i, j).Ok? &&
      grid[RowStart(i, n) + j] == Cell(b, pCenter, vUp, vRight, jitter, i, j).value
  {
    var n := LoopCount(b.k);
    var cells := FirstRows(b, pCenter, vUp, vRight, jitter, n, n);
    assert SetGridSpec(b, pCenter, vUp, vRight, jitter) == (b.(grid := Some(Fill(cells).points)), Fill(cells).failure);
    FillNoFailure(cells);
    GridLayout(b, pCenter, vUp, vRight, jitter, n, i, j);
  }

  /** The grid is built once: a second setGrid, with any arguments, changes nothing. */
  lemma SetGridOnce(b: BoardState, pCenter: Point, vUp: Vector, vRight: Vector, jitter: Jitter,
                    pCenter': Point, vUp': Vector, vRight': Vector, jitter': Jitter)
    ensures var first := SetGridSpec(b, pCenter, vUp, vRight, jitter).0;
      SetGridSpec(first, pCenter', vUp', vRight', jitter') == (first, None)
  {
  }
}

