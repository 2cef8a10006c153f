/** The animated grid background (`animated-grid-bg`): a grid of cells
    sized to the host element, and a fixed number of highlighted squares
    placed on random cells. Resizes are coalesced into one frame, and the
    per-square animation loops start once until they are reset. */
module GridBg {
  import opened Common

  /** A highlighted square: its identity and the cell it occupies. */
  datatype Square = Square(id: int, col: int, row: int)

  /** How many whole cells of size `cell` fit along `extent`, at least
      one; a non-positive cell size gives a single cell and a negative
      extent counts as 0. */
  function CellCount(extent: real, cell: real): (n: int)
    ensures n >= 1
    ensures cell <= 0.0 ==> n == 1
    ensures cell > 0.0 && extent >= cell ==> n as real * cell <= extent < (n as real + 1.0) * cell
    ensures cell > 0.0 && extent < cell ==> n == 1
  {
    if cell > 0.0 then
      var e := Max(0.0, extent);
      var q := e / cell;
      var f := Floor(q);
      DivTimes(e, cell);
      WholeCells(e, cell, q, f);
      AtLeastOneCell(e, cell, f);
      if 1 < f then f else 1
    else 1
  }

  /** `f` whole cells fit in `extent` when `f` is the floor of the
      ratio `q` of `extent` to `cell`. */
  lemma WholeCells(extent: real, cell: real, q: real, f: int)
    requires cell > 0.0 && q * cell == extent && f as real <= q < f as real + 1.0
    ensures f as real * cell <= extent < (f as real + 1.0) * cell
  {
    ScaleBelow(f as real, q, cell);
    ScaleStrictlyBelow(q, f as real + 1.0, cell);
  }

  /** A whole cell fits once the extent reaches the cell size. */
  lemma AtLeastOneCell(extent: real, cell: real, f: int)
    requires cell > 0.0 && extent < (f as real + 1.0) * cell
    ensures extent >= cell ==> f >= 1
  {
    if extent >= cell {
      ScaleCancel(1.0, f as real + 1.0, cell);
    }
  }

  /** `Math.floor(Math.random() * n)` when `n` is non-zero, else 0. */
  function RandomIndex(n: int, r: Unit): (i: int)
    ensures n > 0 ==> 0 <= i < n
    ensures n == 0 ==> i == 0
  {
    if n != 0 then
      assert n > 0 ==> r * n as real < n as real;
      Floor(r * n as real)
    else 0
  }

  predicate InGrid(sq: Square, cols: int, rows: int) {
    0 <= sq.col < cols && 0 <= sq.row < rows
  }

  /** The square with identity `id` placed with the `k`-th pair of draws:
      `rand(2k)` picks the column, `rand(2k + 1)` the row. */
  function Placed(id: int, cols: int, rows: int, rand: nat -> Unit, k: nat): (sq: Square)
    ensures sq.id == id
    ensures cols > 0 && rows > 0 ==> InGrid(sq, cols, rows)
  {
    Square(id, RandomIndex(cols, rand(2 * k)), RandomIndex(rows, rand(2 * k + 1)))
  }

  /** `max(0, floor(numSquares))`. */
  function SquareCount(numSquares: real): (n: nat)
    ensures numSquares < 1.0 ==> n == 0
    ensures numSquares >= 1.0 ==> n as real <= numSquares < n as real + 1.0
  {
    if numSquares < 1.0 then 0 else Floor(numSquares)
  }

  /** `rebuildSquares`: fresh squares with identities 0 to count - 1. */
  function Rebuilt(count: nat, cols: int, rows: int, rand: nat -> Unit): (sqs: seq<Square>)
    ensures |sqs| == count
    ensures forall i :: 0 <= i < count ==> sqs[i].id == i
    ensures cols > 0 && rows > 0 ==> forall i :: 0 <= i < count ==> InGrid(sqs[i], cols, rows)
  {
    seq(count, i requires 0 <= i < count => Placed(i, cols, rows, rand, i))
  }

  /** Every square moved to a new random cell, in place: count, order and
      identities are kept. */
  function Repositioned(sqs: seq<Square>, cols: int, rows: int, rand: nat -> Unit): (r: seq<Square>)
    ensures |r| == |sqs|
    ensures forall i :: 0 <= i < |r| ==> r[i].id == sqs[i].id
    ensures cols > 0 && rows > 0 ==> forall i :: 0 <= i < |r| ==> InGrid(r[i], cols, rows)
  {
    seq(|sqs|, i requires 0 <= i < |sqs| => Placed(sqs[i].id, cols, rows, rand, i))
  }

  /** The drawn rectangle of a square: one pixel in from its cell's corner. */
  function SquareX(sq: Square, cellWidth: real): (x: real)
    ensures sq.col >= 0 && cellWidth >= 0.0 ==> x >= 1.0
    ensures cellWidth > 1.0 ==> sq.col as real * cellWidth < x < (sq.col + 1) as real * cellWidth
  {
    sq.col as real * cellWidth + 1.0
  }

  function SquareY(sq: Square, cellHeight: real): (y: real)
    ensures sq.row >= 0 && cellHeight >= 0.0 ==> y >= 1.0
    ensures cellHeight > 1.0 ==> sq.row as real * cellHeight < y < (sq.row + 1) as real * cellHeight
  {
    sq.row as real * cellHeight + 1.0
  }

  /** The drawn size, never below one pixel. */
  function SquareSize(cell: real): (s: real)
    ensures s >= 1.0
    ensures cell >= 2.0 ==> s == cell - 1.0
  {
    Max(1.0, cell - 1.0)
  }

  /** With cells of at least two pixels a square stays inside its own
      cell, so squares in different columns never overlap. */
  lemma SquareInsideCell(sq: Square, other: Square, cellWidth: real)
    requires cellWidth >= 2.0
    ensures sq.col as real * cellWidth < SquareX(sq, cellWidth)
    ensures SquareX(sq, cellWidth) + SquareSize(cellWidth) == (sq.col + 1) as real * cellWidth
    ensures sq.col < other.col ==> SquareX(sq, cellWidth) + SquareSize(cellWidth) < SquareX(other, cellWidth)
  {
    assert (sq.col + 1) as real * cellWidth == sq.col as real * cellWidth + cellWidth;
    if sq.col < other.col {
      ScaleBelow((sq.col + 1) as real, other.col as real, cellWidth);
      assert SquareX(other, cellWidth) == other.col as real * cellWidth + 1.0;
    }
  }

  /** The inputs whose change rebuilds the squares. */
  const ResetInputs: set<string> := {"numSquares", "cellWidth", "cellHeight", "duration", "repeatDelay", "maxOpacity"}

  class AnimatedGridBg {
    var cellWidth: real
    var cellHeight: real
    var numSquares: real

    var squares: seq<Square>
    var cols: int
    var rows: int
    var containerW: real
    var containerH: real
    var rafPending: bool
    var animationsStarted: bool
    /** Whether the resize observer exists, i.e. the view is initialised. */
    var observing: bool
    /** Frames requested to call `startAnimations`. */
    var pendingStarts: nat
    /** Square loops started since the last reset, and resets so far. */
    var loopsStarted: nat
    var aborts: nat

    constructor (cellWidth: real, cellHeight: real, numSquares: real)
      ensures this.cellWidth == cellWidth && this.cellHeight == cellHeight && this.numSquares == numSquares
      ensures squares == [] && cols == 0 && rows == 0 && containerW == 0.0 && containerH == 0.0
      ensures !rafPending && !animationsStarted && !observing
      ensures pendingStarts == 0 && loopsStarted == 0 && aborts == 0
    {
      this.cellWidth := cellWidth;
      this.cellHeight := cellHeight;
      this.numSquares := numSquares;
      squares := [];
      cols, rows := 0, 0;
      containerW, containerH := 0.0, 0.0;
      rafPending := false;
      animationsStarted := false;
      observing := false;
      pendingStarts, loopsStarted, aborts := 0, 0, 0;
    }

    method RebuildSquares(rand: nat -> Unit)
      modifies this`squares
      ensures squares == Rebuilt(SquareCount(numSquares), cols, rows, rand)
    {
      var count := if numSquares < 1.0 then 0 else Floor(numSquares);
      var c, r := cols, rows;
      squares := seq(count, i requires 0 <= i < count => Placed(i, c, r, rand, i));
    }

    /** `onResize`: recompute the grid; build the squares if there are
        none yet, otherwise move each one to a new random cell. */
    method OnResize(width: real, height: real, rand: nat -> Unit)
      modifies this`cols, this`rows, this`squares, this`pendingStarts
      ensures cols == CellCount(width, cellWidth) && rows == CellCount(height, cellHeight)
      ensures old(squares) == [] ==>
                squares == Rebuilt(SquareCount(numSquares), cols, rows, rand) &&
                pendingStarts == old(pendingStarts) + 1
      ensures old(squares) != [] ==>
                squares == Repositioned(old(squares), cols, rows, rand) &&
                pendingStarts == old(pendingStarts)
      ensures forall i :: 0 <= i < |squares| ==> InGrid(squares[i], cols, rows)
    {
      cols := CellCount(width, cellWidth);
      rows := CellCount(height, cellHeight);
      if |squares| == 0 {
        RebuildSquares(rand);
        pendingStarts := pendingStarts + 1;
        return;
      }
      var c, r := cols, rows;
      ghost var before := squares;
      var i := 0;
      while i < |squares|
        invariant 0 <= i <= |squares| == |before|
        modifies this`squares
        invariant forall j :: 0 <= j < i ==> squares[j] == Placed(before[j].id, c, r, rand, j)
        invariant forall j :: i <= j < |squares| ==> squares[j] == before[j]
      {
        var sq := squares[i];
        var next := (RandomIndex(c, rand(2 * i)), RandomIndex(r, rand(2 * i + 1)));
        squares := squares[i := Square(sq.id, next.0, next.1)];
        i := i + 1;
      }
    }

    /** `scheduleResize`: always remember the latest size; request a frame
        only when none is pending. */
    method ScheduleResize(width: real, height: real)
      modifies this`containerW, this`containerH, this`rafPending
      ensures containerW == width && containerH == height && rafPending
    {
      containerW := width;
      containerH := height;
      if rafPending {
        return;
      }
      rafPending := true;
    }

    /** The resize frame fires with the size recorded last. */
    method ResizeFrame(rand: nat -> Unit)
      requires rafPending
      modifies this`rafPending, this`cols, this`rows, this`squares, this`pendingStarts
      ensures !rafPending
      ensures cols == CellCount(containerW, cellWidth) && rows == CellCount(containerH, cellHeight)
      ensures old(squares) == [] ==>
                squares == Rebuilt(SquareCount(numSquares), cols, rows, rand) &&
                pendingStarts == old(pendingStarts) + 1
      ensures old(squares) != [] ==>
                squares == Repositioned(old(squares), cols, rows, rand) &&
                pendingStarts == old(pendingStarts)
      ensures |old(squares)| > 0 ==> |squares| == |old(squares)|
      ensures forall i :: 0 <= i < |squares| ==> InGrid(squares[i], cols, rows)
    {
      rafPending := false;
      OnResize(containerW, containerH, rand);
    }

    /** `startAnimations`: `elementCount` squares are rendered; loops start
        once, and only when there is something to animate. */
    method StartAnimations(elementCount: nat)
      modifies this`animationsStarted, this`loopsStarted
      ensures old(animationsStarted) || elementCount == 0 ==>
                animationsStarted == old(animationsStarted) && loopsStarted == old(loopsStarted)
      ensures !old(animationsStarted) && elementCount > 0 ==>
                animationsStarted && loopsStarted == old(loopsStarted) + elementCount
    {
      if animationsStarted {
        return;
      }
      if elementCount == 0 {
        return;
      }
      animationsStarted := true;
      loopsStarted := loopsStarted + elementCount;
    }

    /** A frame requested to start the animations fires. */
    method StartFrame(elementCount: nat)
      requires pendingStarts > 0
      modifies this`pendingStarts, this`animationsStarted, this`loopsStarted
      ensures pendingStarts == old(pendingStarts) - 1
      ensures old(animationsStarted) || elementCount == 0 ==>
                animationsStarted == old(animationsStarted) && loopsStarted == old(loopsStarted)
      ensures !old(animationsStarted) && elementCount > 0 ==>
                animationsStarted && loopsStarted == old(loopsStarted) + elementCount
    {
      pendingStarts := pendingStarts - 1;
      StartAnimations(elementCount);
    }

    /** `resetAnimations`: abort the running loops and allow a new start. */
    method ResetAnimations()
      modifies this`animationsStarted, this`loopsStarted, this`aborts
      ensures !animationsStarted && loopsStarted == 0 && aborts == old(aborts) + 1
    {
      aborts := aborts + 1;
      loopsStarted := 0;
      animationsStarted := false;
    }

    /** `ngAfterViewInit`: observe the host, size the grid, build the
        squares and request a start. */
    method AfterViewInit(width: real, height: real, rand: nat -> Unit)
      modifies this`observing, this`cols, this`rows, this`squares, this`pendingStarts
      ensures observing
      ensures cols == CellCount(width, cellWidth) && rows == CellCount(height, cellHeight)
      ensures squares == Rebuilt(SquareCount(numSquares), cols, rows, rand)
      ensures old(squares) == [] ==> pendingStarts == old(pendingStarts) + 2
      ensures old(squares) != [] ==> pendingStarts == old(pendingStarts) + 1
    {
      observing := true;
      OnResize(width, height, rand);
      RebuildSquares(rand);
      pendingStarts := pendingStarts + 1;
    }

    /** `ngOnChanges`: before the view is initialised nothing happens;
        afterwards only a change of one of the six layout or timing
        inputs rebuilds the squares and restarts the animations. */
    method NgOnChanges(changed: set<string>, rand: nat -> Unit)
      modifies this`squares, this`animationsStarted, this`loopsStarted, this`aborts, this`pendingStarts
      ensures !observing || changed * ResetInputs == {} ==>
                squares == old(squares) && animationsStarted == old(animationsStarted) &&
                loopsStarted == old(loopsStarted) &&
                aborts == old(aborts) && pendingStarts == old(pendingStarts)
      ensures observing && changed * ResetInputs != {} ==>
                squares == Rebuilt(SquareCount(numSquares), cols, rows, rand) &&
                !animationsStarted && loopsStarted == 0 && aborts == old(aborts) + 1 &&
                pendingStarts == old(pendingStarts) + 1
    {
      if !observing {
        return;
      }
      var shouldReset :=
        "numSquares" in changed || "cellWidth" in changed || "cellHeight" in changed ||
        "duration" in changed || "repeatDelay" in changed || "maxOpacity" in changed;
      if !shouldReset {
        assert changed * ResetInputs == {} by {
          forall x | x in changed * ResetInputs ensures false {
          }
        }
        return;
      }
      assert changed * ResetInputs != {} by {
        if "numSquares" in changed { assert "numSquares" in changed * ResetInputs; }
        else if "cellWidth" in changed { assert "cellWidth" in changed * ResetInputs; }
        else if "cellHeight" in changed { assert "cellHeight" in changed * ResetInputs; }
        else if "duration" in changed { assert "duration" in changed * ResetInputs; }
        else if "repeatDelay" in changed { assert "repeatDelay" in changed * ResetInputs; }
        else { assert "maxOpacity" in changed * ResetInputs; }
      }
      ResetAnimations();
      RebuildSquares(rand);
      pendingStarts := pendingStarts + 1;
    }
  }
}
