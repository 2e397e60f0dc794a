/**
 * The board engine (`src/game/board.ts`): the 20x10 well, the collision test,
 * locking a piece into the board, clearing full rows, spawning, the
 * three-corner T-spin test and moving a piece by an offset.
 *
 * A board is a value: every operation returns a new board and leaves its
 * argument as it was, as the source does by copying rows before writing.
 */
module BoardRules {
  import opened Types
  import opened Tetromino

  const Width: int := 10
  const Height: int := 20

  /** `COLORS`: the colour tag written into the cells of a locked piece. */
  function Colour(t: PieceType): string {
    match t
    case I => "#60a5fa"
    case O => "#facc15"
    case T => "#c084fc"
    case J => "#38bdf8"
    case L => "#fb923c"
    case S => "#4ade80"
    case Z => "#f87171"
  }

  /** 20 rows of 10 cells. */
  predicate WellFormed(b: Board) {
    |b| == Height && forall y :: 0 <= y < |b| ==> |b[y]| == Width
  }

  function EmptyRow(): (row: Row)
    ensures |row| == Width && forall x :: 0 <= x < |row| ==> row[x] == Empty
  {
    seq(Width, _ => Empty)
  }

  /** `createEmptyBoard`: 20 rows of 10 empty cells. */
  function CreateEmptyBoard(): (b: Board)
    ensures WellFormed(b)
    ensures forall y :: 0 <= y < |b| ==> b[y] == EmptyRow()
  {
    seq(Height, _ => EmptyRow())
  }

  // ---------------------------------------------------------------- canMove

  /**
   * A board position a piece cell may not take: left of the left wall, right
   * of the right wall, below the floor, or an occupied cell. Positions above
   * the top row never block.
   */
  predicate Blocked(board: Board, x: int, y: int)
    requires WellFormed(board)
  {
    x < 0 || x >= Width || y >= Height || (y >= 0 && board[y][x] != Empty)
  }

  /** The cell (sx, sy) of the matrix `m`, with its box at (px, py), is occupied and lands on a blocked position. */
  predicate CellCollides(m: Matrix, px: int, py: int, board: Board, sx: int, sy: int)
    requires Is4x4(m) && WellFormed(board) && 0 <= sy < 4 && 0 <= sx < 4
  {
    m[sy][sx] != 0 && Blocked(board, px + sx, py + sy)
  }

  /** The matrix `m` with its box at (px, py) overlaps no wall, floor or locked cell. */
  predicate FitsAt(m: Matrix, px: int, py: int, board: Board)
    requires Is4x4(m) && WellFormed(board)
  {
    forall sy, sx :: 0 <= sy < 4 && 0 <= sx < 4 ==> !CellCollides(m, px, py, board, sx, sy)
  }

  /** The piece, in orientation `r` and moved by (dx, dy), overlaps no wall, floor or locked cell. */
  predicate Fits(piece: ActivePiece, board: Board, dx: int, dy: int, r: nat)
    requires WellFormed(board)
  {
    FitsAt(RotationMatrix(piece.kind, r), piece.position.x + dx, piece.position.y + dy, board)
  }

  /**
   * `canMove(piece, board, offsetX, offsetY, rotationIndex)`: takes the
   * matrix of the requested orientation and scans it.
   */
  method CanMove(piece: ActivePiece, board: Board, offsetX: int, offsetY: int, rotation: nat) returns (ok: bool)
    requires WellFormed(board)
    ensures ok == Fits(piece, board, offsetX, offsetY, rotation)
  {
    var matrix := RotationMatrix(piece.kind, rotation);
    ok := ScanMatrix(matrix, piece.position.x + offsetX, piece.position.y + offsetY, board);
  }

  /**
   * The scan loop of `canMove`: row by row, cell by cell, answers false at
   * the first occupied cell whose board position is blocked.
   */
  method ScanMatrix(matrix: Matrix, px: int, py: int, board: Board) returns (ok: bool)
    requires Is4x4(matrix) && WellFormed(board)
    ensures ok == FitsAt(matrix, px, py, board)
  {
    var y := 0;
    while y < |matrix|
      invariant 0 <= y <= 4
      invariant forall sy, sx :: 0 <= sy < y && 0 <= sx < 4 ==> !CellCollides(matrix, px, py, board, sx, sy)
    {
      var x := 0;
      while x < |matrix[y]|
        invariant 0 <= x <= 4
        invariant forall sy, sx :: 0 <= sy < y && 0 <= sx < 4 ==> !CellCollides(matrix, px, py, board, sx, sy)
        invariant forall sx :: 0 <= sx < x ==> !CellCollides(matrix, px, py, board, sx, y)
      {
        if matrix[y][x] != 0 {
          var newX := px + x;
          var newY := py + y;
          if newX < 0 || newX >= Width {
            assert CellCollides(matrix, px, py, board, x, y);
            return false;
          }
          if newY >= Height {
            assert CellCollides(matrix, px, py, board, x, y);
            return false;
          }
          if newY >= 0 && board[newY][newX] != Empty {
            assert CellCollides(matrix, px, py, board, x, y);
            return false;
          }
        }
        x := x + 1;
      }
      y := y + 1;
    }
    return true;
  }

  // ----------------------------------------------------------- advancePosition

  /** `advancePosition`: the piece moved by the offset, kind and orientation kept. */
  function AdvancePosition(piece: ActivePiece, offset: Position): (r: ActivePiece)
    ensures r.kind == piece.kind && r.rotation == piece.rotation
    ensures r.position.x - piece.position.x == offset.x && r.position.y - piece.position.y == offset.y
  {
    piece.(position := Position(piece.position.x + offset.x, piece.position.y + offset.y))
  }

  /** Testing a piece at an offset is testing the piece advanced by that offset. */
  lemma FitsAfterAdvance(piece: ActivePiece, board: Board, offset: Position, dx: int, dy: int, r: nat)
    requires WellFormed(board)
    ensures Fits(AdvancePosition(piece, offset), board, dx, dy, r) == Fits(piece, board, offset.x + dx, offset.y + dy, r)
  {
    var moved := AdvancePosition(piece, offset);
    assert moved.position.x + dx == piece.position.x + (offset.x + dx);
    assert moved.position.y + dy == piece.position.y + (offset.y + dy);
  }

  // ------------------------------------------------------------- createPiece

  /** `createPiece`: a new piece in orientation 0 with its box at column `floor(10 / 2) - 2` and row -1. */
  function CreatePiece(t: PieceType): (p: ActivePiece)
    ensures p.kind == t && p.rotation == 0 && p.position == Position(3, -1)
  {
    ActivePiece(t, 0, Position(Width / 2 - 2, -1))
  }

  /** A new piece always fits on an empty board: its box spans columns 3..6 and rows -1..2. */
  lemma SpawnFitsEmptyBoard(t: PieceType)
    ensures Fits(CreatePiece(t), CreateEmptyBoard(), 0, 0, 0)
  {
    var b, p := CreateEmptyBoard(), CreatePiece(t);
    forall sy, sx | 0 <= sy < 4 && 0 <= sx < 4
      ensures !CellCollides(RotationMatrix(t, 0), 3, -1, b, sx, sy)
    {
      if -1 + sy >= 0 {
        assert b[-1 + sy] == EmptyRow();
      }
    }
  }

  // ------------------------------------------------------- mergePieceToBoard

  /** The board cell (cx, cy) lies under an occupied cell of the piece's current matrix. */
  predicate Covers(piece: ActivePiece, cx: int, cy: int) {
    var m := RotationMatrix(piece.kind, piece.rotation);
    var sx, sy := cx - piece.position.x, cy - piece.position.y;
    0 <= sy < 4 && 0 <= sx < 4 && m[sy][sx] != 0
  }

  /**
   * The board with the piece locked in: every cell under the piece takes the
   * piece's colour, every other cell is as before; the parts of the piece
   * outside the well are dropped. Locking never empties a cell.
   */
  function Merged(board: Board, piece: ActivePiece): (r: Board)
    requires WellFormed(board)
    ensures WellFormed(r)
    ensures forall y, x :: 0 <= y < Height && 0 <= x < Width && !Covers(piece, x, y) ==> r[y][x] == board[y][x]
    ensures forall y, x :: 0 <= y < Height && 0 <= x < Width ==>
      (r[y][x] != Empty <==> board[y][x] != Empty || Covers(piece, x, y))
  {
    var colour := Colour(piece.kind);
    seq(Height, y requires 0 <= y < Height => seq(Width, x requires 0 <= x < Width =>
      if Covers(piece, x, y) then Filled(colour) else board[y][x]))
  }

  /** Every occupied cell of the piece's matrix that lands inside the well holds the piece's colour after locking. */
  lemma MergedLocksPiece(board: Board, piece: ActivePiece, sx: int, sy: int)
    requires WellFormed(board) && 0 <= sy < 4 && 0 <= sx < 4
    requires RotationMatrix(piece.kind, piece.rotation)[sy][sx] != 0
    requires 0 <= piece.position.y + sy < Height && 0 <= piece.position.x + sx < Width
    ensures Merged(board, piece)[piece.position.y + sy][piece.position.x + sx] == Filled(Colour(piece.kind))
  {
    var x, y := piece.position.x + sx, piece.position.y + sy;
    assert x - piece.position.x == sx && y - piece.position.y == sy;
    assert Covers(piece, x, y);
  }

  /** After locking, a piece with any cell inside the well no longer fits where it was locked. */
  lemma MergedBlocksPiece(board: Board, piece: ActivePiece, sx: int, sy: int)
    requires WellFormed(board) && 0 <= sy < 4 && 0 <= sx < 4
    requires RotationMatrix(piece.kind, piece.rotation)[sy][sx] != 0
    requires 0 <= piece.position.y + sy < Height && 0 <= piece.position.x + sx < Width
    ensures !Fits(piece, Merged(board, piece), 0, 0, piece.rotation)
  {
    var m, merged := RotationMatrix(piece.kind, piece.rotation), Merged(board, piece);
    MergedLocksPiece(board, piece, sx, sy);
    assert CellCollides(m, piece.position.x + 0, piece.position.y + 0, merged, sx, sy);
  }

  /** The cells of `Merged` written by the matrix cells before (x, y) in row-major order; the old cells elsewhere. */
  ghost function MergedSoFar(board: Board, piece: ActivePiece, cx: int, cy: int, x: int, y: int): Cell
    requires WellFormed(board) && 0 <= cy < Height && 0 <= cx < Width
  {
    var sx, sy := cx - piece.position.x, cy - piece.position.y;
    if Covers(piece, cx, cy) && (sy < y || (sy == y && sx < x)) then Filled(Colour(piece.kind)) else board[cy][cx]
  }

  /** `merged` holds the writes of the matrix cells before (x, y) and the old cells elsewhere. */
  ghost predicate MergedUpTo(merged: Board, board: Board, piece: ActivePiece, x: int, y: int)
    requires WellFormed(board)
  {
    WellFormed(merged) &&
    forall cy, cx :: 0 <= cy < Height && 0 <= cx < Width ==> merged[cy][cx] == MergedSoFar(board, piece, cx, cy, x, y)
  }

  /** Writing the colour under the occupied matrix cell (x, y) extends the merge by that cell. */
  lemma MergeCell(merged: Board, board: Board, piece: ActivePiece, x: int, y: int)
    requires WellFormed(board) && MergedUpTo(merged, board, piece, x, y) && 0 <= y < 4 && 0 <= x < 4
    requires RotationMatrix(piece.kind, piece.rotation)[y][x] != 0
    requires 0 <= piece.position.y + y < Height && 0 <= piece.position.x + x < Width
    ensures MergedUpTo(merged[piece.position.y + y := merged[piece.position.y + y][piece.position.x + x := Filled(Colour(piece.kind))]],
      board, piece, x + 1, y)
  {
  }

  /** An empty matrix cell, or one whose board position is outside the well, writes nothing. */
  lemma SkipMergeCell(merged: Board, board: Board, piece: ActivePiece, x: int, y: int)
    requires WellFormed(board) && MergedUpTo(merged, board, piece, x, y) && 0 <= y < 4 && 0 <= x < 4
    requires RotationMatrix(piece.kind, piece.rotation)[y][x] == 0 ||
      !(0 <= piece.position.y + y < Height && 0 <= piece.position.x + x < Width)
    ensures MergedUpTo(merged, board, piece, x + 1, y)
  {
  }

  /** Once the whole matrix is passed, the merge is complete. */
  lemma MergeDone(merged: Board, board: Board, piece: ActivePiece)
    requires WellFormed(board) && MergedUpTo(merged, board, piece, 0, 4)
    ensures merged == Merged(board, piece)
  {
    var r := Merged(board, piece);
    forall cy | 0 <= cy < Height
      ensures merged[cy] == r[cy]
    {
    }
  }

  /** `mergePieceToBoard`: copies the board and writes the piece's colour under its occupied cells. */
  method MergePieceToBoard(board: Board, piece: ActivePiece) returns (merged: Board)
    requires WellFormed(board)
    ensures merged == Merged(board, piece)
  {
    var matrix := RotationMatrix(piece.kind, piece.rotation);
    merged := board;
    var y := 0;
    while y < |matrix|
      invariant 0 <= y <= 4
      invariant MergedUpTo(merged, board, piece, 0, y)
    {
      var x := 0;
      while x < |matrix[y]|
        invariant 0 <= x <= 4
        invariant MergedUpTo(merged, board, piece, x, y)
      {
        var boardX := piece.position.x + x;
        var boardY := piece.position.y + y;
        if matrix[y][x] != 0 && 0 <= boardY < Height && 0 <= boardX < Width {
          MergeCell(merged, board, piece, x, y);
          merged := merged[boardY := merged[boardY][boardX := Filled(Colour(piece.kind))]];
        } else {
          SkipMergeCell(merged, board, piece, x, y);
        }
        x := x + 1;
      }
      y := y + 1;
    }
    MergeDone(merged, board, piece);
  }

  // ----------------------------------------------------- clearCompletedLines

  /** A row with no empty cell. */
  predicate IsFull(row: Row) {
    forall x :: 0 <= x < |row| ==> row[x] != Empty
  }

  /** The rows of `b` that are not full, in their order. */
  function Kept(b: Board): (k: Board)
    ensures |k| <= |b|
  {
    if |b| == 0 then []
    else if IsFull(b[|b| - 1]) then Kept(b[..|b| - 1])
    else Kept(b[..|b| - 1]) + [b[|b| - 1]]
  }

  /** The number of full rows of `b`. */
  function CountFull(b: Board): (n: nat)
    ensures n + |Kept(b)| == |b|
  {
    if |b| == 0 then 0
    else if IsFull(b[|b| - 1]) then CountFull(b[..|b| - 1]) + 1
    else CountFull(b[..|b| - 1])
  }

  function EmptyRows(k: nat): (rows: Board)
    ensures |rows| == k && forall y :: 0 <= y < k ==> rows[y] == EmptyRow()
  {
    seq(k, _ => EmptyRow())
  }

  /** The board after clearing: one empty row on top for every cleared row, then the kept rows. */
  function Cleared(b: Board): (r: Board)
    requires WellFormed(b)
    ensures |r| == Height
  {
    EmptyRows(CountFull(b)) + Kept(b)
  }

  /** `clearCompletedLines`: keeps the rows that are not full, counts the others and pads the top with empty rows. */
  method ClearCompletedLines(board: Board) returns (result: Board, clearedLines: nat)
    requires WellFormed(board)
    ensures result == Cleared(board) && clearedLines == CountFull(board)
  {
    var remaining: Board := [];
    var cleared := 0;
    var y := 0;
    while y < Height
      invariant 0 <= y <= Height
      invariant remaining == Kept(board[..y]) && cleared == CountFull(board[..y])
    {
      var row := board[y];
      assert board[..y + 1][..y] == board[..y];
      if IsFull(row) {
        cleared := cleared + 1;
      } else {
        remaining := remaining + [row];
      }
      y := y + 1;
    }
    assert board[..Height] == board;
    while |remaining| < Height
      invariant |Kept(board)| <= |remaining| <= Height
      invariant remaining == EmptyRows(|remaining| - |Kept(board)|) + Kept(board)
    {
      remaining := [EmptyRow()] + remaining;
    }
    return remaining, cleared;
  }

  /** Every row of `Kept(b)` is a row of `b` that is not full. */
  lemma {:induction false} KeptRows(b: Board)
    ensures forall i :: 0 <= i < |Kept(b)| ==> !IsFull(Kept(b)[i]) && Kept(b)[i] in b
  {
    if |b| > 0 {
      KeptRows(b[..|b| - 1]);
    }
  }

  /** A board without full rows is kept whole. */
  lemma {:induction false} KeptAll(b: Board)
    requires forall i :: 0 <= i < |b| ==> !IsFull(b[i])
    ensures Kept(b) == b && CountFull(b) == 0
  {
    if |b| > 0 {
      KeptAll(b[..|b| - 1]);
      assert b[..|b| - 1] + [b[|b| - 1]] == b;
    }
  }

  /**
   * The cleared board: 20 rows of 10 cells, an empty row on top for every
   * full row of the input, then the other rows in their order; no row is full.
   */
  lemma ClearedShape(b: Board)
    requires WellFormed(b)
    ensures WellFormed(Cleared(b))
    ensures forall y :: 0 <= y < CountFull(b) ==> Cleared(b)[y] == EmptyRow()
    ensures Cleared(b)[CountFull(b)..] == Kept(b)
    ensures forall y :: 0 <= y < Height ==> !IsFull(Cleared(b)[y])
  {
    var r, n := Cleared(b), CountFull(b);
    KeptRows(b);
    forall y | 0 <= y < Height
      ensures |r[y]| == Width && !IsFull(r[y])
    {
      if y < n {
        assert r[y] == EmptyRow() && r[y][0] == Empty;
      } else {
        assert r[y] == Kept(b)[y - n];
        assert r[y] in b;
      }
    }
  }

  /** Clearing twice clears nothing more: the second call finds no full row. */
  lemma ClearIdempotent(b: Board)
    requires WellFormed(b)
    ensures WellFormed(Cleared(b)) && CountFull(Cleared(b)) == 0 && Cleared(Cleared(b)) == Cleared(b)
  {
    ClearedShape(b);
    KeptAll(Cleared(b));
  }

  // ------------------------------------------------------------ getTSpinType

  /** `T_SPIN_CORNER_OFFSETS`: the corners of the T's 3x3 box. */
  const CornerOffsets: seq<Position> := [Position(0, 0), Position(2, 0), Position(0, 2), Position(2, 2)]

  /** A corner counts when it is outside the well or occupied. */
  predicate CornerFilled(board: Board, x: int, y: int)
    requires WellFormed(board)
  {
    y < 0 || y >= Height || x < 0 || x >= Width || board[y][x] != Empty
  }

  /** How many of the first `k` corners around `origin` count. */
  function FilledCorners(board: Board, origin: Position, k: nat): (n: nat)
    requires WellFormed(board) && k <= 4
    ensures n <= k
  {
    if k == 0 then 0
    else
      var c := CornerOffsets[k - 1];
      FilledCorners(board, origin, k - 1) + (if CornerFilled(board, origin.x + c.x, origin.y + c.y) then 1 else 0)
  }

  /** The T-spin kind `getTSpinType` reports. */
  function TSpinOf(board: Board, piece: ActivePiece, wasRotated: bool, clearedLines: int): TSpinKind
    requires WellFormed(board)
  {
    if !wasRotated || piece.kind != T then NoSpin
    else if FilledCorners(board, piece.position, 4) < 3 then NoSpin
    else if clearedLines >= 3 then Triple
    else if clearedLines == 2 then Double
    else Mini
  }

  /**
   * The three-corner rule: a spin needs a rotated T with at least three of
   * its four box corners filled; it is a triple from three cleared lines on,
   * a double at exactly two, and a mini otherwise, even with no line cleared.
   */
  lemma TSpinRule(board: Board, piece: ActivePiece, wasRotated: bool, clearedLines: int)
    requires WellFormed(board)
    ensures var spin := wasRotated && piece.kind == T && FilledCorners(board, piece.position, 4) >= 3;
      var kind := TSpinOf(board, piece, wasRotated, clearedLines);
      (kind == NoSpin <==> !spin) &&
      (kind == Triple <==> spin && clearedLines >= 3) &&
      (kind == Double <==> spin && clearedLines == 2) &&
      (kind == Mini <==> spin && clearedLines < 3 && clearedLines != 2)
  {
  }

  /** `getTSpinType`: counts the filled corners in a loop and classifies the spin. */
  method GetTSpinType(board: Board, piece: ActivePiece, wasRotated: bool, clearedLines: int) returns (kind: TSpinKind)
    requires WellFormed(board)
    ensures kind == TSpinOf(board, piece, wasRotated, clearedLines)
  {
    if !wasRotated || piece.kind != T {
      return NoSpin;
    }
    var originX := piece.position.x;
    var originY := piece.position.y;
    var filledCorners := 0;
    for k := 0 to 4
      invariant filledCorners == FilledCorners(board, piece.position, k)
    {
      var x := originX + CornerOffsets[k].x;
      var y := originY + CornerOffsets[k].y;
      if y < 0 || y >= Height || x < 0 || x >= Width || board[y][x] != Empty {
        filledCorners := filledCorners + 1;
      }
    }
    if filledCorners < 3 {
      return NoSpin;
    }
    if clearedLines >= 3 {
      return Triple;
    }
    if clearedLines == 2 {
      return Double;
    }
    if clearedLines >= 1 {
      return Mini;
    }
    return Mini;
  }
}
