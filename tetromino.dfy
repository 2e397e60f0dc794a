/**
 * The piece catalogue (`src/game/tetromino.ts`): the seven 4x4 base shapes, the
 * per-kind pivots, the four orientations derived from them by rotation, the
 * orientation lookup and the 7-bag shuffle.
 */
module Tetromino {
  import opened Types

  /**
   * A square shape matrix, indexed `m[y][x]`. The source stores numbers and
   * treats any non-zero entry as an occupied cell; the base shapes use 0 and 1.
   */
  type Matrix = seq<seq<int>>

  predicate IsSquare(m: Matrix) {
    forall y :: 0 <= y < |m| ==> |m[y]| == |m|
  }

  predicate Is4x4(m: Matrix) {
    |m| == 4 && IsSquare(m)
  }

  /** `TETROMINO_TYPES`. */
  const AllTypes: seq<PieceType> := [I, O, T, J, L, S, Z]

  /** `TETROMINO_TYPES` lists every kind exactly once. */
  lemma AllTypesOnce(t: PieceType)
    ensures multiset(AllTypes)[t] == 1
  {
  }

  /** Any permutation of `TETROMINO_TYPES` holds every kind exactly once. */
  lemma EachKindOnce(bag: seq<PieceType>)
    requires multiset(bag) == multiset(AllTypes)
    ensures |bag| == 7 && forall t :: multiset(bag)[t] == 1
  {
    assert |bag| == |multiset(bag)| == |multiset(AllTypes)| == 7;
    forall t: PieceType
      ensures multiset(bag)[t] == 1
    {
      AllTypesOnce(t);
    }
  }

  /** `BASE_SHAPES`: the spawn pose of every kind. */
  function BaseShape(t: PieceType): (m: Matrix)
    ensures Is4x4(m)
  {
    match t
    case I => [[0, 0, 0, 0], [1, 1, 1, 1], [0, 0, 0, 0], [0, 0, 0, 0]]
    case O => [[0, 1, 1, 0], [0, 1, 1, 0], [0, 0, 0, 0], [0, 0, 0, 0]]
    case T => [[0, 1, 0, 0], [1, 1, 1, 0], [0, 0, 0, 0], [0, 0, 0, 0]]
    case J => [[1, 0, 0, 0], [1, 1, 1, 0], [0, 0, 0, 0], [0, 0, 0, 0]]
    case L => [[0, 0, 1, 0], [1, 1, 1, 0], [0, 0, 0, 0], [0, 0, 0, 0]]
    case S => [[0, 1, 1, 0], [1, 1, 0, 0], [0, 0, 0, 0], [0, 0, 0, 0]]
    case Z => [[1, 1, 0, 0], [0, 1, 1, 0], [0, 0, 0, 0], [0, 0, 0, 0]]
  }

  /**
   * A rotation pivot with both coordinates doubled, so that the half-cell
   * pivot (1.5, 1.5) of I and O is the integer point (3, 3).
   */
  datatype Pivot = Pivot(x2: int, y2: int)

  /** `TETROMINO_PIVOTS`. */
  function PivotOf(t: PieceType): Pivot {
    match t
    case I => Pivot(3, 3)
    case O => Pivot(3, 3)
    case _ => Pivot(2, 2)
  }

  /** Both pivot coordinates are integers, or both are halves of odd integers. */
  predicate OnLattice(p: Pivot) {
    (p.x2 + p.y2) % 2 == 0
  }

  /** `Math.round(v2 / 2)`: JavaScript rounds a half towards positive infinity. */
  function RoundHalf(v2: int): int {
    (v2 + 1) / 2
  }

  /** The rounded column `round(px - (y - py))` where the cell (x, y) lands. */
  function TargetX(p: Pivot, x: int, y: int): int {
    RoundHalf(p.x2 + p.y2 - 2 * y)
  }

  /** The rounded row `round(py + (x - px))` where the cell (x, y) lands. */
  function TargetY(p: Pivot, x: int, y: int): int {
    RoundHalf(p.y2 - p.x2 + 2 * x)
  }

  /** Every pivot of the table is on the lattice. */
  lemma PivotsOnLattice(t: PieceType)
    ensures OnLattice(PivotOf(t))
  {
  }

  /** `px + py`, an integer for a pivot on the lattice. */
  function PivotSum(p: Pivot): (s: int)
    requires OnLattice(p)
    ensures 2 * s == p.x2 + p.y2
  {
    (p.x2 + p.y2) / 2
  }

  /** `py - px`, an integer for a pivot on the lattice. */
  function PivotDiff(p: Pivot): (d: int)
    requires OnLattice(p)
    ensures 2 * d == p.y2 - p.x2
  {
    (p.y2 - p.x2) / 2
  }

  /**
   * On the lattice the rotated coordinates `(px + py - y, py - px + x)` are
   * integers already, so `Math.round` changes nothing.
   */
  lemma RoundingIsExact(p: Pivot, x: int, y: int)
    requires OnLattice(p)
    ensures TargetX(p, x, y) == PivotSum(p) - y
    ensures TargetY(p, x, y) == PivotDiff(p) + x
  {
    var s, d := PivotSum(p), PivotDiff(p);
    assert p.x2 + p.y2 - 2 * y + 1 == 2 * (s - y) + 1;
    assert p.y2 - p.x2 + 2 * x + 1 == 2 * (d + x) + 1;
  }

  /**
   * The matrix `rotateMatrix` builds, described cell by cell: the cell (tx, ty)
   * holds the entry of the unique source cell that lands there,
   * (ty - (py - px), (px + py) - tx), when that is inside the matrix, and 0 otherwise.
   */
  function Rotated(m: Matrix, p: Pivot): (r: Matrix)
    requires IsSquare(m) && OnLattice(p)
    ensures |r| == |m| && IsSquare(r)
  {
    RotatedRows(m, p, |m|)
  }

  /** The cell (tx, ty) of the rotated matrix. */
  function RotatedCell(m: Matrix, p: Pivot, tx: int, ty: int): int
    requires IsSquare(m) && OnLattice(p)
  {
    var n, s, d := |m|, PivotSum(p), PivotDiff(p);
    if 0 <= ty - d < n && 0 <= s - tx < n then m[s - tx][ty - d] else 0
  }

  /** The first `k` rows of the rotated matrix. */
  function RotatedRows(m: Matrix, p: Pivot, k: nat): (rows: Matrix)
    requires IsSquare(m) && OnLattice(p) && k <= |m|
    ensures |rows| == k && forall ty :: 0 <= ty < k ==> |rows[ty]| == |m|
  {
    if k == 0 then [] else RotatedRows(m, p, k - 1) + [seq(|m|, tx => RotatedCell(m, p, tx, k - 1))]
  }

  /** Row `ty` of `RotatedRows` holds the cells `RotatedCell(_, ty)`. */
  lemma {:induction false} RotatedRowsAt(m: Matrix, p: Pivot, k: nat, tx: int, ty: int)
    requires IsSquare(m) && OnLattice(p) && k <= |m|
    requires 0 <= ty < k && 0 <= tx < |m|
    ensures RotatedRows(m, p, k)[ty][tx] == RotatedCell(m, p, tx, ty)
  {
    if ty < k - 1 {
      RotatedRowsAt(m, p, k - 1, tx, ty);
    }
  }

  /** `Rotated`, one cell at a time. */
  lemma RotatedAt(m: Matrix, p: Pivot, tx: int, ty: int)
    requires IsSquare(m) && OnLattice(p)
    requires 0 <= ty < |m| && 0 <= tx < |m|
    ensures Rotated(m, p)[ty][tx] ==
      if 0 <= ty - PivotDiff(p) < |m| && 0 <= PivotSum(p) - tx < |m| then m[PivotSum(p) - tx][ty - PivotDiff(p)] else 0
  {
    RotatedRowsAt(m, p, |m|, tx, ty);
  }

  /** A source cell whose rotated coordinates are inside the matrix carries its entry there. */
  lemma CellLands(m: Matrix, p: Pivot, x: int, y: int)
    requires IsSquare(m) && OnLattice(p)
    requires 0 <= y < |m| && 0 <= x < |m|
    requires 0 <= TargetX(p, x, y) < |m| && 0 <= TargetY(p, x, y) < |m|
    ensures Rotated(m, p)[TargetY(p, x, y)][TargetX(p, x, y)] == m[y][x]
  {
    RoundingIsExact(p, x, y);
    var tx, ty := PivotSum(p) - y, PivotDiff(p) + x;
    RotatedAt(m, p, tx, ty);
    assert PivotSum(p) - tx == y && ty - PivotDiff(p) == x;
  }

  /** An occupied cell of the rotated matrix came from a source cell with the same entry. */
  lemma CellHasSource(m: Matrix, p: Pivot, tx: int, ty: int)
    requires IsSquare(m) && OnLattice(p)
    requires 0 <= ty < |m| && 0 <= tx < |m| && Rotated(m, p)[ty][tx] != 0
    ensures exists x, y ::
      0 <= y < |m| && 0 <= x < |m| && m[y][x] == Rotated(m, p)[ty][tx] && TargetX(p, x, y) == tx && TargetY(p, x, y) == ty
  {
    RotatedAt(m, p, tx, ty);
    var x, y := ty - PivotDiff(p), PivotSum(p) - tx;
    RoundingIsExact(p, x, y);
    assert m[y][x] == Rotated(m, p)[ty][tx] && TargetX(p, x, y) == tx && TargetY(p, x, y) == ty;
  }

  /**
   * The source's rule, read forwards: every source cell whose rotated
   * coordinates are inside the matrix carries its entry there (the others are
   * dropped), and every occupied cell of the result was put there that way.
   */
  lemma RotatedMovesCells(m: Matrix, p: Pivot)
    requires IsSquare(m) && OnLattice(p)
    ensures forall x, y ::
      (0 <= y < |m| && 0 <= x < |m| && 0 <= TargetX(p, x, y) < |m| && 0 <= TargetY(p, x, y) < |m|) ==>
      Rotated(m, p)[TargetY(p, x, y)][TargetX(p, x, y)] == m[y][x]
    ensures forall tx, ty :: 0 <= ty < |m| && 0 <= tx < |m| && Rotated(m, p)[ty][tx] != 0 ==>
      exists x, y :: 0 <= y < |m| && 0 <= x < |m| && m[y][x] == Rotated(m, p)[ty][tx] &&
        TargetX(p, x, y) == tx && TargetY(p, x, y) == ty
  {
    forall tx, ty | 0 <= ty < |m| && 0 <= tx < |m| && Rotated(m, p)[ty][tx] != 0
      ensures exists x, y ::
        0 <= y < |m| && 0 <= x < |m| && m[y][x] == Rotated(m, p)[ty][tx] && TargetX(p, x, y) == tx && TargetY(p, x, y) == ty
    {
      CellHasSource(m, p, tx, ty);
    }
    forall x, y | 0 <= y < |m| && 0 <= x < |m| && 0 <= TargetX(p, x, y) < |m| && 0 <= TargetY(p, x, y) < |m|
      ensures Rotated(m, p)[TargetY(p, x, y)][TargetX(p, x, y)] == m[y][x]
    {
      CellLands(m, p, x, y);
    }
  }

  /** The entries of `Rotated(m, p)` whose source cell lies before (x, y) in row-major order; 0 elsewhere. */
  ghost function RotatedSoFar(m: Matrix, p: Pivot, tx: int, ty: int, x: int, y: int): int
    requires IsSquare(m) && OnLattice(p)
  {
    var n, sx, sy := |m|, ty - PivotDiff(p), PivotSum(p) - tx;
    if 0 <= sx < n && 0 <= sy < n && (sy < y || (sy == y && sx < x)) then m[sy][sx] else 0
  }

  /** Passing the cell (x, y) sets the cell it lands on to its entry and leaves every other cell alone. */
  lemma RotatedSoFarStep(m: Matrix, p: Pivot, x: int, y: int)
    requires IsSquare(m) && OnLattice(p)
    requires 0 <= y < |m| && 0 <= x < |m|
    ensures RotatedSoFar(m, p, PivotSum(p) - y, PivotDiff(p) + x, x + 1, y) == m[y][x]
    ensures forall tx, ty :: (tx != PivotSum(p) - y || ty != PivotDiff(p) + x) ==>
      RotatedSoFar(m, p, tx, ty, x + 1, y) == RotatedSoFar(m, p, tx, ty, x, y)
  {
  }

  /** `rotated` holds exactly the entries moved so far, the cells before (x, y) in row-major order. */
  ghost predicate MovedSoFar(rotated: Matrix, m: Matrix, p: Pivot, x: int, y: int)
    requires IsSquare(m) && OnLattice(p)
  {
    |rotated| == |m| && IsSquare(rotated) &&
    forall ty, tx :: 0 <= ty < |m| && 0 <= tx < |m| ==> rotated[ty][tx] == RotatedSoFar(m, p, tx, ty, x, y)
  }

  /** Writing the entry of (x, y) at its target moves that cell. */
  lemma MoveCell(rotated: Matrix, m: Matrix, p: Pivot, x: int, y: int)
    requires IsSquare(m) && OnLattice(p) && MovedSoFar(rotated, m, p, x, y)
    requires 0 <= y < |m| && 0 <= x < |m|
    requires 0 <= TargetX(p, x, y) < |m| && 0 <= TargetY(p, x, y) < |m|
    ensures MovedSoFar(rotated[TargetY(p, x, y) := rotated[TargetY(p, x, y)][TargetX(p, x, y) := m[y][x]]], m, p, x + 1, y)
  {
    RotatedSoFarStep(m, p, x, y);
    RoundingIsExact(p, x, y);
  }

  /** A cell that is empty, or whose target is outside the matrix, changes nothing. */
  lemma SkipCell(rotated: Matrix, m: Matrix, p: Pivot, x: int, y: int)
    requires IsSquare(m) && OnLattice(p) && MovedSoFar(rotated, m, p, x, y)
    requires 0 <= y < |m| && 0 <= x < |m|
    requires m[y][x] == 0 || !(0 <= TargetX(p, x, y) < |m| && 0 <= TargetY(p, x, y) < |m|)
    ensures MovedSoFar(rotated, m, p, x + 1, y)
  {
    RotatedSoFarStep(m, p, x, y);
    RoundingIsExact(p, x, y);
  }

  /** Once every source cell is passed, the moved entries are the whole rotated matrix. */
  lemma AllMoved(rotated: Matrix, m: Matrix, p: Pivot)
    requires IsSquare(m) && OnLattice(p) && MovedSoFar(rotated, m, p, 0, |m|)
    ensures rotated == Rotated(m, p)
  {
    forall ty | 0 <= ty < |m|
      ensures rotated[ty] == Rotated(m, p)[ty]
    {
      forall tx | 0 <= tx < |m|
        ensures rotated[ty][tx] == Rotated(m, p)[ty][tx]
      {
        RotatedAt(m, p, tx, ty);
      }
    }
  }

  /** `rotateMatrix`: fills a fresh zero matrix by moving every occupied cell about the pivot. */
  method RotateMatrix(matrix: Matrix, pivot: Pivot) returns (rotated: Matrix)
    requires IsSquare(matrix) && OnLattice(pivot)
    ensures rotated == Rotated(matrix, pivot)
  {
    var size := |matrix|;
    rotated := seq(size, _ => seq(size, _ => 0));
    var y := 0;
    while y < size
      invariant 0 <= y <= size
      invariant MovedSoFar(rotated, matrix, pivot, 0, y)
    {
      var x := 0;
      while x < size
        invariant 0 <= x <= size
        invariant MovedSoFar(rotated, matrix, pivot, x, y)
      {
        var targetX := TargetX(pivot, x, y);
        var targetY := TargetY(pivot, x, y);
        if matrix[y][x] != 0 && 0 <= targetX < size && 0 <= targetY < size {
          MoveCell(rotated, matrix, pivot, x, y);
          rotated := rotated[targetY := rotated[targetY][targetX := matrix[y][x]]];
        } else {
          SkipCell(rotated, matrix, pivot, x, y);
        }
        x := x + 1;
      }
      assert forall ty, tx :: RotatedSoFar(matrix, pivot, tx, ty, size, y) == RotatedSoFar(matrix, pivot, tx, ty, 0, y + 1);
      y := y + 1;
    }
    AllMoved(rotated, matrix, pivot);
  }

  /** The matrix after `k` quarter turns about the pivot. */
  function Turned(m: Matrix, p: Pivot, k: nat): (r: Matrix)
    requires IsSquare(m) && OnLattice(p)
    ensures |r| == |m| && IsSquare(r)
  {
    if k == 0 then m else Rotated(Turned(m, p, k - 1), p)
  }

  /** `generateRotations`: the base shape followed by three successive quarter turns. */
  method GenerateRotations(t: PieceType, base: Matrix) returns (rotations: seq<Matrix>)
    requires IsSquare(base)
    ensures |rotations| == 4 && rotations[0] == base
    ensures forall k :: 0 <= k < 4 ==> rotations[k] == Turned(base, PivotOf(t), k)
  {
    var pivot := PivotOf(t);
    PivotsOnLattice(t);
    rotations := [base];
    for i := 0 to 3
      invariant |rotations| == i + 1
      invariant forall k :: 0 <= k <= i ==> rotations[k] == Turned(base, pivot, k)
    {
      var next := RotateMatrix(rotations[i], pivot);
      rotations := rotations + [next];
    }
  }

  /** `TETROMINO_ROTATIONS[t]`: the four orientations of a kind, as `generateRotations` builds them. */
  function Rotations(t: PieceType): (rs: seq<Matrix>)
    ensures |rs| == 4 && rs[0] == BaseShape(t)
    ensures forall k :: 0 <= k < 4 ==> Is4x4(rs[k])
  {
    PivotsOnLattice(t);
    seq(4, k requires 0 <= k < 4 => Turned(BaseShape(t), PivotOf(t), k))
  }

  /**
   * `getRotationMatrix`: orientation `r % 4`, which is the base shape turned
   * `r % 4` times. The index is a natural number: for a negative index
   * JavaScript's `%` would be negative and the lookup undefined.
   */
  function RotationMatrix(t: PieceType, r: nat): (m: Matrix)
    ensures Is4x4(m)
    ensures OnLattice(PivotOf(t)) && m == Turned(BaseShape(t), PivotOf(t), r % 4)
  {
    PivotsOnLattice(t);
    Rotations(t)[r % 4]
  }

  /** Orientation indices are taken modulo 4. */
  lemma RotationIndexWraps(t: PieceType, r: nat)
    ensures RotationMatrix(t, r + 4) == RotationMatrix(t, r)
  {
    assert (r + 4) % 4 == r % 4;
  }

  /** `getPieceMatrix`: the spawn pose, which is the base shape itself. */
  function PieceMatrix(t: PieceType): (m: Matrix)
    ensures m == BaseShape(t)
  {
    RotationMatrix(t, 0)
  }

  function Occ(v: int): nat {
    if v != 0 then 1 else 0
  }

  /** The number of occupied cells of a 4x4 matrix. */
  function CellCount(m: Matrix): nat
    requires Is4x4(m)
  {
    Occ(m[0][0]) + Occ(m[0][1]) + Occ(m[0][2]) + Occ(m[0][3]) +
    Occ(m[1][0]) + Occ(m[1][1]) + Occ(m[1][2]) + Occ(m[1][3]) +
    Occ(m[2][0]) + Occ(m[2][1]) + Occ(m[2][2]) + Occ(m[2][3]) +
    Occ(m[3][0]) + Occ(m[3][1]) + Occ(m[3][2]) + Occ(m[3][3])
  }

  /** Every occupied cell lies in the top-left box of side `c + 1`. */
  predicate InBox(m: Matrix, c: int)
    requires Is4x4(m)
  {
    forall y, x :: 0 <= y < 4 && 0 <= x < 4 && (c < x || c < y) ==> m[y][x] == 0
  }

  /** `r` is `m` turned a quarter clockwise inside the box of side `c + 1`, and empty outside it. */
  predicate QuarterOf(r: Matrix, m: Matrix, c: int)
    requires Is4x4(r) && Is4x4(m) && 0 <= c < 4
  {
    forall y, x :: 0 <= y < 4 && 0 <= x < 4 ==> r[y][x] == if x <= c && y <= c then m[c - x][y] else 0
  }

  /** The pivots of the table: (1.5, 1.5) spans the whole 4x4 box, (1, 1) the top-left 3x3 box. */
  predicate BoxPivot(p: Pivot) {
    p == Pivot(3, 3) || p == Pivot(2, 2)
  }

  /**
   * About a table pivot, a shape inside the pivot's box turns within that box:
   * no occupied cell is dropped at the matrix border.
   */
  lemma QuarterTurn(m: Matrix, p: Pivot)
    requires Is4x4(m) && BoxPivot(p) && InBox(m, PivotSum(p))
    ensures Is4x4(Rotated(m, p)) && QuarterOf(Rotated(m, p), m, PivotSum(p))
    ensures InBox(Rotated(m, p), PivotSum(p))
  {
    var r, c := Rotated(m, p), PivotSum(p);
    assert PivotDiff(p) == 0;
    forall y, x | 0 <= y < 4 && 0 <= x < 4
      ensures r[y][x] == if x <= c && y <= c then m[c - x][y] else 0
    {
      RotatedAt(m, p, x, y);
    }
  }

  /** A quarter turn inside the 4x4 box keeps the number of occupied cells. */
  lemma WideQuarterCount(r: Matrix, m: Matrix)
    requires Is4x4(r) && Is4x4(m) && QuarterOf(r, m, 3)
    ensures CellCount(r) == CellCount(m)
  {
    assert r[0][0] == m[3][0] && r[0][1] == m[2][0] && r[0][2] == m[1][0] && r[0][3] == m[0][0];
    assert r[1][0] == m[3][1] && r[1][1] == m[2][1] && r[1][2] == m[1][1] && r[1][3] == m[0][1];
    assert r[2][0] == m[3][2] && r[2][1] == m[2][2] && r[2][2] == m[1][2] && r[2][3] == m[0][2];
    assert r[3][0] == m[3][3] && r[3][1] == m[2][3] && r[3][2] == m[1][3] && r[3][3] == m[0][3];
  }

  /** A quarter turn inside the 3x3 box keeps the number of occupied cells of a shape in that box. */
  lemma NarrowQuarterCount(r: Matrix, m: Matrix)
    requires Is4x4(r) && Is4x4(m) && InBox(m, 2) && QuarterOf(r, m, 2)
    ensures CellCount(r) == CellCount(m)
  {
    assert r[0][0] == m[2][0] && r[0][1] == m[1][0] && r[0][2] == m[0][0] && r[0][3] == 0;
    assert r[1][0] == m[2][1] && r[1][1] == m[1][1] && r[1][2] == m[0][1] && r[1][3] == 0;
    assert r[2][0] == m[2][2] && r[2][1] == m[1][2] && r[2][2] == m[0][2] && r[2][3] == 0;
    assert r[3][0] == 0 && r[3][1] == 0 && r[3][2] == 0 && r[3][3] == 0;
    assert m[0][3] == 0 && m[1][3] == 0 && m[2][3] == 0;
    assert m[3][0] == 0 && m[3][1] == 0 && m[3][2] == 0 && m[3][3] == 0;
  }

  /** Four quarter turns inside a box give back any shape that lies in that box. */
  lemma FourQuarters(m: Matrix, r1: Matrix, r2: Matrix, r3: Matrix, r4: Matrix, c: int)
    requires 0 <= c < 4 && Is4x4(m) && Is4x4(r1) && Is4x4(r2) && Is4x4(r3) && Is4x4(r4)
    requires InBox(m, c)
    requires QuarterOf(r1, m, c) && QuarterOf(r2, r1, c) && QuarterOf(r3, r2, c) && QuarterOf(r4, r3, c)
    ensures r4 == m
  {
    forall y | 0 <= y < 4
      ensures r4[y] == m[y]
    {
      forall x | 0 <= x < 4
        ensures r4[y][x] == m[y][x]
      {
        if x <= c && y <= c {
          assert r4[y][x] == r3[c - x][y] == r2[c - y][c - x] == r1[x][c - y] == m[y][x];
        }
      }
    }
  }

  /** The base shapes: four cells each, inside the box of their kind's pivot. */
  lemma BaseShapeCells(t: PieceType)
    ensures CellCount(BaseShape(t)) == 4
    ensures OnLattice(PivotOf(t)) && BoxPivot(PivotOf(t)) && InBox(BaseShape(t), PivotSum(PivotOf(t)))
  {
  }

  /** Four successive quarter turns inside a box, of a four-cell shape in that box. */
  lemma FourQuarterCounts(m: Matrix, r1: Matrix, r2: Matrix, r3: Matrix, r4: Matrix, c: int)
    requires (c == 2 || c == 3) && Is4x4(m) && Is4x4(r1) && Is4x4(r2) && Is4x4(r3) && Is4x4(r4)
    requires InBox(m, c) && InBox(r1, c) && InBox(r2, c) && CellCount(m) == 4
    requires QuarterOf(r1, m, c) && QuarterOf(r2, r1, c) && QuarterOf(r3, r2, c) && QuarterOf(r4, r3, c)
    ensures CellCount(r1) == 4 && CellCount(r2) == 4 && CellCount(r3) == 4 && r4 == m
  {
    if c == 3 {
      WideQuarterCount(r1, m);
      WideQuarterCount(r2, r1);
      WideQuarterCount(r3, r2);
    } else {
      NarrowQuarterCount(r1, m);
      NarrowQuarterCount(r2, r1);
      NarrowQuarterCount(r3, r2);
    }
    FourQuarters(m, r1, r2, r3, r4, c);
  }

  /** Four quarter turns about a table pivot of a four-cell shape in the pivot's box. */
  lemma QuarterChain(b: Matrix, p: Pivot)
    requires Is4x4(b) && BoxPivot(p) && InBox(b, PivotSum(p)) && CellCount(b) == 4
    ensures Is4x4(Rotated(b, p)) && CellCount(Rotated(b, p)) == 4
    ensures Is4x4(Rotated(Rotated(b, p), p)) && CellCount(Rotated(Rotated(b, p), p)) == 4
    ensures Is4x4(Rotated(Rotated(Rotated(b, p), p), p)) && CellCount(Rotated(Rotated(Rotated(b, p), p), p)) == 4
    ensures Rotated(Rotated(Rotated(Rotated(b, p), p), p), p) == b
  {
    var r1 := Rotated(b, p);
    QuarterTurn(b, p);
    var r2 := Rotated(r1, p);
    QuarterTurn(r1, p);
    var r3 := Rotated(r2, p);
    QuarterTurn(r2, p);
    var r4 := Rotated(r3, p);
    QuarterTurn(r3, p);
    FourQuarterCounts(b, r1, r2, r3, r4, PivotSum(p));
  }

  /** The first orientations, unfolded. */
  lemma TurnedUnfold(b: Matrix, p: Pivot)
    requires IsSquare(b) && OnLattice(p)
    ensures Turned(b, p, 0) == b
    ensures Turned(b, p, 1) == Rotated(b, p)
    ensures Turned(b, p, 2) == Rotated(Rotated(b, p), p)
    ensures Turned(b, p, 3) == Rotated(Rotated(Rotated(b, p), p), p)
  {
    assert Turned(b, p, 1) == Rotated(b, p);
    assert Turned(b, p, 2) == Rotated(Turned(b, p, 1), p);
    assert Turned(b, p, 3) == Rotated(Turned(b, p, 2), p);
  }

  /**
   * Three quarter turns of a four-cell shape inside the box of a table pivot
   * keep its four cells, and a fourth turn gives the shape back.
   */
  lemma TurnsOfFourCells(b: Matrix, p: Pivot)
    requires Is4x4(b) && BoxPivot(p) && InBox(b, PivotSum(p)) && CellCount(b) == 4
    ensures forall k :: 0 <= k < 4 ==> Is4x4(Turned(b, p, k)) && CellCount(Turned(b, p, k)) == 4
    ensures Rotated(Turned(b, p, 3), p) == b
  {
    QuarterChain(b, p);
    TurnedUnfold(b, p);
  }

  /**
   * The catalogue: every orientation keeps the four cells of the base shape,
   * because no cell is turned out of the 4x4 box, and one more quarter turn of
   * orientation 3 gives the base shape back.
   */
  lemma CatalogueOrientations(t: PieceType)
    ensures forall k :: 0 <= k < 4 ==> CellCount(Rotations(t)[k]) == 4
    ensures OnLattice(PivotOf(t)) && Rotated(Rotations(t)[3], PivotOf(t)) == BaseShape(t)
  {
    var b, p := BaseShape(t), PivotOf(t);
    BaseShapeCells(t);
    TurnsOfFourCells(b, p);
    assert forall k :: 0 <= k < 4 ==> Rotations(t)[k] == Turned(b, p, k);
  }

  /** The pieces swapped by one Fisher-Yates step. */
  function Swap(s: seq<PieceType>, i: nat, j: nat): (r: seq<PieceType>)
    requires i < |s| && j < |s|
    ensures |r| == |s|
  {
    s[i := s[j]][j := s[i]]
  }

  /** Legal random picks for a bag of `n` pieces: the pick for position `i` lies in `0..i`. */
  predicate ValidPicks(picks: seq<nat>, n: nat) {
    n >= 1 && |picks| == n - 1 && forall k :: 0 <= k < |picks| ==> picks[k] <= n - 1 - k
  }

  /**
   * The Fisher-Yates steps for positions `i` down to 1 applied to `s`; the pick
   * for position `i` is `picks[|s| - 1 - i]`. Whatever the picks, the result is
   * a permutation of the input.
   */
  function Shuffled(s: seq<PieceType>, picks: seq<nat>, i: nat): (r: seq<PieceType>)
    requires ValidPicks(picks, |s|) && i < |s|
    ensures |r| == |s|
    decreases i
  {
    if i == 0 then s else Shuffled(Swap(s, i, picks[|s| - 1 - i]), picks, i - 1)
  }

  /** Every sequence of picks yields a permutation of the input. */
  lemma {:induction false} ShuffledPermutes(s: seq<PieceType>, picks: seq<nat>, i: nat)
    requires ValidPicks(picks, |s|) && i < |s|
    ensures multiset(Shuffled(s, picks, i)) == multiset(s)
    decreases i
  {
    if i > 0 {
      var swapped := Swap(s, i, picks[|s| - 1 - i]);
      ShuffledPermutes(swapped, picks, i - 1);
      SwapPermutes(s, i, picks[|s| - 1 - i]);
    }
  }

  /** A swap permutes. */
  lemma SwapPermutes(s: seq<PieceType>, i: nat, j: nat)
    requires i < |s| && j < |s|
    ensures multiset(Swap(s, i, j)) == multiset(s)
  {
  }

  /** One swap of the shuffle, in place. */
  method SwapInPlace(a: array<PieceType>, i: nat, j: nat)
    requires i < a.Length && j < a.Length
    modifies a
    ensures a[..] == Swap(old(a[..]), i, j)
  {
    a[i], a[j] := a[j], a[i];
  }

  /**
   * `createShuffledBag`: a copy of `TETROMINO_TYPES` shuffled in place. The
   * random index `floor(random * (i + 1))` chosen at position `i` is `picks[6 - i]`.
   * Whatever the picks, the bag holds every kind exactly once.
   */
  method CreateShuffledBag(picks: seq<nat>) returns (bag: seq<PieceType>)
    requires ValidPicks(picks, 7)
    ensures bag == Shuffled(AllTypes, picks, 6)
    ensures |bag| == 7 && multiset(bag) == multiset(AllTypes)
    ensures forall t :: multiset(bag)[t] == 1
  {
    var a := new PieceType[|AllTypes|](k requires 0 <= k < |AllTypes| => AllTypes[k]);
    ghost var start, top := a[..], a.Length - 1;
    var i := a.Length - 1;
    while i > 0
      invariant 0 <= i < a.Length && |start| == a.Length && top == a.Length - 1
      invariant Shuffled(a[..], picks, i) == Shuffled(start, picks, top)
    {
      var j := picks[a.Length - 1 - i];
      SwapInPlace(a, i, j);
      i := i - 1;
    }
    bag := a[..];
    assert start == AllTypes;
    ShuffledPermutes(AllTypes, picks, 6);
    EachKindOnce(bag);
  }
}
