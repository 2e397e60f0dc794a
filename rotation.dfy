/**
 * The rotation resolver (`src/game/rotation.ts`): the game's own wall-kick
 * tables, in the style of the Super Rotation System of the Tetris Guideline,
 * and the first-fit search that tries each kick in turn.
 *
 * A table key is the pair (from, to) of orientation indices; the source
 * spells it as the string `from>to`, which is a one-to-one encoding of the
 * pair, so lookups by pair and by string agree.
 */
module Rotation {
  import opened Types
  import opened Tetromino
  import opened BoardRules

  /** A kick: the offset tried for the rotated piece. */
  type Kick = Position

  /** The table key `from>to`. */
  datatype Key = Key(from: int, to: int)

  type KickTable = map<Key, seq<Kick>>

  function K(x: int, y: int): Kick {
    Position(x, y)
  }

  // ------------------------------------------------------ fallback tables

  const KickTableStandard: seq<Kick> := [K(0, 0), K(-1, 0), K(-1, -1), K(0, 2), K(-1, 2)]
  const KickTableStandardCcw: seq<Kick> := [K(0, 0), K(1, 0), K(1, -1), K(0, 2), K(1, 2)]
  const KickTableI: seq<Kick> := [K(0, 0), K(-2, 0), K(1, 0), K(-2, -1), K(1, 2)]
  const KickTableICcw: seq<Kick> := [K(0, 0), K(-1, 0), K(2, 0), K(-1, 2), K(2, -1)]
  const KickTable180: seq<Kick> := [K(0, 0), K(1, 0), K(-1, 0), K(0, -1), K(1, -1), K(-1, -1)]

  // ------------------------------------------------------- per-type tables

  /** `SRS_KICKS_STANDARD`: the eight quarter-turn transitions. */
  const SrsKicksStandard: KickTable := map[
    Key(0, 1) := [K(0, 0), K(-1, 0), K(-1, -1), K(0, 2), K(-1, 2)],
    Key(1, 0) := [K(0, 0), K(1, 0), K(1, 1), K(0, -2), K(1, -2)],
    Key(1, 2) := [K(0, 0), K(1, 0), K(1, 1), K(0, -2), K(1, -2)],
    Key(2, 1) := [K(0, 0), K(-1, 0), K(-1, -1), K(0, 2), K(-1, 2)],
    Key(2, 3) := [K(0, 0), K(1, 0), K(1, -1), K(0, 2), K(1, 2)],
    Key(3, 2) := [K(0, 0), K(-1, 0), K(-1, 1), K(0, -2), K(-1, -2)],
    Key(3, 0) := [K(0, 0), K(-1, 0), K(-1, 1), K(0, -2), K(-1, -2)],
    Key(0, 3) := [K(0, 0), K(1, 0), K(1, -1), K(0, 2), K(1, 2)]
  ]

  /** `SRS_KICKS_180`: the four half-turn transitions, all on the 180-degree list. */
  const SrsKicks180: KickTable := map[
    Key(0, 2) := KickTable180,
    Key(1, 3) := KickTable180,
    Key(2, 0) := KickTable180,
    Key(3, 1) := KickTable180
  ]

  /** `SRS_KICKS_J` (and `SRS_KICKS_L`, the same object): the standard quarter turns plus the half turns. */
  const SrsKicksJ: KickTable := SrsKicksStandard + SrsKicks180

  /** `SRS_KICKS_I`: the I piece's own quarter-turn lists plus the half turns. */
  const SrsKicksI: KickTable := map[
    Key(0, 1) := [K(0, 0), K(-2, 0), K(1, 0), K(-2, -1), K(1, 2)],
    Key(1, 0) := [K(0, 0), K(2, 0), K(-1, 0), K(2, -1), K(-1, 2)],
    Key(1, 2) := [K(0, 0), K(-1, 0), K(2, 0), K(-1, -2), K(2, 1)],
    Key(2, 1) := [K(0, 0), K(1, 0), K(-2, 0), K(1, 2), K(-2, -1)],
    Key(2, 3) := [K(0, 0), K(2, 0), K(-1, 0), K(2, -1), K(-1, 2)],
    Key(3, 2) := [K(0, 0), K(-2, 0), K(1, 0), K(-2, 1), K(1, -2)],
    Key(3, 0) := [K(0, 0), K(-1, 0), K(2, 0), K(-1, -2), K(2, 1)],
    Key(0, 3) := [K(0, 0), K(2, 0), K(-1, 0), K(2, -1), K(-1, 2)],
    Key(0, 2) := KickTable180,
    Key(2, 0) := KickTable180,
    Key(1, 3) := KickTable180,
    Key(3, 1) := KickTable180
  ]

  /** The O piece never kicks: every transition has the single zero offset. */
  const SrsKicksO: KickTable := map[
    Key(0, 1) := [K(0, 0)], Key(1, 0) := [K(0, 0)], Key(1, 2) := [K(0, 0)], Key(2, 1) := [K(0, 0)],
    Key(2, 3) := [K(0, 0)], Key(3, 2) := [K(0, 0)], Key(3, 0) := [K(0, 0)], Key(0, 3) := [K(0, 0)],
    Key(0, 2) := [K(0, 0)], Key(2, 0) := [K(0, 0)], Key(1, 3) := [K(0, 0)], Key(3, 1) := [K(0, 0)]
  ]

  /** `SRS_KICKS`: the table of each piece type; object spread is map union with the right operand winning. */
  function SrsKicks(t: PieceType): KickTable {
    match t
    case I => SrsKicksI + SrsKicks180
    case O => SrsKicksO
    case T => SrsKicksStandard + SrsKicks180
    case J => SrsKicksJ
    case L => SrsKicksJ
    case S => SrsKicksStandard + SrsKicks180
    case Z => SrsKicksStandard + SrsKicks180
  }

  /**
   * `getKickTests`: the per-type list for the key when there is one;
   * otherwise the half-turn list for a turn of two, then the I piece's
   * lists, the O piece's zero offset, or the standard lists.
   */
  function GetKickTests(t: PieceType, rotationDelta: int, clockwise: bool, key: Key): (kicks: seq<Kick>)
    ensures |kicks| > 0 && kicks[0] == K(0, 0)
    ensures key in SrsKicks(t) ==> kicks == SrsKicks(t)[key]
  {
    var table := SrsKicks(t);
    KickListsStartAtZero(t);
    if key in table then table[key]
    else if rotationDelta == 2 then KickTable180
    else if t == I then (if clockwise then KickTableI else KickTableICcw)
    else if t == O then [K(0, 0)]
    else if clockwise then KickTableStandard else KickTableStandardCcw
  }

  /** A transition between two different orientations 0..3. */
  predicate IsTransition(key: Key) {
    0 <= key.from < 4 && 0 <= key.to < 4 && key.from != key.to
  }

  /** A transition by half a turn. */
  predicate IsHalfTurn(key: Key) {
    key.to - key.from == 2 || key.from - key.to == 2
  }

  lemma StandardKeys()
    ensures forall key :: key in SrsKicksStandard <==> IsTransition(key) && !IsHalfTurn(key)
  {
  }

  lemma HalfTurnKeys()
    ensures forall key :: key in SrsKicks180 <==> IsTransition(key) && IsHalfTurn(key)
  {
  }

  lemma IKeys()
    ensures forall key :: key in SrsKicksI <==> IsTransition(key)
  {
  }

  lemma OKeys()
    ensures forall key :: key in SrsKicksO <==> IsTransition(key)
  {
  }

  /** Every type's table holds all twelve transitions and nothing else. */
  lemma TablesComplete(t: PieceType)
    ensures forall key :: key in SrsKicks(t) <==> IsTransition(key)
  {
    StandardKeys();
    HalfTurnKeys();
    IKeys();
    OKeys();
  }

  /** A table whose every list is non-empty and starts with the zero offset. */
  predicate ZeroFirst(table: KickTable) {
    forall key :: key in table ==> |table[key]| > 0 && table[key][0] == K(0, 0)
  }

  lemma ZeroFirstUnion(a: KickTable, b: KickTable)
    requires ZeroFirst(a) && ZeroFirst(b)
    ensures ZeroFirst(a + b)
  {
  }

  lemma StandardZeroFirst()
    ensures ZeroFirst(SrsKicksStandard)
  {
  }

  lemma HalfTurnZeroFirst()
    ensures ZeroFirst(SrsKicks180)
  {
  }

  lemma IZeroFirst()
    ensures ZeroFirst(SrsKicksI)
  {
  }

  lemma OZeroFirst()
    ensures ZeroFirst(SrsKicksO)
  {
  }

  /** Every list in every table is non-empty and starts with the zero offset. */
  lemma KickListsStartAtZero(t: PieceType)
    ensures ZeroFirst(SrsKicks(t))
  {
    StandardZeroFirst();
    HalfTurnZeroFirst();
    IZeroFirst();
    OZeroFirst();
    ZeroFirstUnion(SrsKicksStandard, SrsKicks180);
    ZeroFirstUnion(SrsKicksI, SrsKicks180);
  }

  /**
   * The O piece's list is the single zero offset for every transition, and
   * for every other key except a turn of two, which falls back to the
   * half-turn list.
   */
  lemma OPieceNeverKicks(rotationDelta: int, clockwise: bool, key: Key)
    requires IsTransition(key) || rotationDelta != 2
    ensures GetKickTests(O, rotationDelta, clockwise, key) == [K(0, 0)]
  {
    OKeys();
  }

  /** For the twelve transitions the per-type table is always used; the fallbacks serve other keys only. */
  lemma TransitionsUseTable(t: PieceType, rotationDelta: int, clockwise: bool, key: Key)
    requires IsTransition(key)
    ensures GetKickTests(t, rotationDelta, clockwise, key) == SrsKicks(t)[key]
  {
    TablesComplete(t);
  }

  // ------------------------------------------------------- attemptRotation

  function Abs(n: int): nat {
    if n < 0 then -n else n
  }

  /**
   * The target orientation `(r + change + 4) % 4`. The dividend is never
   * negative here, so JavaScript's `%` and Dafny's agree. For the turns the
   * game makes (-1, 1, 2) from an orientation 0..3, it is the orientation
   * reached by wrapping around.
   */
  function TargetRotation(piece: ActivePiece, rotationChange: int): (r: nat)
    requires piece.rotation + rotationChange + 4 >= 0
    ensures r < 4
    ensures piece.rotation < 4 && -1 <= rotationChange <= 2 ==>
      r == if piece.rotation + rotationChange >= 4 then piece.rotation + rotationChange - 4
           else if piece.rotation + rotationChange < 0 then piece.rotation + rotationChange + 4
           else piece.rotation + rotationChange
  {
    (piece.rotation + rotationChange + 4) % 4
  }

  /** The kick list a turn tries: `getKickTests(piece, |change|, change > 0, "r>target")`. */
  function KicksFor(piece: ActivePiece, rotationChange: int): (kicks: seq<Kick>)
    requires piece.rotation + rotationChange + 4 >= 0
    ensures |kicks| > 0 && kicks[0] == K(0, 0)
  {
    GetKickTests(piece.kind, Abs(rotationChange), rotationChange > 0, Key(piece.rotation, TargetRotation(piece, rotationChange)))
  }

  /** The outcome of a rotation attempt: the piece (none when every kick fails) and whether a rotation happened. */
  datatype RotationResult = RotationResult(piece: Option<ActivePiece>, wasRotated: bool)

  /** The piece turned to `rotation` and moved by the kick. */
  function Kicked(piece: ActivePiece, rotation: nat, kick: Kick): (p: ActivePiece)
    ensures p.kind == piece.kind && p.rotation == rotation
    ensures p.position.x - piece.position.x == kick.x && p.position.y - piece.position.y == kick.y
  {
    ActivePiece(piece.kind, rotation, Position(piece.position.x + kick.x, piece.position.y + kick.y))
  }

  /** The kicked piece fits where it lands: `canMove(adjustedPiece, board, 0, 0)`. */
  predicate KickFits(piece: ActivePiece, board: Board, rotation: nat, kick: Kick)
    requires WellFormed(board)
  {
    Fits(Kicked(piece, rotation, kick), board, 0, 0, rotation)
  }

  /** The index of the first kick of `kicks` that fits, or `|kicks|` when none does. */
  function FirstFit(piece: ActivePiece, board: Board, rotation: nat, kicks: seq<Kick>): (i: nat)
    requires WellFormed(board)
    ensures i <= |kicks|
    ensures i < |kicks| ==> KickFits(piece, board, rotation, kicks[i])
    ensures forall j :: 0 <= j < i ==> !KickFits(piece, board, rotation, kicks[j])
    decreases |kicks|
  {
    if |kicks| == 0 then 0
    else if KickFits(piece, board, rotation, kicks[0]) then 0
    else 1 + FirstFit(piece, board, rotation, kicks[1..])
  }

  /**
   * `attemptRotation`: no change returns the piece as it is; otherwise the
   * kicks of the transition are tried in order and the first that fits wins.
   * The source has no guard against a change below -4, for which its index
   * would be negative; `piece.rotation + rotationChange + 4 >= 0` is the range
   * where it is defined.
   */
  function AttemptRotation(piece: ActivePiece, board: Board, rotationChange: int): (res: RotationResult)
    requires WellFormed(board) && piece.rotation + rotationChange + 4 >= 0
  {
    if rotationChange == 0 then RotationResult(Some(piece), false)
    else
      var newRotation := TargetRotation(piece, rotationChange);
      var kicks := KicksFor(piece, rotationChange);
      var i := FirstFit(piece, board, newRotation, kicks);
      if i < |kicks| then RotationResult(Some(Kicked(piece, newRotation, kicks[i])), true)
      else RotationResult(None, false)
  }

  /** No change: the same piece, and no rotation is reported. */
  lemma NoChangeKeepsPiece(piece: ActivePiece, board: Board)
    requires WellFormed(board)
    ensures AttemptRotation(piece, board, 0) == RotationResult(Some(piece), false)
  {
  }

  /**
   * A successful turn reports a rotation and gives the piece in the target
   * orientation, at its old position plus a kick of the list, where it fits;
   * every kick before that one does not fit.
   */
  lemma RotationSucceeds(piece: ActivePiece, board: Board, rotationChange: int)
    requires WellFormed(board) && piece.rotation + rotationChange + 4 >= 0 && rotationChange != 0
    requires AttemptRotation(piece, board, rotationChange).piece.Some?
    ensures var res, r, kicks := AttemptRotation(piece, board, rotationChange), TargetRotation(piece, rotationChange), KicksFor(piece, rotationChange);
      res.wasRotated && res.piece.value.rotation == r && Fits(res.piece.value, board, 0, 0, r) &&
      exists i ::
        0 <= i < |kicks| && res.piece.value == Kicked(piece, r, kicks[i]) &&
        forall j :: 0 <= j < i ==> !KickFits(piece, board, r, kicks[j])
  {
    var r, kicks := TargetRotation(piece, rotationChange), KicksFor(piece, rotationChange);
    var i := FirstFit(piece, board, r, kicks);
    assert AttemptRotation(piece, board, rotationChange).piece.value == Kicked(piece, r, kicks[i]);
  }

  /** A turn fails, with no piece and no rotation, exactly when no kick of the list fits. */
  lemma RotationFails(piece: ActivePiece, board: Board, rotationChange: int)
    requires WellFormed(board) && piece.rotation + rotationChange + 4 >= 0 && rotationChange != 0
    ensures var res, r, kicks := AttemptRotation(piece, board, rotationChange), TargetRotation(piece, rotationChange), KicksFor(piece, rotationChange);
      (res.piece.None? <==> forall k :: k in kicks ==> !KickFits(piece, board, r, k)) &&
      (res.piece.None? ==> !res.wasRotated)
  {
    var r, kicks := TargetRotation(piece, rotationChange), KicksFor(piece, rotationChange);
    var i := FirstFit(piece, board, r, kicks);
    if i == |kicks| {
      forall k | k in kicks
        ensures !KickFits(piece, board, r, k)
      {
        var j :| 0 <= j < |kicks| && kicks[j] == k;
      }
    } else {
      assert kicks[i] in kicks;
    }
  }

  /** When the piece fits turned in place, it turns in place: the zero kick is always tried first. */
  lemma ZeroKickFirst(piece: ActivePiece, board: Board, rotationChange: int)
    requires WellFormed(board) && piece.rotation + rotationChange + 4 >= 0 && rotationChange != 0
    requires KickFits(piece, board, TargetRotation(piece, rotationChange), K(0, 0))
    ensures AttemptRotation(piece, board, rotationChange) ==
      RotationResult(Some(ActivePiece(piece.kind, TargetRotation(piece, rotationChange), piece.position)), true)
  {
  }

  /** On an empty board a piece whose turned matrix lies inside the well turns in place. */
  lemma EmptyBoardTurnsInPlace(piece: ActivePiece, rotationChange: int)
    requires piece.rotation + rotationChange + 4 >= 0 && rotationChange != 0
    requires forall sy, sx :: 0 <= sy < 4 && 0 <= sx < 4 && RotationMatrix(piece.kind, TargetRotation(piece, rotationChange))[sy][sx] != 0 ==>
      0 <= piece.position.x + sx < Width && piece.position.y + sy < Height
    ensures AttemptRotation(piece, CreateEmptyBoard(), rotationChange) ==
      RotationResult(Some(ActivePiece(piece.kind, TargetRotation(piece, rotationChange), piece.position)), true)
  {
    var b, r := CreateEmptyBoard(), TargetRotation(piece, rotationChange);
    var m := RotationMatrix(piece.kind, r);
    var px, py := piece.position.x, piece.position.y;
    assert Kicked(piece, r, K(0, 0)).position == Position(px, py);
    forall sy, sx | 0 <= sy < 4 && 0 <= sx < 4
      ensures !CellCollides(m, px, py, b, sx, sy)
    {
      if 0 <= py + sy < Height {
        assert b[py + sy] == EmptyRow();
      }
    }
    assert FitsAt(m, px + 0, py + 0, b);
    ZeroKickFirst(piece, b, rotationChange);
  }
}
