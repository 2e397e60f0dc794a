/**
 * The wall-kick tables and kick lookup that `src/components/TetrisGame.tsx`
 * carries for itself. They follow the engine's in most entries; the I
 * piece's `0>3` list and the half-turn lists are the session's own.
 */
module SessionKicks {
  import opened Types
  import opened Rotation

  /** The session's `SRS_KICKS_I`: the eight quarter turns only. */
  const SessionKicksI: KickTable := map[
    Key(0, 1) := [K(0, 0), K(-2, 0), K(1, 0), K(-2, -1), K(1, 2)],
    Key(1, 0) := [K(0, 0), K(2, 0), K(-1, 0), K(2, -1), K(-1, 2)],
    Key(1, 2) := [K(0, 0), K(-1, 0), K(2, 0), K(-1, -2), K(2, 1)],
    Key(2, 1) := [K(0, 0), K(1, 0), K(-2, 0), K(1, 2), K(-2, -1)],
    Key(2, 3) := [K(0, 0), K(2, 0), K(-1, 0), K(2, -1), K(-1, 2)],
    Key(3, 2) := [K(0, 0), K(-2, 0), K(1, 0), K(-2, 1), K(1, -2)],
    Key(3, 0) := [K(0, 0), K(-1, 0), K(2, 0), K(-1, -2), K(2, 1)],
    Key(0, 3) := [K(0, 0), K(1, 0), K(-2, 0), K(1, 2), K(-2, -1)]
  ]

  /** The session's `SRS_KICKS_180`: seven offsets per half turn. */
  const SessionKicks180: KickTable := map[
    Key(0, 2) := [K(0, 0), K(-1, 0), K(1, 0), K(0, 1), K(-1, 1), K(1, 1), K(0, -1)],
    Key(1, 3) := [K(0, 0), K(0, -1), K(0, 1), K(1, 0), K(1, -1), K(1, 1), K(-1, 0)],
    Key(2, 0) := [K(0, 0), K(1, 0), K(-1, 0), K(0, -1), K(1, -1), K(-1, -1), K(0, 1)],
    Key(3, 1) := [K(0, 0), K(0, 1), K(0, -1), K(-1, 0), K(-1, 1), K(-1, -1), K(1, 0)]
  ]

  /**
   * The session's `SRS_KICKS`. J and L take the standard lists with the
   * six-offset `KICK_TABLE_180` for half turns, exactly as the engine's
   * `SRS_KICKS_J`; the O table is the engine's.
   */
  function SessionSrsKicks(t: PieceType): KickTable {
    match t
    case I => SessionKicksI + SessionKicks180
    case O => SrsKicksO
    case T => SrsKicksStandard + SessionKicks180
    case J => SrsKicksJ
    case L => SrsKicksJ
    case S => SrsKicksStandard + SessionKicks180
    case Z => SrsKicksStandard + SessionKicks180
  }

  lemma SessionIKeys()
    ensures forall key :: key in SessionKicksI <==> IsTransition(key) && !IsHalfTurn(key)
  {
  }

  lemma SessionHalfTurnKeys()
    ensures forall key :: key in SessionKicks180 <==> IsTransition(key) && IsHalfTurn(key)
  {
  }

  lemma SessionIZeroFirst()
    ensures ZeroFirst(SessionKicksI)
  {
  }

  lemma SessionHalfTurnZeroFirst()
    ensures ZeroFirst(SessionKicks180)
  {
  }

  /** Every type's table holds exactly the twelve transitions, each list non-empty and starting with the zero offset. */
  lemma SessionTablesComplete(t: PieceType)
    ensures forall key :: key in SessionSrsKicks(t) <==> IsTransition(key)
    ensures ZeroFirst(SessionSrsKicks(t))
  {
    SessionTableKeys(t);
    SessionTableZeroFirst(t);
  }

  lemma SessionTableKeys(t: PieceType)
    ensures forall key :: key in SessionSrsKicks(t) <==> IsTransition(key)
  {
    match t
    case I =>
      SessionIKeys();
      SessionHalfTurnKeys();
    case O =>
      OKeys();
    case J =>
      StandardKeys();
      HalfTurnKeys();
    case L =>
      StandardKeys();
      HalfTurnKeys();
    case _ =>
      StandardKeys();
      SessionHalfTurnKeys();
  }

  lemma SessionTableZeroFirst(t: PieceType)
    ensures ZeroFirst(SessionSrsKicks(t))
  {
    match t
    case I =>
      SessionIZeroFirst();
      SessionHalfTurnZeroFirst();
      ZeroFirstUnion(SessionKicksI, SessionKicks180);
    case O =>
      OZeroFirst();
    case J =>
      StandardZeroFirst();
      HalfTurnZeroFirst();
      ZeroFirstUnion(SrsKicksStandard, SrsKicks180);
    case L =>
      StandardZeroFirst();
      HalfTurnZeroFirst();
      ZeroFirstUnion(SrsKicksStandard, SrsKicks180);
    case _ =>
      StandardZeroFirst();
      SessionHalfTurnZeroFirst();
      ZeroFirstUnion(SrsKicksStandard, SessionKicks180);
  }

  /** The session's I piece `0>3` list is not the engine's. */
  lemma IZeroToThreeDiverges()
    ensures SessionSrsKicks(I)[Key(0, 3)] != SrsKicks(I)[Key(0, 3)]
  {
    assert Key(0, 3) !in SessionKicks180 && Key(0, 3) !in SrsKicks180;
    assert SessionSrsKicks(I)[Key(0, 3)] == SessionKicksI[Key(0, 3)];
    assert SrsKicks(I)[Key(0, 3)] == SrsKicksI[Key(0, 3)];
    assert SessionKicksI[Key(0, 3)][1] == K(1, 0);
    assert SrsKicksI[Key(0, 3)][1] == K(2, 0);
  }

  /** A half turn tries seven offsets in the session's `SRS_KICKS_180` against six in the engine's. */
  lemma HalfTurnsDiverge(key: Key)
    requires IsTransition(key) && IsHalfTurn(key)
    ensures key in SessionKicks180 && |SessionKicks180[key]| == 7
    ensures key in SrsKicks180 && |SrsKicks180[key]| == 6
  {
    assert key in {Key(0, 2), Key(1, 3), Key(2, 0), Key(3, 1)};
  }

  /**
   * The lookup part of the session's `getKickTests` for a transition key: the
   * per-type list when the key is in the table; otherwise, for a turn of two,
   * `KICK_TABLE_180`; otherwise the I piece's or the standard list for the
   * direction. Unlike the engine, there is no O fallback.
   */
  function LookupKicks(t: PieceType, key: Key, rotationDelta: int, clockwise: bool): (kicks: seq<Kick>)
    ensures |kicks| > 0 && kicks[0] == K(0, 0)
    ensures key in SessionSrsKicks(t) ==> kicks == SessionSrsKicks(t)[key]
  {
    var table := SessionSrsKicks(t);
    SessionTablesComplete(t);
    if rotationDelta == 2 then (if key in table then table[key] else KickTable180)
    else if key in table then table[key]
    else if t == I then (if clockwise then KickTableI else KickTableICcw)
    else if clockwise then KickTableStandard else KickTableStandardCcw
  }

  /**
   * `getKickTests(type, rotationDelta, clockwise)` as written: with no
   * current piece, the standard list for the direction; otherwise the key is
   * `r>((r + rotationDelta + 4) % 4)`. The caller passes `|rotationChange|`,
   * so a counter-clockwise turn builds the key of the clockwise one.
   */
  function KickTestsAsWritten(current: Option<ActivePiece>, t: PieceType, rotationDelta: int, clockwise: bool): (kicks: seq<Kick>)
    requires current.Some? ==> current.value.rotation + rotationDelta + 4 >= 0
  {
    if current.None? then (if clockwise then KickTableStandard else KickTableStandardCcw)
    else
      var r := current.value.rotation;
      LookupKicks(t, Key(r, (r + rotationDelta + 4) % 4), rotationDelta, clockwise)
  }

  /**
   * A counter-clockwise turn from orientation 0 of a T, S or Z piece tries
   * the list of the clockwise transition `0>1` as written, which is not the
   * list of the transition `0>3` it performs.
   */
  lemma CounterClockwiseUsesClockwiseList(piece: ActivePiece)
    requires piece.rotation == 0 && piece.kind in {T, S, Z}
    ensures KickTestsAsWritten(Some(piece), piece.kind, Abs(-1), -1 > 0) == SessionSrsKicks(piece.kind)[Key(0, 1)]
    ensures SessionSrsKicks(piece.kind)[Key(0, 1)] != SessionSrsKicks(piece.kind)[Key(0, 3)]
  {
    StandardEntriesDiffer();
    var table := SessionSrsKicks(piece.kind);
    assert table == SrsKicksStandard + SessionKicks180;
    assert Key(0, 1) in SrsKicksStandard && Key(0, 1) !in SessionKicks180 && Key(0, 3) !in SessionKicks180;
    assert table[Key(0, 1)] == SrsKicksStandard[Key(0, 1)];
    assert table[Key(0, 3)] == SrsKicksStandard[Key(0, 3)];
    assert KickTestsAsWritten(Some(piece), piece.kind, 1, false) == LookupKicks(piece.kind, Key(0, 1), 1, false);
  }

  lemma StandardEntriesDiffer()
    ensures SrsKicksStandard[Key(0, 1)] != SrsKicksStandard[Key(0, 3)]
  {
    assert SrsKicksStandard[Key(0, 1)][1] == K(-1, 0);
  }

  /** The orientation a turn by `rotationChange` reaches: `(r + rotationChange + 4) % 4`. */
  function TurnedTo(r: nat, rotationChange: int): (target: nat)
    requires r + rotationChange + 4 >= 0
    ensures target < 4
  {
    (r + rotationChange + 4) % 4
  }

  /**
   * The corrected `getKickTests` for the current piece: the key is the
   * transition the turn actually performs, `r>newRotation`, as the engine's
   * `attemptRotation` builds it.
   */
  function KickTests(piece: ActivePiece, rotationChange: int): (kicks: seq<Kick>)
    requires piece.rotation + rotationChange + 4 >= 0
    ensures |kicks| > 0 && kicks[0] == K(0, 0)
  {
    LookupKicks(piece.kind, Key(piece.rotation, TurnedTo(piece.rotation, rotationChange)), Abs(rotationChange), rotationChange > 0)
  }

  /**
   * Every turn the game makes (a quarter turn either way or a half turn)
   * from an orientation 0..3 tries exactly the table's list for the
   * transition it performs.
   */
  lemma KickTestsFollowTransition(piece: ActivePiece, rotationChange: int)
    requires piece.rotation < 4 && rotationChange in {-1, 1, 2}
    ensures var key := Key(piece.rotation, TurnedTo(piece.rotation, rotationChange));
      IsTransition(key) && key in SessionSrsKicks(piece.kind) &&
      KickTests(piece, rotationChange) == SessionSrsKicks(piece.kind)[key]
  {
    SessionTablesComplete(piece.kind);
  }
}
