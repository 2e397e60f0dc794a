/**
 * The rules `src/components/TetrisGame.tsx` applies between renders: the
 * monster cycle, the experience curve and its level-up loop, the
 * back-to-back tracker, the charged-strike, flame and steady-mind skills,
 * the piece queue and the hard-drop target. Each is a pure function here;
 * the session class in `session.dfy` applies them to its fields.
 */
module SessionRules {
  import opened Types
  import opened Tetromino
  import opened BoardRules
  import Stages
  import Skills
  import Battle

  // ---------------------------------------------------------------- monsters

  /** `MONSTER_DATA[k].maxHP`: `MONSTER_BASE_HP` (18) plus 8 per stage. */
  const MonsterMaxHPs: seq<int> := [18, 26, 34, 42, 50]

  /** `MONSTER_DATA.length`. */
  const TotalMonsters: int := 5

  datatype Monster = Monster(stage: int, loop: int, hp: int)

  /** `getMonsterMaxHP`: the stage's hit points plus 28 per completed loop of the five stages. */
  function GetMonsterMaxHP(stage: int, loop: int): (hp: int)
    requires 0 <= stage < TotalMonsters
    ensures hp == 18 + 8 * stage + 28 * loop
    ensures loop >= 0 ==> hp >= 18
  {
    MonsterMaxHPs[stage] + loop * 28
  }

  /** The monster after a defeat: the next of the five stages, one loop further on a wrap, at full health. */
  function NextMonster(m: Monster): (n: Monster)
    requires 0 <= m.stage < TotalMonsters
    ensures 0 <= n.stage < TotalMonsters
    ensures m.stage < TotalMonsters - 1 ==> n.stage == m.stage + 1 && n.loop == m.loop
    ensures m.stage == TotalMonsters - 1 ==> n.stage == 0 && n.loop == m.loop + 1
  {
    var nextStage := (m.stage + 1) % TotalMonsters;
    var nextLoop := if nextStage == 0 then m.loop + 1 else m.loop;
    Monster(nextStage, nextLoop, GetMonsterMaxHP(nextStage, nextLoop))
  }

  /** Five defeats bring back the same stage one loop later, with 28 more hit points. */
  lemma FiveDefeatsMakeALoop(m: Monster)
    requires 0 <= m.stage < TotalMonsters
    ensures var n := NextMonster(NextMonster(NextMonster(NextMonster(NextMonster(m)))));
      n.stage == m.stage && n.loop == m.loop + 1 && n.hp == GetMonsterMaxHP(m.stage, m.loop) + 28
  {
  }

  // ------------------------------------------------------------- experience

  /** The session's own `getLevelRequirement`; it agrees with the one of the stage catalogue. */
  function GetLevelRequirement(level: int): (req: int)
    ensures req == Stages.GetLevelRequirement(level)
    ensures level >= 1 ==> req >= 30
  {
    30 + (level - 1) * 18
  }

  /** The experience needed to climb from level 1 to `level`. */
  function ExpToReach(level: int): int
    requires level >= 1
  {
    if level == 1 then 0 else ExpToReach(level - 1) + GetLevelRequirement(level - 1)
  }

  datatype Progress = Progress(exp: int, level: int)

  /**
   * The level-up loop of `dealDamageToMonster`: while the experience reaches
   * the level's requirement, pay it and go up one level. It stops because
   * every requirement from level 1 on is at least 30.
   */
  function LevelUp(exp: int, level: int): (p: Progress)
    requires level >= 1
    ensures p.level >= level && p.exp < GetLevelRequirement(p.level)
    ensures exp >= 0 ==> p.exp >= 0
    ensures p.level > level <==> exp >= GetLevelRequirement(level)
    decreases if exp > 0 then exp else 0
  {
    var requirement := GetLevelRequirement(level);
    if exp >= requirement then LevelUp(exp - requirement, level + 1) else Progress(exp, level)
  }

  /** Levelling up converts experience into levels without losing or creating any. */
  lemma {:induction false} LevelUpConservesExperience(exp: int, level: int)
    requires level >= 1
    ensures var p := LevelUp(exp, level);
      ExpToReach(p.level) + p.exp == ExpToReach(level) + exp
    decreases if exp > 0 then exp else 0
  {
    var requirement := GetLevelRequirement(level);
    if exp >= requirement {
      LevelUpConservesExperience(exp - requirement, level + 1);
    }
  }

  // ------------------------------------------------------ back-to-back tracker

  /** `lastClearWasTetrisRef` and `isBackToBackRef`. */
  datatype Tracker = Tracker(lastClearWasTetris: bool, isBackToBack: bool)

  /** The flag is only ever set after a qualifying clear. */
  predicate TrackerValid(t: Tracker) {
    t.isBackToBack ==> t.lastClearWasTetris
  }

  /**
   * `updateBackToBackState`: a qualifying clear (a T-spin or four lines)
   * raises the flag when the previous clearing lock qualified too; any other
   * clear lowers both.
   */
  function UpdateBackToBack(t: Tracker, isTetris: bool): (r: Tracker)
    ensures r.lastClearWasTetris == isTetris
    ensures TrackerValid(r)
  {
    if isTetris then Tracker(true, t.lastClearWasTetris || t.isBackToBack)
    else Tracker(false, false)
  }

  /** From a valid tracker, the flag is set exactly on the second qualifying clear in a row. */
  lemma BackToBackOnSecondInARow(t: Tracker, isTetris: bool)
    requires TrackerValid(t)
    ensures UpdateBackToBack(t, isTetris).isBackToBack <==> isTetris && t.lastClearWasTetris
  {
  }

  // ---------------------------------------------------------- skill levels

  /** The session's seven skills. */
  datatype SkillId = FlatAttack | SingleLineBonus | TetrisBonus | ComboBonus | ChargedStrike | SteadyMind | FlameStrike

  /** The session's skill record: one level per skill. */
  datatype SkillLevels = SkillLevels(
    flatAttack: int, singleLineBonus: int, tetrisBonus: int, comboBonus: int,
    chargedStrike: int, steadyMind: int, flameStrike: int)

  function InitialSkillLevels(): SkillLevels {
    SkillLevels(0, 0, 0, 0, 0, 0, 0)
  }

  function LevelOf(levels: SkillLevels, id: SkillId): int {
    match id
    case FlatAttack => levels.flatAttack
    case SingleLineBonus => levels.singleLineBonus
    case TetrisBonus => levels.tetrisBonus
    case ComboBonus => levels.comboBonus
    case ChargedStrike => levels.chargedStrike
    case SteadyMind => levels.steadyMind
    case FlameStrike => levels.flameStrike
  }

  /** `{ ...prev, [skillId]: prev[skillId] + 1 }`: one more level of the skill, the others as they were. */
  function Raised(levels: SkillLevels, id: SkillId): (r: SkillLevels)
    ensures LevelOf(r, id) == LevelOf(levels, id) + 1
    ensures forall other :: other != id ==> LevelOf(r, other) == LevelOf(levels, other)
  {
    match id
    case FlatAttack => levels.(flatAttack := levels.flatAttack + 1)
    case SingleLineBonus => levels.(singleLineBonus := levels.singleLineBonus + 1)
    case TetrisBonus => levels.(tetrisBonus := levels.tetrisBonus + 1)
    case ComboBonus => levels.(comboBonus := levels.comboBonus + 1)
    case ChargedStrike => levels.(chargedStrike := levels.chargedStrike + 1)
    case SteadyMind => levels.(steadyMind := levels.steadyMind + 1)
    case FlameStrike => levels.(flameStrike := levels.flameStrike + 1)
  }

  predicate LevelsNonNegative(levels: SkillLevels) {
    levels.flatAttack >= 0 && levels.singleLineBonus >= 0 && levels.tetrisBonus >= 0 && levels.comboBonus >= 0 &&
    levels.chargedStrike >= 0 && levels.steadyMind >= 0 && levels.flameStrike >= 0
  }

  /** `shuffled.slice(0, 3)`: the first three skills of the shuffled list. */
  function FirstThree(shuffled: seq<SkillId>): (r: seq<SkillId>)
    ensures |r| == if |shuffled| < 3 then |shuffled| else 3
    ensures r == shuffled[..|r|]
  {
    if |shuffled| <= 3 then shuffled else shuffled[..3]
  }

  // ------------------------------------------------------------- damage

  /** The session's damage table, `[0, 1, 2, 3, 6][lines] ?? 0`. */
  function LineDamage(clearedLines: int): int {
    if clearedLines == 1 then 1 else if clearedLines == 2 then 2
    else if clearedLines == 3 then 3 else if clearedLines == 4 then 6 else 0
  }

  /** The T-spin bonus of the `switch` in `lockPiece`. */
  function TSpinDamage(kind: TSpinKind, clearedLines: int): int {
    match kind
    case Mini => 2 + (if clearedLines - 1 > 0 then clearedLines - 1 else 0)
    case Double => 6
    case Triple => 9
    case NoSpin => 0
  }

  /**
   * The damage `lockPiece` adds up for a clear before the charged strike and
   * the flame: the table, the flat attack, the single-line or four-line
   * bonus, the combo bonus from the second link on, the T-spin bonus, and 2
   * when the tracker raised the back-to-back flag.
   */
  function ClearDamage(clearedLines: int, nextCombo: int, kind: TSpinKind, backToBack: bool, levels: SkillLevels): int {
    LineDamage(clearedLines)
    + levels.flatAttack
    + (if clearedLines == 1 then levels.singleLineBonus else if clearedLines == 4 then levels.tetrisBonus * 2 else 0)
    + (if nextCombo > 1 && levels.comboBonus > 0 then nextCombo * levels.comboBonus else 0)
    + TSpinDamage(kind, clearedLines)
    + (if (kind != NoSpin || clearedLines == 4) && backToBack then 2 else 0)
  }

  /** The session's skill record as the calculator's skill map; the two skills the session lacks are absent. */
  function ToBattleSkills(levels: SkillLevels): Skills.SkillLevels {
    map[Skills.FlatAttack := levels.flatAttack, Skills.SingleLineBonus := levels.singleLineBonus,
        Skills.TetrisBonus := levels.tetrisBonus, Skills.ComboBonus := levels.comboBonus,
        Skills.ChargedStrike := levels.chargedStrike, Skills.SteadyMind := levels.steadyMind,
        Skills.FlameStrike := levels.flameStrike]
  }

  /**
   * The session's clear damage is the calculator's, when the calculator's
   * incoming back-to-back flag is the session's "previous clearing lock
   * qualified"; the session's flag after the update is the calculator's
   * output flag and that, both at once.
   */
  lemma ClearDamageMatchesCalculator(t: Tracker, combo: int, kind: TSpinKind, clearedLines: int, levels: SkillLevels)
    requires TrackerValid(t) && clearedLines > 0
    ensures var qualifies := kind != NoSpin || clearedLines == 4;
      var res := Battle.CalculateDamage(Battle.BattleContext(combo, t.lastClearWasTetris, kind, clearedLines), ToBattleSkills(levels));
      var next := UpdateBackToBack(t, qualifies);
      ClearDamage(clearedLines, combo + 1, kind, next.isBackToBack, levels) == res.damage &&
      next.lastClearWasTetris == res.isBackToBack &&
      next.isBackToBack == (res.isBackToBack && t.lastClearWasTetris)
  {
    var skills := ToBattleSkills(levels);
    assert Skills.GetSkillLevel(skills, Skills.FlatAttack) == levels.flatAttack;
    assert Skills.GetSkillLevel(skills, Skills.SingleLineBonus) == levels.singleLineBonus;
    assert Skills.GetSkillLevel(skills, Skills.TetrisBonus) == levels.tetrisBonus;
    assert Skills.GetSkillLevel(skills, Skills.ComboBonus) == levels.comboBonus;
  }

  /**
   * The trackers part ways on a lock that clears nothing: the calculator
   * resets its flag, the session keeps its own, so two four-line clears
   * around an empty lock earn the bonus in the session only.
   */
  lemma EmptyLockKeepsSessionStreak(levels: SkillLevels)
    ensures Battle.CalculateDamage(Battle.BattleContext(1, true, NoSpin, 0), ToBattleSkills(levels)).isBackToBack == false
    ensures UpdateBackToBack(UpdateBackToBack(Tracker(false, false), true), true).isBackToBack
  {
  }

  // -------------------------------------------------------- charged strike

  /** `chargedStrikeCounterRef` and `chargedStrikeReadyRef`. */
  datatype Charge = Charge(counter: int, ready: bool)

  datatype ChargeOutcome = ChargeOutcome(bonus: int, charge: Charge)

  /**
   * The charged strike on a clearing lock. At level 0 both refs are cleared.
   * Otherwise a ready charge adds `3 * level` and is spent; a single-line
   * clear counts one, and the third in a row readies the charge and resets
   * the count; any other clear resets the count.
   */
  function ChargeStep(level: int, c: Charge, clearedLines: int): (r: ChargeOutcome) {
    if level > 0 then
      var bonus := if c.ready then 3 * level else 0;
      if clearedLines == 1 then
        if c.counter + 1 >= 3 then ChargeOutcome(bonus, Charge(0, true))
        else ChargeOutcome(bonus, Charge(c.counter + 1, false))
      else ChargeOutcome(bonus, Charge(0, false))
    else ChargeOutcome(0, Charge(0, false))
  }

  predicate ChargeValid(c: Charge) {
    0 <= c.counter < 3
  }

  /**
   * The count stays in 0..2: a single-line clear with the skill counts one
   * more, up to the third in a row, which readies the charge and starts the
   * count over; any other clear, or no skill, resets it. The charge is
   * ready right after the third single in a row, and only then.
   */
  lemma ChargeRule(level: int, c: Charge, clearedLines: int)
    requires ChargeValid(c)
    ensures var r := ChargeStep(level, c, clearedLines);
      ChargeValid(r.charge) &&
      (r.charge.ready <==> level > 0 && clearedLines == 1 && c.counter == 2) &&
      r.charge.counter == (if level > 0 && clearedLines == 1 && c.counter < 2 then c.counter + 1 else 0) &&
      r.bonus == (if level > 0 && c.ready then 3 * level else 0)
  {
  }

  /** From nothing, three single-line clears ready the charge and the next clear earns `3 * level`. */
  lemma {:induction false} ThreeSinglesCharge(level: int, clearedLines: int)
    requires level > 0
    ensures var c1 := ChargeStep(level, Charge(0, false), 1).charge;
      var c2 := ChargeStep(level, c1, 1).charge;
      var c3 := ChargeStep(level, c2, 1).charge;
      c3.ready && ChargeStep(level, c3, clearedLines).bonus == 3 * level
  {
  }

  // ------------------------------------------------------------------ flame

  datatype FlameOutcome = FlameOutcome(bonus: int, turns: int)

  /** A clearing lock while the monster burns: `3 * level` more damage and one burning turn fewer. */
  function FlameBurn(level: int, turns: int): (r: FlameOutcome)
    ensures r.bonus > 0 <==> level > 0 && turns > 0
    ensures r.bonus > 0 ==> r.bonus == 3 * level && r.turns == turns - 1
    ensures r.bonus <= 0 ==> r.bonus == 0 && r.turns == turns
  {
    if level > 0 && turns > 0 then FlameOutcome(3 * level, turns - 1) else FlameOutcome(0, turns)
  }

  /** After a hit: no burn on the new monster, otherwise `2 * level` turns; nothing without the skill. */
  function FlameAfterHit(level: int, turns: int, defeated: bool): (t: int)
    ensures level > 0 ==> t == (if defeated then 0 else 2 * level)
    ensures level <= 0 ==> t == turns
  {
    if level > 0 then (if defeated then 0 else 2 * level) else turns
  }

  // ------------------------------------------------------------ steady mind

  datatype SteadyOutcome = SteadyOutcome(damage: int, placement: int)

  /** A successful spawn counts one placement; with the skill, the fifth deals `3 * level` and restarts the count. */
  function SteadyStep(level: int, placement: int): (r: SteadyOutcome)
    ensures r.damage > 0 <==> level > 0 && placement + 1 >= 5
    ensures r.damage > 0 ==> r.damage == 3 * level && r.placement == 0
    ensures r.damage <= 0 ==> r.damage == 0 && r.placement == placement + 1
  {
    var count := placement + 1;
    if level > 0 && count >= 5 then SteadyOutcome(3 * level, 0) else SteadyOutcome(0, count)
  }

  /** With the skill, five spawns from a fresh count strike once, at the fifth. */
  lemma FifthSpawnStrikes(level: int)
    requires level > 0
    ensures var p1 := SteadyStep(level, 0); var p2 := SteadyStep(level, p1.placement);
      var p3 := SteadyStep(level, p2.placement); var p4 := SteadyStep(level, p3.placement);
      var p5 := SteadyStep(level, p4.placement);
      p1.damage == 0 && p2.damage == 0 && p3.damage == 0 && p4.damage == 0 &&
      p5.damage == 3 * level && p5.placement == 0
  {
  }

  // ------------------------------------------------------------------ queue

  /** `nextQueue` and `upcomingPieceIndex`. */
  datatype Queue = Queue(pieces: seq<PieceType>, index: int)

  /** At least seven pieces from the index on, so the preview always has five. */
  predicate QueueValid(q: Queue) {
    0 <= q.index && |q.pieces| - q.index >= 7
  }

  /** The pieces still to come, in order. */
  function Upcoming(q: Queue): seq<PieceType>
    requires 0 <= q.index <= |q.pieces|
  {
    q.pieces[q.index..]
  }

  /** `nextPiecesPreview`: the next five pieces, or fewer when the queue runs out. */
  function Preview(q: Queue): (p: seq<PieceType>)
    requires 0 <= q.index <= |q.pieces|
    ensures |p| == if |q.pieces| - q.index < 5 then |q.pieces| - q.index else 5
    ensures p == Upcoming(q)[..|p|]
  {
    if |q.pieces| - q.index < 5 then q.pieces[q.index..] else q.pieces[q.index..q.index + 5]
  }

  datatype Draw = Draw(piece: PieceType, queue: Queue)

  /**
   * `getNextPieceType` as written, with React's queued updates applied in
   * call order. It reads the piece at the index and moves the index on; when
   * seven or fewer pieces remain after it, `replenishQueue` keeps the queue
   * (seven or more from the index, the drawn piece included) or rebuilds it
   * from the index with two new bags, and in both cases sets the index to 0.
   * The source's first update, appending a bag when the index is past the
   * end, cannot fire here: it would already have read past the end.
   */
  function DrawAsWritten(q: Queue, bagA: seq<PieceType>, bagB: seq<PieceType>): (d: Draw)
    requires 0 <= q.index < |q.pieces|
  {
    var piece := q.pieces[q.index];
    if q.index + 1 >= |q.pieces| - 7 then
      var remaining := q.pieces[q.index..];
      var pieces := if |remaining| >= 7 then q.pieces else remaining + bagA + bagB;
      Draw(piece, Queue(pieces, 0))
    else Draw(piece, Queue(q.pieces, q.index + 1))
  }

  /**
   * With two bags in the queue, the draw at index 6 sends the index back to
   * 0: the piece that comes next is the first of the queue, not the second
   * piece the preview showed.
   */
  lemma DrawAsWrittenRepeatsFirstBag(bagA: seq<PieceType>, bagB: seq<PieceType>)
    ensures var q := Queue([I, O, T, J, L, S, Z, Z, S, L, J, T, O, I], 6);
      var d := DrawAsWritten(q, bagA, bagB);
      d.piece == Preview(q)[0] && Preview(q)[1] == Z && Preview(d.queue)[0] == I
  {
  }

  /**
   * The corrected draw: the piece at the index; when fewer than seven
   * pieces are left after it, the queue is rebuilt from those pieces and two
   * new bags and the index restarts at 0, otherwise the index moves on.
   */
  function DrawNext(q: Queue, bagA: seq<PieceType>, bagB: seq<PieceType>): (d: Draw)
    requires QueueValid(q) && |bagA| == 7 && |bagB| == 7
    ensures QueueValid(d.queue)
  {
    var piece := q.pieces[q.index];
    if |q.pieces| - (q.index + 1) < 7 then Draw(piece, Queue(q.pieces[q.index + 1..] + bagA + bagB, 0))
    else Draw(piece, Queue(q.pieces, q.index + 1))
  }

  /**
   * The corrected draw takes the first piece of the preview and keeps the
   * order of what comes after: the new preview is the old one shifted by
   * one, with one more piece at its end.
   */
  lemma DrawFollowsPreview(q: Queue, bagA: seq<PieceType>, bagB: seq<PieceType>)
    requires QueueValid(q) && |bagA| == 7 && |bagB| == 7
    ensures var d := DrawNext(q, bagA, bagB);
      d.piece == Preview(q)[0] &&
      |Preview(d.queue)| == 5 && Preview(d.queue)[..4] == Preview(q)[1..] &&
      Upcoming(d.queue)[..|Upcoming(q)| - 1] == Upcoming(q)[1..]
  {
    var d := DrawNext(q, bagA, bagB);
    var rest := q.pieces[q.index + 1..];
    if |q.pieces| - (q.index + 1) < 7 {
      assert Upcoming(d.queue) == rest + bagA + bagB;
      assert Upcoming(d.queue)[..|rest|] == rest;
    }
  }

  // -------------------------------------------------------------- hard drop

  /** Every orientation of every piece has four cells. */
  lemma OrientationCells(t: PieceType, r: nat)
    ensures CellCount(RotationMatrix(t, r)) == 4
  {
    CatalogueOrientations(t);
  }

  /** A matrix with cells that fits with its box at (px, py) has its box above the floor. */
  lemma FitsAtAboveFloor(m: Matrix, px: int, py: int, board: Board)
    requires Is4x4(m) && WellFormed(board) && CellCount(m) > 0 && FitsAt(m, px, py, board)
    ensures py < Height
  {
    if py >= Height {
      forall sy, sx | 0 <= sy < 4 && 0 <= sx < 4
        ensures m[sy][sx] == 0
      {
        assert !CellCollides(m, px, py, board, sx, sy);
      }
    }
  }

  /** A piece that fits has its box above the floor. */
  lemma FitsAboveFloor(piece: ActivePiece, board: Board, dy: int)
    requires WellFormed(board) && Fits(piece, board, 0, dy, piece.rotation)
    ensures piece.position.y + dy < Height
  {
    var m := RotationMatrix(piece.kind, piece.rotation);
    OrientationCells(piece.kind, piece.rotation);
    assert FitsAt(m, piece.position.x + 0, piece.position.y + dy, board);
    FitsAtAboveFloor(m, piece.position.x + 0, piece.position.y + dy, board);
  }

  /** The piece one row lower. */
  function Lowered(piece: ActivePiece): (p: ActivePiece)
    ensures p.kind == piece.kind && p.rotation == piece.rotation
    ensures p.position == Position(piece.position.x, piece.position.y + 1)
  {
    piece.(position := Position(piece.position.x, piece.position.y + 1))
  }

  /** The piece of the given kind and orientation with its box at (x, y). */
  function At(kind: PieceType, rotation: nat, x: int, y: int): ActivePiece {
    ActivePiece(kind, rotation, Position(x, y))
  }

  /**
   * The ghost of `hardDrop`: the piece moved down for as long as it can move
   * down one more row. It stops at the first row from which it cannot, in
   * the same column and orientation.
   */
  function DropTarget(piece: ActivePiece, board: Board): (r: ActivePiece)
    requires WellFormed(board)
    ensures r.kind == piece.kind && r.rotation == piece.rotation
    ensures r.position.x == piece.position.x && r.position.y >= piece.position.y
    ensures !Fits(r, board, 0, 1, r.rotation)
    ensures forall y :: piece.position.y <= y < r.position.y ==>
      Fits(At(piece.kind, piece.rotation, piece.position.x, y), board, 0, 1, piece.rotation)
    decreases Height - piece.position.y
  {
    if Fits(piece, board, 0, 1, piece.rotation) then
      FitsAboveFloor(piece, board, 1);
      assert piece == At(piece.kind, piece.rotation, piece.position.x, piece.position.y);
      DropTarget(Lowered(piece), board)
    else piece
  }

  /** A ghost that moved fits where it stops: its last step down was to a free position. */
  lemma DropTargetFits(piece: ActivePiece, board: Board)
    requires WellFormed(board)
    ensures var r := DropTarget(piece, board);
      r.position.y > piece.position.y ==> Fits(r, board, 0, 0, r.rotation)
  {
    var r := DropTarget(piece, board);
    var y := r.position.y - 1;
    if r.position.y > piece.position.y {
      assert Fits(At(piece.kind, piece.rotation, piece.position.x, y), board, 0, 1, piece.rotation);
      assert r == At(piece.kind, piece.rotation, piece.position.x, y + 1);
    }
  }
}
