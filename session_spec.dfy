/**
 * What each operation of the game component (`src/components/TetrisGame.tsx`)
 * does to the component's state, as functions from the state before to the
 * state after. React's queued state updates are taken to apply in call
 * order, as the refs they mirror do. Randomness (the bags a queue refill
 * appends, the shuffled skill list of a level-up) comes in as `Luck`.
 */
module SessionSpec {
  import opened Types
  import opened Tetromino
  import opened BoardRules
  import opened Rotation
  import opened SessionKicks
  import opened SessionRules
  import Battle

  /** `LINES_PER_LEVEL`. */
  const LinesPerLevel: int := 10

  /**
   * The component's state and refs that the game rules touch. `queue` is
   * `nextQueue` with `upcomingPieceIndex`, `charge` the two charged-strike
   * refs, `tracker` the two back-to-back refs.
   */
  datatype SessionState = SessionState(
    board: Board,
    currentPiece: Option<ActivePiece>,
    queue: Queue,
    level: int,
    isRunning: bool,
    isGameOver: bool,
    holdPiece: Option<PieceType>,
    hasHeld: bool,
    monster: Monster,
    playerLevel: int,
    playerExp: int,
    skillLevels: SkillLevels,
    comboChain: int,
    pendingSkills: seq<SkillId>,
    isLevelUpMenuVisible: bool,
    totalLinesCleared: int,
    charge: Charge,
    steadyMindPlacement: int,
    flameBurnTurns: int,
    tracker: Tracker,
    lastRotationWasSpin: bool)

  /**
   * What every operation keeps: a 20x10 board, orientations 0..3, a preview
   * of five, a monster of the five stages with hit points left, a player at
   * level 1 or more below the next requirement, no negative skill, the line
   * level in step with the line count, a count of singles below three, a
   * back-to-back flag only after a qualifying clear.
   */
  predicate ValidState(s: SessionState) {
    WellFormed(s.board) &&
    (s.currentPiece.Some? ==> s.currentPiece.value.rotation < 4) &&
    QueueValid(s.queue) &&
    0 <= s.monster.stage < TotalMonsters && s.monster.loop >= 0 && s.monster.hp > 0 &&
    s.playerLevel >= 1 && 0 <= s.playerExp < GetLevelRequirement(s.playerLevel) &&
    LevelsNonNegative(s.skillLevels) &&
    s.totalLinesCleared >= 0 && s.level == s.totalLinesCleared / LinesPerLevel &&
    s.comboChain >= 0 && ChargeValid(s.charge) && TrackerValid(s.tracker) &&
    s.steadyMindPlacement >= 0 && s.flameBurnTurns >= 0
  }

  /** The random draws one step may consume: the two bags of a queue refill and the shuffled skills of up to two level-ups. */
  datatype Luck = Luck(bagA: seq<PieceType>, bagB: seq<PieceType>, firstSkills: seq<SkillId>, secondSkills: seq<SkillId>)

  /** `createBagQueue` returns seven pieces. */
  predicate LuckValid(luck: Luck) {
    |luck.bagA| == 7 && |luck.bagB| == 7
  }

  // ------------------------------------------------------------ start

  /** The state before the first game: the initial values of the component's state and refs. */
  function Initial(firstBag: seq<PieceType>, secondBag: seq<PieceType>): SessionState
    requires |firstBag| == 7 && |secondBag| == 7
  {
    SessionState(CreateEmptyBoard(), None, Queue(firstBag + secondBag, 0), 0, false, false, None, false,
      Monster(0, 0, GetMonsterMaxHP(0, 0)), 1, 0, InitialSkillLevels(), 0, [], false,
      0, Charge(0, false), 0, 0, Tracker(false, false), false)
  }

  /**
   * `startGame`: an empty board, two new bags with the first piece of the
   * first in play, the first monster at full health, the player at level 1
   * without experience or skills, every counter and flag cleared.
   */
  function Started(firstBag: seq<PieceType>, secondBag: seq<PieceType>): SessionState
    requires |firstBag| == 7 && |secondBag| == 7
  {
    SessionState(CreateEmptyBoard(), Some(CreatePiece(firstBag[0])), Queue(firstBag + secondBag, 1), 0, true, false, None, false,
      Monster(0, 0, GetMonsterMaxHP(0, 0)), 1, 0, InitialSkillLevels(), 0, [], false,
      0, Charge(0, false), 0, 0, Tracker(false, false), false)
  }

  /** Before the first game there is no piece and the game is not running; the invariant holds. */
  lemma InitialRule(firstBag: seq<PieceType>, secondBag: seq<PieceType>)
    requires |firstBag| == 7 && |secondBag| == 7
    ensures var s := Initial(firstBag, secondBag);
      ValidState(s) && s.currentPiece.None? && !s.isRunning && !s.isGameOver && Preview(s.queue) == firstBag[..5]
  {
    var s := Initial(firstBag, secondBag);
    assert Preview(s.queue) == (firstBag + secondBag)[..5];
  }

  /**
   * A started game runs the first piece of the first bag with the next five
   * of that bag in the preview, on an empty board against the first monster
   * at full health; the invariant holds.
   */
  lemma StartedRule(firstBag: seq<PieceType>, secondBag: seq<PieceType>)
    requires |firstBag| == 7 && |secondBag| == 7
    ensures var s := Started(firstBag, secondBag);
      ValidState(s) && s.isRunning && !s.isGameOver &&
      s.currentPiece == Some(CreatePiece(firstBag[0])) && Preview(s.queue) == firstBag[1..6] &&
      s.board == CreateEmptyBoard() && s.monster == Monster(0, 0, MonsterMaxHPs[0])
  {
    var s := Started(firstBag, secondBag);
    assert Preview(s.queue) == (firstBag + secondBag)[1..6];
  }

  // ---------------------------------------------------- dealDamageToMonster

  datatype Hit = Hit(state: SessionState, defeated: bool)

  /** The fields a hit on the monster never touches. */
  predicate HitKeeps(s: SessionState, r: SessionState) {
    r.board == s.board && r.currentPiece == s.currentPiece && r.queue == s.queue && r.level == s.level &&
    r.isRunning == s.isRunning && r.isGameOver == s.isGameOver && r.holdPiece == s.holdPiece &&
    r.hasHeld == s.hasHeld && r.skillLevels == s.skillLevels && r.totalLinesCleared == s.totalLinesCleared &&
    r.charge == s.charge && r.steadyMindPlacement == s.steadyMindPlacement && r.tracker == s.tracker &&
    r.lastRotationWasSpin == s.lastRotationWasSpin
  }

  /**
   * The defeat of the monster: its maximum hit points are paid as
   * experience, which levels up; three skills are offered when a level was
   * gained; the combo and the burn are reset; the next monster comes.
   */
  function Defeat(s: SessionState, shuffled: seq<SkillId>): SessionState
    requires 0 <= s.monster.stage < TotalMonsters && s.playerLevel >= 1
  {
    var reward := GetMonsterMaxHP(s.monster.stage, s.monster.loop);
    var p := LevelUp(s.playerExp + reward, s.playerLevel);
    var leveledUp := p.level > s.playerLevel;
    s.(playerExp := p.exp, playerLevel := p.level,
       pendingSkills := if leveledUp then FirstThree(shuffled) else s.pendingSkills,
       isLevelUpMenuVisible := leveledUp || s.isLevelUpMenuVisible,
       comboChain := 0, flameBurnTurns := 0, monster := NextMonster(s.monster))
  }

  /**
   * `dealDamageToMonster`: nothing for an amount of 0 or less; a wound when
   * hit points remain; otherwise a defeat.
   */
  function AfterDamage(s: SessionState, amount: int, shuffled: seq<SkillId>): (h: Hit)
    requires ValidState(s)
  {
    if amount <= 0 then Hit(s, false)
    else
      var remainingHP := s.monster.hp - amount;
      if remainingHP > 0 then Hit(s.(monster := s.monster.(hp := remainingHP)), false)
      else Hit(Defeat(s, shuffled), true)
  }

  /** A hit keeps the invariant. */
  lemma DamageKeepsValid(s: SessionState, amount: int, shuffled: seq<SkillId>)
    requires ValidState(s)
    ensures ValidState(AfterDamage(s, amount, shuffled).state)
  {
    if amount > 0 && s.monster.hp - amount <= 0 {
      assert ValidState(Defeat(s, shuffled));
    }
  }

  /** A hit changes the monster, the player, the offer, the combo and the burn, and nothing else. */
  lemma DamageFrame(s: SessionState, amount: int, shuffled: seq<SkillId>)
    requires ValidState(s)
    ensures HitKeeps(s, AfterDamage(s, amount, shuffled).state)
  {
    if amount > 0 && s.monster.hp - amount <= 0 {
      assert HitKeeps(s, Defeat(s, shuffled));
    }
  }

  /** An amount of 0 or less changes nothing; a hit that leaves hit points takes exactly the amount off and changes nothing else. */
  lemma DamageWounds(s: SessionState, amount: int, shuffled: seq<SkillId>)
    requires ValidState(s)
    ensures amount <= 0 ==> AfterDamage(s, amount, shuffled) == Hit(s, false)
    ensures amount > 0 && s.monster.hp - amount > 0 ==>
      AfterDamage(s, amount, shuffled) == Hit(s.(monster := Monster(s.monster.stage, s.monster.loop, s.monster.hp - amount)), false)
  {
  }

  /**
   * A defeat: the player ends below the requirement of a level no lower than
   * before, having gained a level exactly when the reward reached the
   * requirement, with the reward converted into levels without loss; a
   * level gained offers the first three shuffled skills; the next monster
   * comes at full health, one loop further after the fifth; the burn and the
   * combo are reset.
   */
  lemma DamageDefeats(s: SessionState, amount: int, shuffled: seq<SkillId>)
    requires ValidState(s) && amount > 0 && s.monster.hp - amount <= 0
    ensures var h := AfterDamage(s, amount, shuffled);
      var r, reward := h.state, GetMonsterMaxHP(s.monster.stage, s.monster.loop);
      h.defeated &&
      r.playerLevel >= s.playerLevel && 0 <= r.playerExp < GetLevelRequirement(r.playerLevel) &&
      ExpToReach(r.playerLevel) + r.playerExp == ExpToReach(s.playerLevel) + s.playerExp + reward &&
      (r.playerLevel > s.playerLevel <==> s.playerExp + reward >= GetLevelRequirement(s.playerLevel)) &&
      (r.playerLevel > s.playerLevel ==> r.pendingSkills == FirstThree(shuffled) && r.isLevelUpMenuVisible) &&
      (r.playerLevel == s.playerLevel ==> r.pendingSkills == s.pendingSkills && r.isLevelUpMenuVisible == s.isLevelUpMenuVisible) &&
      r.monster.stage == (s.monster.stage + 1) % TotalMonsters &&
      r.monster.loop == (if r.monster.stage == 0 then s.monster.loop + 1 else s.monster.loop) &&
      r.monster.hp == GetMonsterMaxHP(r.monster.stage, r.monster.loop) &&
      r.flameBurnTurns == 0 && r.comboChain == 0 &&
      r.board == s.board && r.currentPiece == s.currentPiece && r.queue == s.queue &&
      r.skillLevels == s.skillLevels && r.tracker == s.tracker && r.charge == s.charge
  {
    LevelUpConservesExperience(s.playerExp + GetMonsterMaxHP(s.monster.stage, s.monster.loop), s.playerLevel);
  }

  // ---------------------------------------------------------- lockPiece

  /** The damage a clearing lock deals: the clear's damage, the charged strike's bonus and the burn's. */
  function LockDamage(s: SessionState, before: Board, piece: ActivePiece, clearedLines: int): int
    requires ValidState(s) && WellFormed(before)
  {
    var kind := TSpinOf(before, piece, s.lastRotationWasSpin, clearedLines);
    var tracker := UpdateBackToBack(s.tracker, kind != NoSpin || clearedLines == 4);
    ClearDamage(clearedLines, s.comboChain + 1, kind, tracker.isBackToBack, s.skillLevels)
    + ChargeStep(s.skillLevels.chargedStrike, s.charge, clearedLines).bonus
    + FlameBurn(s.skillLevels.flameStrike, s.flameBurnTurns).bonus
  }

  /**
   * The bookkeeping of a clearing lock before the hit (`before` is the board
   * the piece was dropped on, which the T-spin test reads): one more link of
   * the combo, the line count and level, the back-to-back tracker, the
   * charged strike and the burn stepped, the spin forgotten.
   */
  function Scored(s: SessionState, before: Board, piece: ActivePiece, clearedLines: int): SessionState
    requires ValidState(s) && WellFormed(before) && clearedLines > 0
  {
    var kind := TSpinOf(before, piece, s.lastRotationWasSpin, clearedLines);
    var total := s.totalLinesCleared + clearedLines;
    s.(comboChain := s.comboChain + 1, totalLinesCleared := total, level := total / LinesPerLevel,
       lastRotationWasSpin := false, tracker := UpdateBackToBack(s.tracker, kind != NoSpin || clearedLines == 4),
       charge := ChargeStep(s.skillLevels.chargedStrike, s.charge, clearedLines).charge,
       flameBurnTurns := FlameBurn(s.skillLevels.flameStrike, s.flameBurnTurns).turns)
  }

  lemma ScoredKeepsValid(s: SessionState, before: Board, piece: ActivePiece, clearedLines: int)
    requires ValidState(s) && WellFormed(before) && clearedLines > 0
    ensures ValidState(Scored(s, before, piece, clearedLines))
  {
    ChargeRule(s.skillLevels.chargedStrike, s.charge, clearedLines);
  }

  /**
   * The clearing branch of `lockPiece`: the bookkeeping, then the hit with
   * the lock's damage, after which the burn is rekindled for `2 * level`
   * turns unless the monster fell.
   */
  function AfterScore(s: SessionState, before: Board, piece: ActivePiece, clearedLines: int, shuffled: seq<SkillId>): SessionState
    requires ValidState(s) && WellFormed(before) && clearedLines > 0
  {
    var scored := Scored(s, before, piece, clearedLines);
    var damage := LockDamage(s, before, piece, clearedLines);
    if damage > 0 then
      ScoredKeepsValid(s, before, piece, clearedLines);
      var hit := AfterDamage(scored, damage, shuffled);
      hit.state.(flameBurnTurns := FlameAfterHit(s.skillLevels.flameStrike, hit.state.flameBurnTurns, hit.defeated))
    else scored
  }

  /** Scoring keeps the invariant. */
  lemma ScoreKeepsValid(s: SessionState, before: Board, piece: ActivePiece, clearedLines: int, shuffled: seq<SkillId>)
    requires ValidState(s) && WellFormed(before) && clearedLines > 0
    ensures ValidState(AfterScore(s, before, piece, clearedLines, shuffled))
  {
    var scored := Scored(s, before, piece, clearedLines);
    ScoredKeepsValid(s, before, piece, clearedLines);
    if LockDamage(s, before, piece, clearedLines) > 0 {
      DamageKeepsValid(scored, LockDamage(s, before, piece, clearedLines), shuffled);
    }
  }

  /**
   * Scoring leaves the board, the pieces and the queue alone, forgets the
   * spin, counts the lines, and steps the back-to-back tracker with "T-spin
   * or four lines" and the charged strike with the line count.
   */
  lemma ScoreFrame(s: SessionState, before: Board, piece: ActivePiece, clearedLines: int, shuffled: seq<SkillId>)
    requires ValidState(s) && WellFormed(before) && clearedLines > 0
    ensures var r := AfterScore(s, before, piece, clearedLines, shuffled);
      r.board == s.board && r.queue == s.queue && r.currentPiece == s.currentPiece && r.isRunning == s.isRunning &&
      r.hasHeld == s.hasHeld && r.skillLevels == s.skillLevels && r.steadyMindPlacement == s.steadyMindPlacement &&
      !r.lastRotationWasSpin && r.totalLinesCleared == s.totalLinesCleared + clearedLines &&
      r.tracker == UpdateBackToBack(s.tracker, TSpinOf(before, piece, s.lastRotationWasSpin, clearedLines) != NoSpin || clearedLines == 4) &&
      r.charge == ChargeStep(s.skillLevels.chargedStrike, s.charge, clearedLines).charge
  {
    var scored := Scored(s, before, piece, clearedLines);
    ScoredKeepsValid(s, before, piece, clearedLines);
    if LockDamage(s, before, piece, clearedLines) > 0 {
      DamageFrame(scored, LockDamage(s, before, piece, clearedLines), shuffled);
    }
  }

  /**
   * The spawn at the end of `lockPiece`: the next piece of the queue at the
   * spawn position. If it fits it comes into play, the hold is free again
   * and the placement counts for the steady mind; if not, the game is over.
   */
  function AfterSpawn(s: SessionState, luck: Luck): (r: SessionState)
    requires ValidState(s) && LuckValid(luck)
  {
    var d := DrawNext(s.queue, luck.bagA, luck.bagB);
    var spawned := CreatePiece(d.piece);
    if Fits(spawned, s.board, 0, 0, spawned.rotation) then
      var steady := SteadyStep(s.skillLevels.steadyMind, s.steadyMindPlacement);
      var placed := s.(queue := d.queue, currentPiece := Some(spawned), hasHeld := false, steadyMindPlacement := steady.placement);
      if steady.damage > 0 then AfterDamage(placed, steady.damage, luck.secondSkills).state else placed
    else s.(queue := d.queue, currentPiece := None, isRunning := false, isGameOver := true)
  }

  /** The spawn keeps the invariant. */
  lemma SpawnKeepsValid(s: SessionState, luck: Luck)
    requires ValidState(s) && LuckValid(luck)
    ensures ValidState(AfterSpawn(s, luck))
  {
    var d := DrawNext(s.queue, luck.bagA, luck.bagB);
    var spawned := CreatePiece(d.piece);
    if Fits(spawned, s.board, 0, 0, spawned.rotation) {
      var steady := SteadyStep(s.skillLevels.steadyMind, s.steadyMindPlacement);
      var placed := s.(queue := d.queue, currentPiece := Some(spawned), hasHeld := false, steadyMindPlacement := steady.placement);
      assert ValidState(placed);
      if steady.damage > 0 {
        DamageKeepsValid(placed, steady.damage, luck.secondSkills);
      }
    }
  }

  /** The spawn leaves the board, the tracker, the charge, the skills, the line count and the spin alone. */
  lemma SpawnFrame(s: SessionState, luck: Luck)
    requires ValidState(s) && LuckValid(luck)
    ensures var r := AfterSpawn(s, luck);
      r.board == s.board && r.tracker == s.tracker && r.charge == s.charge && r.skillLevels == s.skillLevels &&
      r.totalLinesCleared == s.totalLinesCleared && r.level == s.level && r.lastRotationWasSpin == s.lastRotationWasSpin &&
      r.queue == DrawNext(s.queue, luck.bagA, luck.bagB).queue && (r.comboChain == s.comboChain || r.comboChain == 0)
  {
    var d := DrawNext(s.queue, luck.bagA, luck.bagB);
    var spawned := CreatePiece(d.piece);
    if Fits(spawned, s.board, 0, 0, spawned.rotation) {
      var steady := SteadyStep(s.skillLevels.steadyMind, s.steadyMindPlacement);
      var placed := s.(queue := d.queue, currentPiece := Some(spawned), hasHeld := false, steadyMindPlacement := steady.placement);
      assert ValidState(placed);
      if steady.damage > 0 {
        DamageFrame(placed, steady.damage, luck.secondSkills);
      }
    }
  }

  /**
   * The first part of `lockPiece`: the piece merged into the board and full
   * rows cleared; a clear scores, a lock without one breaks the combo and
   * forgets the spin.
   */
  function Settled(s: SessionState, piece: ActivePiece, shuffled: seq<SkillId>): SessionState
    requires ValidState(s)
  {
    var merged := Merged(s.board, piece);
    var clearedLines := CountFull(merged);
    ClearedShape(merged);
    var cleared := s.(board := Cleared(merged));
    if clearedLines > 0 then AfterScore(cleared, s.board, piece, clearedLines, shuffled)
    else cleared.(comboChain := 0, lastRotationWasSpin := false)
  }

  /** Settling a piece keeps the invariant. */
  lemma SettledKeepsValid(s: SessionState, piece: ActivePiece, shuffled: seq<SkillId>)
    requires ValidState(s)
    ensures ValidState(Settled(s, piece, shuffled))
  {
    var merged := Merged(s.board, piece);
    ClearedShape(merged);
    var cleared := s.(board := Cleared(merged));
    if CountFull(merged) > 0 {
      ScoreKeepsValid(cleared, s.board, piece, CountFull(merged), shuffled);
    }
  }

  /** `lockPiece`: the piece settles, then the next piece spawns. */
  function AfterLock(s: SessionState, piece: ActivePiece, luck: Luck): SessionState
    requires ValidState(s) && LuckValid(luck)
  {
    SettledKeepsValid(s, piece, luck.firstSkills);
    AfterSpawn(Settled(s, piece, luck.firstSkills), luck)
  }

  /** A lock keeps the invariant. */
  lemma LockKeepsValid(s: SessionState, piece: ActivePiece, luck: Luck)
    requires ValidState(s) && LuckValid(luck)
    ensures ValidState(AfterLock(s, piece, luck))
  {
    SettledKeepsValid(s, piece, luck.firstSkills);
    SpawnKeepsValid(Settled(s, piece, luck.firstSkills), luck);
  }

  /**
   * The damage of a clearing lock is the damage calculator's for the same
   * clear, with the calculator's incoming back-to-back flag taken from "the
   * previous clearing lock qualified", plus the two skills the calculator
   * does not know.
   */
  lemma LockDamageBreakdown(s: SessionState, before: Board, piece: ActivePiece, clearedLines: int)
    requires ValidState(s) && WellFormed(before) && clearedLines > 0
    ensures var kind := TSpinOf(before, piece, s.lastRotationWasSpin, clearedLines);
      var context := Battle.BattleContext(s.comboChain, s.tracker.lastClearWasTetris, kind, clearedLines);
      LockDamage(s, before, piece, clearedLines) ==
        Battle.CalculateDamage(context, ToBattleSkills(s.skillLevels)).damage
        + ChargeStep(s.skillLevels.chargedStrike, s.charge, clearedLines).bonus
        + FlameBurn(s.skillLevels.flameStrike, s.flameBurnTurns).bonus
  {
    var kind := TSpinOf(before, piece, s.lastRotationWasSpin, clearedLines);
    ClearDamageMatchesCalculator(s.tracker, s.comboChain, kind, clearedLines, s.skillLevels);
  }

  /**
   * A lock that clears lines counts them, forgets the spin, steps the
   * back-to-back tracker with "T-spin or four lines" and the charged strike
   * with the line count; neither the spawn nor the hit touches those again.
   */
  lemma LockWithClear(s: SessionState, piece: ActivePiece, luck: Luck)
    requires ValidState(s) && LuckValid(luck) && CountFull(Merged(s.board, piece)) > 0
    ensures var n := CountFull(Merged(s.board, piece));
      var kind := TSpinOf(s.board, piece, s.lastRotationWasSpin, n);
      var r := AfterLock(s, piece, luck);
      r.board == Cleared(Merged(s.board, piece)) &&
      r.totalLinesCleared == s.totalLinesCleared + n && r.level == r.totalLinesCleared / LinesPerLevel &&
      !r.lastRotationWasSpin &&
      r.tracker == UpdateBackToBack(s.tracker, kind != NoSpin || n == 4) &&
      r.charge == ChargeStep(s.skillLevels.chargedStrike, s.charge, n).charge
  {
    var merged := Merged(s.board, piece);
    ClearedShape(merged);
    var cleared := s.(board := Cleared(merged));
    var n := CountFull(merged);
    ScoreFrame(cleared, s.board, piece, n, luck.firstSkills);
    SettledKeepsValid(s, piece, luck.firstSkills);
    SpawnFrame(Settled(s, piece, luck.firstSkills), luck);
  }

  /** A lock that clears nothing breaks the combo and forgets the spin, and leaves the back-to-back tracker and the charge alone. */
  lemma LockWithoutClear(s: SessionState, piece: ActivePiece, luck: Luck)
    requires ValidState(s) && LuckValid(luck) && CountFull(Merged(s.board, piece)) == 0
    ensures var r := AfterLock(s, piece, luck);
      r.board == Cleared(Merged(s.board, piece)) && r.comboChain == 0 && !r.lastRotationWasSpin &&
      r.tracker == s.tracker && r.charge == s.charge && r.totalLinesCleared == s.totalLinesCleared
  {
    ClearedShape(Merged(s.board, piece));
    SettledKeepsValid(s, piece, luck.firstSkills);
    SpawnFrame(Settled(s, piece, luck.firstSkills), luck);
  }

  /**
   * The burn of a clearing lock, with the skill: a positive hit rekindles it
   * for `2 * level` turns, or puts it out when the monster falls; without a
   * hit it only burns down one turn while it lasts.
   */
  lemma ScoreBurns(s: SessionState, before: Board, piece: ActivePiece, clearedLines: int, shuffled: seq<SkillId>)
    requires ValidState(s) && WellFormed(before) && clearedLines > 0 && s.skillLevels.flameStrike > 0
    ensures var damage, level := LockDamage(s, before, piece, clearedLines), s.skillLevels.flameStrike;
      var r := AfterScore(s, before, piece, clearedLines, shuffled);
      (damage > 0 && s.monster.hp - damage <= 0 ==> r.flameBurnTurns == 0) &&
      (damage > 0 && s.monster.hp - damage > 0 ==> r.flameBurnTurns == 2 * level && r.monster.hp == s.monster.hp - damage) &&
      (damage <= 0 ==> r.flameBurnTurns == FlameBurn(level, s.flameBurnTurns).turns && r.monster == s.monster)
  {
    var scored := Scored(s, before, piece, clearedLines);
    var damage := LockDamage(s, before, piece, clearedLines);
    ScoredKeepsValid(s, before, piece, clearedLines);
    if damage > 0 {
      DamageWounds(scored, damage, shuffled);
      if s.monster.hp - damage <= 0 {
        DamageDefeats(scored, damage, shuffled);
      }
    }
  }

  /**
   * The hit of a clearing lock, with or without the burn: no damage leaves
   * the monster and the player alone; a hit that leaves hit points takes
   * exactly the lock's damage off; a hit that does not defeats the monster,
   * whose maximum hit points become experience, resets the combo and brings
   * the next monster at full health.
   */
  lemma ScoreHits(s: SessionState, before: Board, piece: ActivePiece, clearedLines: int, shuffled: seq<SkillId>)
    requires ValidState(s) && WellFormed(before) && clearedLines > 0
    ensures var damage := LockDamage(s, before, piece, clearedLines);
      var r := AfterScore(s, before, piece, clearedLines, shuffled);
      (damage <= 0 ==> r.monster == s.monster && r.playerLevel == s.playerLevel && r.playerExp == s.playerExp &&
                       r.comboChain == s.comboChain + 1) &&
      (damage > 0 && s.monster.hp - damage > 0 ==>
         r.monster == Monster(s.monster.stage, s.monster.loop, s.monster.hp - damage) &&
         r.playerLevel == s.playerLevel && r.playerExp == s.playerExp && r.comboChain == s.comboChain + 1) &&
      (damage > 0 && s.monster.hp - damage <= 0 ==>
         r.monster.stage == (s.monster.stage + 1) % TotalMonsters &&
         r.monster.loop == (if r.monster.stage == 0 then s.monster.loop + 1 else s.monster.loop) &&
         r.monster.hp == GetMonsterMaxHP(r.monster.stage, r.monster.loop) &&
         ExpToReach(r.playerLevel) + r.playerExp ==
           ExpToReach(s.playerLevel) + s.playerExp + GetMonsterMaxHP(s.monster.stage, s.monster.loop) &&
         r.comboChain == 0)
  {
    var scored := Scored(s, before, piece, clearedLines);
    var damage := LockDamage(s, before, piece, clearedLines);
    ScoredKeepsValid(s, before, piece, clearedLines);
    if damage > 0 {
      DamageWounds(scored, damage, shuffled);
      if s.monster.hp - damage <= 0 {
        DamageDefeats(scored, damage, shuffled);
      }
    }
  }

  /**
   * The spawn: the piece drawn is the first of the preview. When it fits it
   * is in play, the hold is free again and the steady mind counts the
   * placement and strikes at the fifth; when it does not, the game is over
   * with no piece in play and the counter as it was.
   */
  lemma SpawnRule(s: SessionState, luck: Luck)
    requires ValidState(s) && LuckValid(luck)
    ensures var spawned := CreatePiece(Preview(s.queue)[0]);
      var steady := SteadyStep(s.skillLevels.steadyMind, s.steadyMindPlacement);
      var r := AfterSpawn(s, luck);
      r.queue == DrawNext(s.queue, luck.bagA, luck.bagB).queue && r.board == s.board &&
      (Fits(spawned, s.board, 0, 0, 0) ==>
        r.currentPiece == Some(spawned) && !r.hasHeld && r.steadyMindPlacement == steady.placement &&
        r.isRunning == s.isRunning && r.isGameOver == s.isGameOver &&
        (steady.damage <= 0 ==> r.monster == s.monster)) &&
      (!Fits(spawned, s.board, 0, 0, 0) ==>
        r.currentPiece.None? && r.isGameOver && !r.isRunning && r.hasHeld == s.hasHeld &&
        r.steadyMindPlacement == s.steadyMindPlacement && r.monster == s.monster)
  {
    DrawFollowsPreview(s.queue, luck.bagA, luck.bagB);
    var d := DrawNext(s.queue, luck.bagA, luck.bagB);
    var spawned := CreatePiece(d.piece);
    if Fits(spawned, s.board, 0, 0, spawned.rotation) {
      var steady := SteadyStep(s.skillLevels.steadyMind, s.steadyMindPlacement);
      var placed := s.(queue := d.queue, currentPiece := Some(spawned), hasHeld := false, steadyMindPlacement := steady.placement);
      assert ValidState(placed);
      if steady.damage > 0 {
        DamageFrame(placed, steady.damage, luck.secondSkills);
      }
    }
  }

  // --------------------------------------------------- movePiece, hardDrop

  datatype MoveResult = MoveResult(state: SessionState, moved: bool)

  /**
   * `movePiece` without its lock-delay timer: no piece, or a position that
   * does not fit, changes nothing; otherwise the piece moves, and a move
   * with a vertical part forgets the spin.
   */
  function AfterMove(s: SessionState, offsetX: int, offsetY: int): MoveResult
    requires ValidState(s)
  {
    if s.currentPiece.None? then MoveResult(s, false)
    else
      var p := s.currentPiece.value;
      var tentative := p.(position := Position(p.position.x + offsetX, p.position.y + offsetY));
      if !Fits(tentative, s.board, 0, 0, tentative.rotation) then MoveResult(s, false)
      else MoveResult(s.(currentPiece := Some(tentative),
                         lastRotationWasSpin := if offsetY != 0 then false else s.lastRotationWasSpin), true)
  }

  /** A move keeps the invariant. */
  lemma MoveKeepsValid(s: SessionState, offsetX: int, offsetY: int)
    requires ValidState(s)
    ensures ValidState(AfterMove(s, offsetX, offsetY).state)
  {
  }

  /**
   * A sideways move that succeeds is undone by the opposite move, which
   * succeeds too when the piece fitted where it was: the whole state is as
   * before. A move that fails changes nothing.
   */
  lemma MoveBackUndoes(s: SessionState, offsetX: int)
    requires ValidState(s) && s.currentPiece.Some?
    requires Fits(s.currentPiece.value, s.board, 0, 0, s.currentPiece.value.rotation)
    ensures var m := AfterMove(s, offsetX, 0);
      (m.moved ==> AfterMove(m.state, -offsetX, 0) == MoveResult(s, true)) &&
      (!m.moved ==> m.state == s)
  {
    var p := s.currentPiece.value;
    var m := AfterMove(s, offsetX, 0);
    if m.moved {
      var moved := m.state.currentPiece.value;
      assert moved.(position := Position(moved.position.x + -offsetX, moved.position.y + 0)) == p;
    }
  }

  /**
   * `hardDrop`: with a piece in a running game, the piece falls to where it
   * can fall no further, the piece is moved there when that is lower, the
   * landing is locked and the spin is forgotten.
   */
  function AfterHardDrop(s: SessionState, luck: Luck): SessionState
    requires ValidState(s) && LuckValid(luck)
  {
    if s.currentPiece.None? || !s.isRunning then s
    else AfterLock(Dropped(s), DropTarget(s.currentPiece.value, s.board), luck).(lastRotationWasSpin := false)
  }

  /** The state a hard drop locks from: the piece moved down to where it lands, when that is lower. */
  function Dropped(s: SessionState): (r: SessionState)
    requires ValidState(s) && s.currentPiece.Some?
    ensures ValidState(r)
  {
    var dropDistance := DropTarget(s.currentPiece.value, s.board).position.y - s.currentPiece.value.position.y;
    MoveKeepsValid(s, 0, dropDistance);
    if dropDistance > 0 then AfterMove(s, 0, dropDistance).state else s
  }

  /** A hard drop keeps the invariant. */
  lemma HardDropKeepsValid(s: SessionState, luck: Luck)
    requires ValidState(s) && LuckValid(luck)
    ensures ValidState(AfterHardDrop(s, luck))
  {
    if s.currentPiece.Some? && s.isRunning {
      LockKeepsValid(Dropped(s), DropTarget(s.currentPiece.value, s.board), luck);
    }
  }

  /**
   * A hard drop locks the piece where it can move down no further, in its
   * column and orientation. The spin of a last rotation counts for the
   * T-spin test only when the piece did not fall: the move forgets it first.
   */
  lemma HardDropLands(s: SessionState, luck: Luck)
    requires ValidState(s) && LuckValid(luck) && s.currentPiece.Some? && s.isRunning
    ensures var p := s.currentPiece.value;
      var landing := DropTarget(p, s.board);
      var n := CountFull(Merged(s.board, landing));
      var spin := s.lastRotationWasSpin && landing.position.y == p.position.y;
      var r := AfterHardDrop(s, luck);
      !Fits(landing, s.board, 0, 1, landing.rotation) &&
      landing.kind == p.kind && landing.rotation == p.rotation && landing.position.x == p.position.x &&
      r.board == Cleared(Merged(s.board, landing)) && !r.lastRotationWasSpin &&
      (n > 0 ==> r.tracker == UpdateBackToBack(s.tracker, TSpinOf(s.board, landing, spin, n) != NoSpin || n == 4))
  {
    var p := s.currentPiece.value;
    var landing := DropTarget(p, s.board);
    DropTargetFits(p, s.board);
    var dropDistance := landing.position.y - p.position.y;
    var moved := Dropped(s);
    if dropDistance > 0 {
      var tentative := p.(position := Position(p.position.x + 0, p.position.y + dropDistance));
      assert tentative == landing;
    }
    assert moved.board == s.board && moved.tracker == s.tracker;
    var n := CountFull(Merged(s.board, landing));
    if n > 0 {
      LockWithClear(moved, landing, luck);
    } else {
      LockWithoutClear(moved, landing, luck);
    }
  }

  // ---------------------------------------------------- attemptRotation

  /**
   * `attemptRotation`: with a piece in a running game that is not an O, the
   * kicks of the turn are tried in order; the first that fits turns and
   * moves the piece and records the spin, and when none fits nothing
   * changes.
   */
  function AfterRotation(s: SessionState, rotationChange: int): SessionState
    requires ValidState(s) && rotationChange >= -4
  {
    if s.currentPiece.None? || !s.isRunning || s.currentPiece.value.kind == O then s
    else
      var p := s.currentPiece.value;
      var newRotation := TurnedTo(p.rotation, rotationChange);
      var kicks := KickTests(p, rotationChange);
      var i := FirstFit(p, s.board, newRotation, kicks);
      if i < |kicks| then s.(currentPiece := Some(Kicked(p, newRotation, kicks[i])), lastRotationWasSpin := rotationChange != 0)
      else s
  }

  /** A rotation keeps the invariant. */
  lemma RotationKeepsValid(s: SessionState, rotationChange: int)
    requires ValidState(s) && rotationChange >= -4
    ensures ValidState(AfterRotation(s, rotationChange))
  {
  }

  /**
   * A turn the game makes (-1, 1 or 2) of a piece that is not an O either
   * lands the piece, turned, at its position plus the first kick of the
   * turn's list that fits, and records the spin; or, when no kick fits,
   * changes nothing. Nothing else changes either way. The list is the
   * table's list for the transition made (`KickTestsFollowTransition`).
   */
  lemma RotationRule(s: SessionState, rotationChange: int)
    requires ValidState(s) && rotationChange in {-1, 1, 2}
    requires s.currentPiece.Some? && s.isRunning && s.currentPiece.value.kind != O
    ensures var p := s.currentPiece.value;
      var target := TurnedTo(p.rotation, rotationChange);
      var kicks := KickTests(p, rotationChange);
      var r := AfterRotation(s, rotationChange);
      (r == s <==> forall j :: 0 <= j < |kicks| ==> !KickFits(p, s.board, target, kicks[j])) &&
      (r != s ==>
        r == s.(currentPiece := r.currentPiece, lastRotationWasSpin := true) &&
        exists i :: 0 <= i < |kicks| && r.currentPiece == Some(Kicked(p, target, kicks[i])) &&
          Fits(Kicked(p, target, kicks[i]), s.board, 0, 0, target) &&
          forall j :: 0 <= j < i ==> !KickFits(p, s.board, target, kicks[j]))
  {
    var p := s.currentPiece.value;
    var target := TurnedTo(p.rotation, rotationChange);
    var kicks := KickTests(p, rotationChange);
    var i := FirstFit(p, s.board, target, kicks);
    if i < |kicks| {
      TurnChangesOrientation(p.rotation, rotationChange);
      assert Kicked(p, target, kicks[i]).rotation != p.rotation;
    }
  }

  /** A quarter turn either way or a half turn reaches another orientation. */
  lemma TurnChangesOrientation(r: nat, rotationChange: int)
    requires r < 4 && rotationChange in {-1, 1, 2}
    ensures TurnedTo(r, rotationChange) != r
  {
    assert r == 0 || r == 1 || r == 2 || r == 3;
  }

  // -------------------------------------------------------- handleHold

  /**
   * `handleHold`: ignored without a piece, in a paused game, or once the
   * hold was used for this piece. Otherwise the hold is used up; an empty
   * slot takes the piece and the next piece of the queue comes in; an
   * occupied slot swaps with the piece only if its piece fits at the spawn
   * position.
   */
  function AfterHold(s: SessionState, luck: Luck): SessionState
    requires ValidState(s) && LuckValid(luck)
  {
    if s.currentPiece.None? || s.hasHeld || !s.isRunning then s
    else if s.holdPiece.None? then
      var d := DrawNext(s.queue, luck.bagA, luck.bagB);
      s.(hasHeld := true, holdPiece := Some(s.currentPiece.value.kind), queue := d.queue,
         currentPiece := Some(CreatePiece(d.piece)))
    else
      var swapped := CreatePiece(s.holdPiece.value);
      if Fits(swapped, s.board, 0, 0, swapped.rotation) then
        s.(hasHeld := true, currentPiece := Some(swapped), holdPiece := Some(s.currentPiece.value.kind))
      else s.(hasHeld := true)
  }

  /** The hold keeps the invariant. */
  lemma HoldKeepsValid(s: SessionState, luck: Luck)
    requires ValidState(s) && LuckValid(luck)
    ensures ValidState(AfterHold(s, luck))
  {
    if s.currentPiece.Some? && !s.hasHeld && s.isRunning {
      if s.holdPiece.None? {
        var d := DrawNext(s.queue, luck.bagA, luck.bagB);
        assert QueueValid(d.queue) && CreatePiece(d.piece).rotation == 0;
      } else {
        assert CreatePiece(s.holdPiece.value).rotation == 0;
      }
    }
  }

  /**
   * The hold rules: a used hold, no piece or a paused game change nothing;
   * an empty slot takes the piece's kind and brings in the first piece of
   * the preview; a held piece that fits at the spawn position trades places
   * with the piece; one that does not leaves slot and piece as they were.
   * The hold is used up in every case but the first; the board, the monster
   * and the player never change.
   */
  lemma HoldRule(s: SessionState, luck: Luck)
    requires ValidState(s) && LuckValid(luck)
    ensures var r := AfterHold(s, luck);
      (s.currentPiece.None? || s.hasHeld || !s.isRunning ==> r == s) &&
      (s.currentPiece.Some? && !s.hasHeld && s.isRunning ==>
        r.hasHeld && r.board == s.board && r.monster == s.monster && r.playerLevel == s.playerLevel &&
        (s.holdPiece.None? ==>
          r.holdPiece == Some(s.currentPiece.value.kind) && r.currentPiece == Some(CreatePiece(Preview(s.queue)[0]))) &&
        (s.holdPiece.Some? && Fits(CreatePiece(s.holdPiece.value), s.board, 0, 0, 0) ==>
          r.holdPiece == Some(s.currentPiece.value.kind) && r.currentPiece == Some(CreatePiece(s.holdPiece.value))) &&
        (s.holdPiece.Some? && !Fits(CreatePiece(s.holdPiece.value), s.board, 0, 0, 0) ==>
          r.holdPiece == s.holdPiece && r.currentPiece == s.currentPiece))
  {
    DrawFollowsPreview(s.queue, luck.bagA, luck.bagB);
  }

  // -------------------------------------------------------- skill choice

  /**
   * A skill button of the level-up menu: one more level of that skill, and
   * the menu closes. The handler itself checks neither that the menu is
   * open nor that the skill was offered: only the menu's rendering of the
   * pending skills restricts what can be chosen, so neither is required here.
   */
  function AfterSkillChoice(s: SessionState, id: SkillId): (r: SessionState)
    requires ValidState(s)
    ensures LevelOf(r.skillLevels, id) == LevelOf(s.skillLevels, id) + 1 && !r.isLevelUpMenuVisible
    ensures forall other :: other != id ==> LevelOf(r.skillLevels, other) == LevelOf(s.skillLevels, other)
    ensures r == s.(skillLevels := r.skillLevels, isLevelUpMenuVisible := false)
  {
    s.(skillLevels := Raised(s.skillLevels, id), isLevelUpMenuVisible := false)
  }

  /** Choosing a skill keeps the invariant. */
  lemma SkillChoiceKeepsValid(s: SessionState, id: SkillId)
    requires ValidState(s)
    ensures ValidState(AfterSkillChoice(s, id))
  {
  }
}
