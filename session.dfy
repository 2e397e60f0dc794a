/**
 * The game component (`src/components/TetrisGame.tsx`) as an object whose
 * fields are its state and refs, each operation changing them step by step
 * as the component's callbacks do. Every operation is proved to produce the
 * state its function in `SessionSpec` describes.
 */
module Session {
  import opened Types
  import opened Tetromino
  import opened BoardRules
  import opened Rotation
  import opened SessionKicks
  import opened SessionRules
  import opened SessionSpec

  /** The level-up loop of `dealDamageToMonster`: pay each requirement the experience reaches and go up a level. */
  method ApplyLevelUps(reward: int, level: int) returns (p: Progress)
    requires level >= 1
    ensures p == LevelUp(reward, level)
  {
    var exp := reward;
    var newLevel := level;
    var requirement := GetLevelRequirement(newLevel);
    while exp >= requirement
      invariant newLevel >= level && requirement == GetLevelRequirement(newLevel)
      invariant LevelUp(exp, newLevel) == LevelUp(reward, level)
      decreases exp
    {
      exp := exp - requirement;
      newLevel := newLevel + 1;
      requirement := GetLevelRequirement(newLevel);
    }
    p := Progress(exp, newLevel);
  }

  /** The damage of a clear before the T-spin, back-to-back and skill bonuses, as `lockPiece` adds it up. */
  method ClearBaseDamage(clearedLines: int, nextCombo: int, skills: SkillLevels) returns (damage: int)
    ensures damage == ClearDamage(clearedLines, nextCombo, NoSpin, false, skills)
  {
    damage := LineDamage(clearedLines) + skills.flatAttack;
    if clearedLines == 1 {
      damage := damage + skills.singleLineBonus;
    } else if clearedLines == 4 {
      damage := damage + skills.tetrisBonus * 2;
    }
    if nextCombo > 1 && skills.comboBonus > 0 {
      damage := damage + nextCombo * skills.comboBonus;
    }
  }

  /** The ghost loop of `hardDrop`: lower the piece while it can fall one more row. */
  method DropGhost(start: ActivePiece, board: Board) returns (ghostPiece: ActivePiece, dropDistance: int)
    requires WellFormed(board)
    ensures ghostPiece == DropTarget(start, board)
    ensures dropDistance == ghostPiece.position.y - start.position.y && dropDistance >= 0
  {
    ghostPiece := start;
    dropDistance := 0;
    var canFall := CanMove(ghostPiece, board, 0, 1, ghostPiece.rotation);
    while canFall
      invariant DropTarget(ghostPiece, board) == DropTarget(start, board)
      invariant ghostPiece == start.(position := Position(start.position.x, start.position.y + dropDistance))
      invariant dropDistance >= 0
      invariant canFall == Fits(ghostPiece, board, 0, 1, ghostPiece.rotation)
      decreases Height - ghostPiece.position.y
    {
      FitsAboveFloor(ghostPiece, board, 1);
      ghostPiece := Lowered(ghostPiece);
      dropDistance := dropDistance + 1;
      canFall := CanMove(ghostPiece, board, 0, 1, ghostPiece.rotation);
    }
  }

  /** The kick loop of `attemptRotation`: the index of the first kick that fits, or the list's length. */
  method FindKick(piece: ActivePiece, board: Board, newRotation: nat, kickTests: seq<Kick>) returns (k: nat)
    requires WellFormed(board)
    ensures k == FirstFit(piece, board, newRotation, kickTests)
  {
    k := 0;
    while k < |kickTests|
      invariant k <= |kickTests|
      invariant forall j :: 0 <= j < k ==> !KickFits(piece, board, newRotation, kickTests[j])
    {
      var test := kickTests[k];
      var adjustedPiece := Kicked(piece, newRotation, test);
      var fits := CanMove(adjustedPiece, board, 0, 0, adjustedPiece.rotation);
      if fits {
        return;
      }
      k := k + 1;
    }
  }

  /**
   * The component. Its state hooks and refs are the fields of one record,
   * `state`, named as in the component; each step of a callback replaces
   * the fields it sets.
   */
  class GameSession {
    var state: SessionState

    predicate Valid()
      reads this
    {
      ValidState(state)
    }

    /** The component's initial state, with the two bags its queue starts from. */
    constructor(firstBag: seq<PieceType>, secondBag: seq<PieceType>)
      requires |firstBag| == 7 && |secondBag| == 7
      ensures state == Initial(firstBag, secondBag)
      ensures Valid()
    {
      state := Initial(firstBag, secondBag);
      InitialRule(firstBag, secondBag);
    }

    /** `startGame`. */
    method StartGame(firstBag: seq<PieceType>, secondBag: seq<PieceType>)
      requires |firstBag| == 7 && |secondBag| == 7
      modifies this
      ensures state == Started(firstBag, secondBag)
      ensures Valid()
    {
      var newQueue := firstBag + secondBag;
      state := state.(queue := Queue(newQueue, 1));
      state := state.(board := CreateEmptyBoard());
      state := state.(currentPiece := Some(CreatePiece(newQueue[0])));
      state := state.(totalLinesCleared := 0, level := 0);
      state := state.(isGameOver := false, isRunning := true);
      state := state.(holdPiece := None, hasHeld := false);
      state := state.(monster := Monster(0, 0, GetMonsterMaxHP(0, 0)));
      state := state.(playerLevel := 1, playerExp := 0);
      state := state.(skillLevels := InitialSkillLevels());
      state := state.(comboChain := 0, pendingSkills := [], isLevelUpMenuVisible := false);
      state := state.(charge := Charge(0, false), steadyMindPlacement := 0, flameBurnTurns := 0);
      state := state.(tracker := Tracker(false, false), lastRotationWasSpin := false);
      StartedRule(firstBag, secondBag);
    }

    /** `dealDamageToMonster`; `shuffled` is the random order the skills are offered in. */
    method DealDamageToMonster(amount: int, shuffled: seq<SkillId>) returns (defeated: bool)
      requires Valid()
      modifies this
      ensures Hit(state, defeated) == AfterDamage(old(state), amount, shuffled)
      ensures Valid()
    {
      DamageKeepsValid(state, amount, shuffled);
      if amount <= 0 {
        return false;
      }
      var remainingHP := state.monster.hp - amount;
      if remainingHP > 0 {
        state := state.(monster := state.monster.(hp := remainingHP));
        return false;
      }
      DefeatMonster(shuffled);
      return true;
    }

    /** The defeat branch of `dealDamageToMonster`: the reward, the level-up loop, the offer, the next monster. */
    method DefeatMonster(shuffled: seq<SkillId>)
      requires 0 <= state.monster.stage < TotalMonsters && state.playerLevel >= 1
      modifies this
      ensures state == Defeat(old(state), shuffled)
    {
      var reward := GetMonsterMaxHP(state.monster.stage, state.monster.loop);
      var p := ApplyLevelUps(state.playerExp + reward, state.playerLevel);
      var leveledUp := p.level > state.playerLevel;
      if leveledUp {
        state := state.(pendingSkills := FirstThree(shuffled), isLevelUpMenuVisible := true);
      }
      state := state.(playerLevel := p.level, comboChain := 0, playerExp := p.exp);
      state := state.(flameBurnTurns := 0, monster := NextMonster(state.monster));
    }

    /** `updateBackToBackState`: only the two back-to-back refs change. */
    method UpdateBackToBackState(isTetris: bool)
      modifies this
      ensures state == old(state).(tracker := UpdateBackToBack(old(state.tracker), isTetris))
    {
      if isTetris {
        if state.tracker.lastClearWasTetris {
          state := state.(tracker := state.tracker.(isBackToBack := true));
        }
        state := state.(tracker := state.tracker.(lastClearWasTetris := true));
      } else {
        state := state.(tracker := Tracker(false, false));
      }
    }

    /** `getNextPieceType`, with the two bags a refill appends; only the queue changes. */
    method GetNextPieceType(bagA: seq<PieceType>, bagB: seq<PieceType>) returns (nextType: PieceType)
      requires QueueValid(state.queue) && |bagA| == 7 && |bagB| == 7
      modifies this
      ensures Draw(nextType, state.queue) == DrawNext(old(state.queue), bagA, bagB)
      ensures state == old(state).(queue := state.queue)
    {
      var nextQueue, upcomingPieceIndex := state.queue.pieces, state.queue.index;
      nextType := nextQueue[upcomingPieceIndex];
      var nextIndex := upcomingPieceIndex + 1;
      if |nextQueue| - nextIndex < 7 {
        state := state.(queue := Queue(nextQueue[nextIndex..] + bagA + bagB, 0));
      } else {
        state := state.(queue := Queue(nextQueue, nextIndex));
      }
    }

    /** `nextPiecesPreview`: the next five pieces of the queue, fewer at its end. */
    method NextPiecesPreview() returns (preview: seq<PieceType>)
      requires 0 <= state.queue.index <= |state.queue.pieces|
      ensures preview == Preview(state.queue)
    {
      var nextQueue, upcomingPieceIndex := state.queue.pieces, state.queue.index;
      preview := [];
      var i := 0;
      while i < 5
        invariant 0 <= i <= 5
        invariant preview == nextQueue[upcomingPieceIndex..if upcomingPieceIndex + i <= |nextQueue| then upcomingPieceIndex + i else |nextQueue|]
      {
        var index := upcomingPieceIndex + i;
        if index < |nextQueue| {
          preview := preview + [nextQueue[index]];
        }
        i := i + 1;
      }
    }

    /** The clearing branch of `lockPiece`; `before` is the board the piece was dropped on. */
    method ScoreClear(before: Board, piece: ActivePiece, clearedLines: int, shuffled: seq<SkillId>)
      requires Valid() && WellFormed(before) && clearedLines > 0
      modifies this
      ensures state == AfterScore(old(state), before, piece, clearedLines, shuffled)
      ensures Valid()
    {
      ScoreKeepsValid(state, before, piece, clearedLines, shuffled);
      ScoredKeepsValid(state, before, piece, clearedLines);
      var skills := state.skillLevels;
      var damage := ScoreBookkeeping(before, piece, clearedLines);
      if damage > 0 {
        var defeated := DealDamageToMonster(damage, shuffled);
        if skills.flameStrike > 0 {
          state := state.(flameBurnTurns := if defeated then 0 else 2 * skills.flameStrike);
        }
      }
    }

    /** The bookkeeping of a clear and the damage it adds up, before the hit. */
    method ScoreBookkeeping(before: Board, piece: ActivePiece, clearedLines: int) returns (damage: int)
      requires Valid() && WellFormed(before) && clearedLines > 0
      modifies this
      ensures state == Scored(old(state), before, piece, clearedLines)
      ensures damage == LockDamage(old(state), before, piece, clearedLines)
    {
      var skills := state.skillLevels;
      var nextCombo := RecordClear(clearedLines);
      damage := ClearBaseDamage(clearedLines, nextCombo, skills);
      var spinBonus := ScoreSpin(before, piece, clearedLines);
      var chargeBonus := ChargedStrikeStep(clearedLines);
      var burnBonus := FlameBurnStep();
      damage := damage + spinBonus + chargeBonus + burnBonus;
    }

    /** The first updates of a clear: one more link of the combo, the line count and the level. */
    method RecordClear(clearedLines: int) returns (nextCombo: int)
      modifies this
      ensures nextCombo == old(state.comboChain) + 1
      ensures state == old(state).(comboChain := nextCombo, totalLinesCleared := old(state.totalLinesCleared) + clearedLines,
        level := (old(state.totalLinesCleared) + clearedLines) / LinesPerLevel)
    {
      nextCombo := state.comboChain + 1;
      state := state.(comboChain := nextCombo);
      state := state.(totalLinesCleared := state.totalLinesCleared + clearedLines);
      state := state.(level := state.totalLinesCleared / LinesPerLevel);
    }

    /**
     * The T-spin test and the back-to-back tracker of a clear: the spin is
     * forgotten, and a T-spin or a four-line clear adds its bonus and 2 more
     * when it makes a back-to-back.
     */
    method ScoreSpin(before: Board, piece: ActivePiece, clearedLines: int) returns (bonus: int)
      requires WellFormed(before)
      modifies this
      ensures var kind := TSpinOf(before, piece, old(state.lastRotationWasSpin), clearedLines);
        var tracker := UpdateBackToBack(old(state.tracker), kind != NoSpin || clearedLines == 4);
        state == old(state).(lastRotationWasSpin := false, tracker := tracker) &&
        bonus == TSpinDamage(kind, clearedLines) + (if (kind != NoSpin || clearedLines == 4) && tracker.isBackToBack then 2 else 0)
    {
      var tSpinType := GetTSpinType(before, piece, state.lastRotationWasSpin, clearedLines);
      state := state.(lastRotationWasSpin := false);
      bonus := 0;
      if tSpinType != NoSpin {
        UpdateBackToBackState(true);
        bonus := bonus + TSpinDamage(tSpinType, clearedLines);
        if state.tracker.isBackToBack {
          bonus := bonus + 2;
        }
      } else if clearedLines == 4 {
        UpdateBackToBackState(true);
        if state.tracker.isBackToBack {
          bonus := bonus + 2;
        }
      } else {
        UpdateBackToBackState(false);
      }
    }

    /** The charged strike of a clear: only the two charged-strike refs change. */
    method ChargedStrikeStep(clearedLines: int) returns (bonus: int)
      modifies this
      ensures var outcome := ChargeStep(old(state.skillLevels.chargedStrike), old(state.charge), clearedLines);
        state == old(state).(charge := outcome.charge) && bonus == outcome.bonus
    {
      var level := state.skillLevels.chargedStrike;
      bonus := 0;
      if level > 0 {
        if state.charge.ready {
          bonus := 3 * level;
          state := state.(charge := state.charge.(ready := false));
        }
        if clearedLines == 1 {
          state := state.(charge := state.charge.(counter := state.charge.counter + 1));
          if state.charge.counter >= 3 {
            state := state.(charge := Charge(0, true));
          }
        } else {
          state := state.(charge := state.charge.(counter := 0));
        }
      } else {
        state := state.(charge := Charge(0, false));
      }
    }

    /** The burn of a clear: while it lasts it adds its bonus and burns down one turn. */
    method FlameBurnStep() returns (bonus: int)
      modifies this
      ensures var outcome := FlameBurn(old(state.skillLevels.flameStrike), old(state.flameBurnTurns));
        state == old(state).(flameBurnTurns := outcome.turns) && bonus == outcome.bonus
    {
      var level := state.skillLevels.flameStrike;
      bonus := 0;
      if level > 0 && state.flameBurnTurns > 0 {
        bonus := 3 * level;
        state := state.(flameBurnTurns := state.flameBurnTurns - 1);
      }
    }

    /** The spawn at the end of `lockPiece`. */
    method SpawnNext(luck: Luck)
      requires Valid() && LuckValid(luck)
      modifies this
      ensures state == AfterSpawn(old(state), luck)
      ensures Valid()
    {
      SpawnKeepsValid(state, luck);
      var upcomingType := GetNextPieceType(luck.bagA, luck.bagB);
      var spawned := CreatePiece(upcomingType);
      var fits := CanMove(spawned, state.board, 0, 0, spawned.rotation);
      if fits {
        state := state.(currentPiece := Some(spawned), hasHeld := false);
        CountPlacement(luck.secondSkills);
      } else {
        state := state.(currentPiece := None, isRunning := false, isGameOver := true);
      }
    }

    /** The steady-mind count of a successful spawn, and its strike at the fifth placement. */
    method CountPlacement(shuffled: seq<SkillId>)
      requires Valid()
      modifies this
      ensures var steady := SteadyStep(old(state.skillLevels.steadyMind), old(state.steadyMindPlacement));
        var counted := old(state).(steadyMindPlacement := steady.placement);
        ValidState(counted) &&
        state == if steady.damage > 0 then AfterDamage(counted, steady.damage, shuffled).state else counted
      ensures Valid()
    {
      var steady := SteadyStep(state.skillLevels.steadyMind, state.steadyMindPlacement);
      DamageKeepsValid(state.(steadyMindPlacement := steady.placement), steady.damage, shuffled);
      state := state.(steadyMindPlacement := state.steadyMindPlacement + 1);
      if state.skillLevels.steadyMind > 0 && state.steadyMindPlacement >= 5 {
        // The counter is reset before the strike; the strike does not touch it.
        state := state.(steadyMindPlacement := 0);
        var _ := DealDamageToMonster(3 * state.skillLevels.steadyMind, shuffled);
      }
    }

    /** `lockPiece`: the piece settles, then the next piece spawns. */
    method LockPiece(piece: ActivePiece, luck: Luck)
      requires Valid() && LuckValid(luck)
      modifies this
      ensures state == AfterLock(old(state), piece, luck)
      ensures Valid()
    {
      LockKeepsValid(state, piece, luck);
      SettlePiece(piece, luck.firstSkills);
      SpawnNext(luck);
    }

    /** The merge, the line clear and the scoring of `lockPiece`. */
    method SettlePiece(piece: ActivePiece, shuffled: seq<SkillId>)
      requires Valid()
      modifies this
      ensures state == Settled(old(state), piece, shuffled)
      ensures Valid()
    {
      SettledKeepsValid(state, piece, shuffled);
      var before := state.board;
      var merged := MergePieceToBoard(before, piece);
      var clearedBoard, clearedLines := ClearCompletedLines(merged);
      ClearedShape(merged);
      state := state.(board := clearedBoard);
      if clearedLines > 0 {
        ScoreClear(before, piece, clearedLines, shuffled);
      } else {
        state := state.(comboChain := 0, lastRotationWasSpin := false);
      }
    }

    /** `movePiece`, without the lock-delay timer it restarts. */
    method MovePiece(offsetX: int, offsetY: int) returns (moved: bool)
      requires Valid()
      modifies this
      ensures MoveResult(state, moved) == AfterMove(old(state), offsetX, offsetY)
      ensures Valid()
    {
      MoveKeepsValid(state, offsetX, offsetY);
      if state.currentPiece.None? {
        return false;
      }
      var p := state.currentPiece.value;
      var tentative := p.(position := Position(p.position.x + offsetX, p.position.y + offsetY));
      var fits := CanMove(tentative, state.board, 0, 0, tentative.rotation);
      if !fits {
        return false;
      }
      state := state.(currentPiece := Some(tentative));
      if offsetY != 0 {
        state := state.(lastRotationWasSpin := false);
      }
      return true;
    }

    /** `hardDrop`. */
    method HardDrop(luck: Luck)
      requires Valid() && LuckValid(luck)
      modifies this
      ensures state == AfterHardDrop(old(state), luck)
      ensures Valid()
    {
      HardDropKeepsValid(state, luck);
      if state.currentPiece.None? || !state.isRunning {
        return;
      }
      var ghostPiece, dropDistance := DropGhost(state.currentPiece.value, state.board);
      if dropDistance > 0 {
        var _ := MovePiece(0, dropDistance);
      }
      assert state == Dropped(old(state));
      LockPiece(ghostPiece, luck);
      state := state.(lastRotationWasSpin := false);
    }

    /** `attemptRotation`, with the kick lists looked up for the turn actually made. */
    method AttemptRotation(rotationChange: int)
      requires Valid() && rotationChange >= -4
      modifies this
      ensures state == AfterRotation(old(state), rotationChange)
      ensures Valid()
    {
      RotationKeepsValid(state, rotationChange);
      if state.currentPiece.None? || !state.isRunning {
        return;
      }
      var piece := state.currentPiece.value;
      if piece.kind == O {
        return;
      }
      var newRotation := TurnedTo(piece.rotation, rotationChange);
      var kickTests := KickTests(piece, rotationChange);
      var k := FindKick(piece, state.board, newRotation, kickTests);
      assert k == FirstFit(piece, old(state).board, newRotation, kickTests);
      if k < |kickTests| {
        var test := kickTests[k];
        var adjustedPiece := Kicked(piece, newRotation, test);
        state := state.(currentPiece := Some(adjustedPiece), lastRotationWasSpin := rotationChange != 0);
      }
    }

    /** `handleHold`, with the bags a refill appends when the slot was empty. */
    method HandleHold(luck: Luck)
      requires Valid() && LuckValid(luck)
      modifies this
      ensures state == AfterHold(old(state), luck)
      ensures Valid()
    {
      HoldKeepsValid(state, luck);
      if state.currentPiece.None? || state.hasHeld || !state.isRunning {
        return;
      }
      var current := state.currentPiece.value;
      state := state.(hasHeld := true);
      if state.holdPiece.None? {
        state := state.(holdPiece := Some(current.kind));
        var nextType := GetNextPieceType(luck.bagA, luck.bagB);
        state := state.(currentPiece := Some(CreatePiece(nextType)));
        return;
      }
      var swappedPiece := CreatePiece(state.holdPiece.value);
      var fits := CanMove(swappedPiece, state.board, 0, 0, swappedPiece.rotation);
      if fits {
        state := state.(currentPiece := Some(swappedPiece), holdPiece := Some(current.kind));
      }
    }

    /** A skill button of the level-up menu. */
    method ChooseSkill(id: SkillId)
      requires Valid()
      modifies this
      ensures state == AfterSkillChoice(old(state), id)
      ensures Valid()
    {
      SkillChoiceKeepsValid(state, id);
      state := state.(skillLevels := Raised(state.skillLevels, id));
      state := state.(isLevelUpMenuVisible := false);
    }
  }
}
