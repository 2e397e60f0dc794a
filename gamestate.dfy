/**
 * The progression store (`src/contexts/GameStateContext.tsx`): the player's
 * level, experience and skills, the stage reached, and the skill choices
 * waiting to be made, updated by a reducer that builds a new state for
 * every action.
 */
module GameState {
  import opened Types
  import opened Skills

  datatype PlayerState = PlayerState(level: int, exp: int, skills: SkillLevels)

  datatype StageState = StageState(currentStageId: int, highestClearedStage: int)

  /** `pendingSkillChoices` is `null` (None) or a list of skill ids. */
  datatype State = State(player: PlayerState, stage: StageState, pendingSkillChoices: Option<seq<SkillId>>)

  /**
   * The actions. An optional `pendingSkills` that is absent or `null` is
   * None; `Other` stands for an action of any other type.
   */
  datatype Action =
    | SetStage(stageId: int)
    | StageCleared(stageId: int, playerLevel: int, playerExp: int, clearedPending: Option<seq<SkillId>>)
    | SetPlayerProgress(level: int, exp: int, progressPending: Option<seq<SkillId>>)
    | SetSkillLevels(skills: SkillLevels)
    | ClearPendingSkills
    | GainSkillLevel(skillId: SkillId)
    | SetPendingSkills(pendingSkills: Option<seq<SkillId>>)
    | Other

  function Max(a: int, b: int): (m: int)
    ensures m >= a && m >= b && (m == a || m == b)
  {
    if a >= b then a else b
  }

  /** `initialState`: level 1 with no experience and no skill, at stage 1 with none cleared, nothing pending. */
  function InitialState(): (s: State)
    ensures s.player.level == 1 && s.player.exp == 0 && GetTotalSkillLevels(s.player.skills) == 0
    ensures s.stage == StageState(1, 0) && s.pendingSkillChoices.None?
    ensures forall id :: GetSkillLevel(s.player.skills, id) == 0
  {
    InitialTotalIsZero();
    State(PlayerState(1, 0, CreateInitialSkillLevels()), StageState(1, 0), None)
  }

  /** `gameReducer`. */
  function Reduce(state: State, action: Action): (r: State)
    ensures r.stage.highestClearedStage >= state.stage.highestClearedStage
    ensures !action.GainSkillLevel? && !action.SetSkillLevels? ==> r.player.skills == state.player.skills
  {
    match action
    case SetStage(stageId) =>
      state.(stage := state.stage.(currentStageId := stageId))
    case StageCleared(stageId, playerLevel, playerExp, pending) =>
      state.(
        player := state.player.(level := playerLevel, exp := playerExp),
        stage := StageState(Max(state.stage.currentStageId, stageId), Max(state.stage.highestClearedStage, stageId)),
        pendingSkillChoices := pending)
    case SetPlayerProgress(level, exp, pending) =>
      state.(
        player := state.player.(level := level, exp := exp),
        pendingSkillChoices := if pending.Some? then pending else state.pendingSkillChoices)
    case SetSkillLevels(skills) =>
      state.(player := state.player.(skills := skills))
    case GainSkillLevel(skillId) =>
      var current := GetSkillLevel(state.player.skills, skillId);
      state.(
        player := state.player.(skills := state.player.skills[skillId := current + 1]),
        pendingSkillChoices := None)
    case ClearPendingSkills =>
      state.(pendingSkillChoices := None)
    case SetPendingSkills(pending) =>
      state.(pendingSkillChoices := pending)
    case Other =>
      state
  }

  /** `SET_STAGE` moves to the stage and changes nothing else. */
  lemma SetStageOnlyMoves(state: State, stageId: int)
    ensures var r := Reduce(state, SetStage(stageId));
      r.stage.currentStageId == stageId && r.stage.highestClearedStage == state.stage.highestClearedStage &&
      r.player == state.player && r.pendingSkillChoices == state.pendingSkillChoices
  {
  }

  /**
   * `STAGE_CLEARED` records the player's new level and experience, sets the
   * current and the highest cleared stage each to the larger of its old
   * value and the cleared stage, keeps the skills, and replaces the pending
   * choices.
   */
  lemma StageClearedRecords(state: State, stageId: int, level: int, exp: int, pending: Option<seq<SkillId>>)
    ensures var r := Reduce(state, StageCleared(stageId, level, exp, pending));
      r.player == PlayerState(level, exp, state.player.skills) &&
      r.stage.currentStageId >= state.stage.currentStageId && r.stage.currentStageId >= stageId &&
      (r.stage.currentStageId == stageId || r.stage.currentStageId == state.stage.currentStageId) &&
      r.stage.highestClearedStage >= state.stage.highestClearedStage && r.stage.highestClearedStage >= stageId &&
      (r.stage.highestClearedStage == stageId || r.stage.highestClearedStage == state.stage.highestClearedStage) &&
      r.pendingSkillChoices == pending
  {
  }

  /** No action lowers the highest cleared stage; only `SET_STAGE` can lower the current stage. */
  lemma StagesNeverDecrease(state: State, action: Action)
    ensures Reduce(state, action).stage.highestClearedStage >= state.stage.highestClearedStage
    ensures !action.SetStage? ==> Reduce(state, action).stage.currentStageId >= state.stage.currentStageId
  {
  }

  /** `SET_PLAYER_PROGRESS` keeps the pending choices when the action brings none. */
  lemma ProgressKeepsPending(state: State, level: int, exp: int, pending: Option<seq<SkillId>>)
    ensures var r := Reduce(state, SetPlayerProgress(level, exp, pending));
      r.player == PlayerState(level, exp, state.player.skills) && r.stage == state.stage &&
      r.pendingSkillChoices == (if pending.None? then state.pendingSkillChoices else pending)
  {
  }

  /**
   * `GAIN_SKILL_LEVEL` raises the named skill by one, a missing entry
   * counting as 0, leaves every other skill as it was, raises the total by
   * one and clears the pending choices.
   */
  lemma GainRaisesOneSkill(state: State, skillId: SkillId)
    ensures var r := Reduce(state, GainSkillLevel(skillId));
      GetSkillLevel(r.player.skills, skillId) == GetSkillLevel(state.player.skills, skillId) + 1 &&
      (forall id :: id != skillId ==> GetSkillLevel(r.player.skills, id) == GetSkillLevel(state.player.skills, id)) &&
      GetTotalSkillLevels(r.player.skills) == GetTotalSkillLevels(state.player.skills) + 1 &&
      r.pendingSkillChoices.None? && r.stage == state.stage &&
      r.player.level == state.player.level && r.player.exp == state.player.exp
  {
    TotalAfterGain(state.player.skills, skillId);
  }

  /** Gaining a level while points are available spends exactly one of them. */
  lemma GainSpendsAvailablePoint(state: State, skillId: SkillId)
    requires GetAvailableSkillPoints(state.player.level, state.player.skills) > 0
    ensures var r := Reduce(state, GainSkillLevel(skillId));
      GetAvailableSkillPoints(r.player.level, r.player.skills) == GetAvailableSkillPoints(state.player.level, state.player.skills) - 1
  {
    GainSpendsPoint(state.player.level, state.player.skills, skillId);
  }

  /** The pending-choice actions touch nothing but the pending choices. */
  lemma PendingActionsOnlyPending(state: State, pending: Option<seq<SkillId>>)
    ensures Reduce(state, ClearPendingSkills) == state.(pendingSkillChoices := None)
    ensures Reduce(state, SetPendingSkills(pending)) == state.(pendingSkillChoices := pending)
  {
  }

  /** `SET_SKILL_LEVELS` replaces the skills only; any other action type leaves the state as it is. */
  lemma SkillLevelsAndOther(state: State, skills: SkillLevels)
    ensures var r := Reduce(state, SetSkillLevels(skills));
      r.player.skills == skills && r.player.level == state.player.level && r.player.exp == state.player.exp &&
      r.stage == state.stage && r.pendingSkillChoices == state.pendingSkillChoices
    ensures Reduce(state, Other) == state
  {
  }
}
