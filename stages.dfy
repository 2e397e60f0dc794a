/** The stage table, its lookup and the player's level curve (`src/data/stages.ts`). */
module Stages {
  import opened Types

  /** The attack a monster makes; only data, no code in the game acts on it. */
  datatype StageAttackPattern =
    | GarbageLine(intervalMs: int, lines: int)
    | LoadingBurst(chargeMs: int, lines: int, telegraphMs: Option<int>)

  datatype StageDefinition = StageDefinition(
    id: int,
    title: string,
    monsterName: string,
    maxHP: int,
    expReward: int,
    color: string,
    accent: string,
    image: string,
    description: Option<string>,
    attackPattern: Option<StageAttackPattern>)

  /** `STAGE_DEFINITIONS`: the ten stages. */
  const StageDefinitions: seq<StageDefinition> := [
    StageDefinition(1, "普通橘", "普通橘", 18, 20, "#60a5fa", "#a855f7", "monsters/stage-1.png",
      Some("沒甚麼好說的，普通橘子。"), Some(GarbageLine(5000, 1))),
    StageDefinition(2, "Loading橘", "Loading橘", 30, 30, "#f97316", "#facc15", "monsters/stage-2.png",
      Some("蛤?"), Some(LoadingBurst(6000, 3, Some(900)))),
    StageDefinition(3, "晚安橘", "晚安橘", 45, 45, "#22c55e", "#4ade80", "monsters/stage-3.png",
      Some("晚安安"), None),
    StageDefinition(4, "比讚橘", "比讚橘", 63, 60, "#38bdf8", "#818cf8", "monsters/stage-4.png",
      Some("一定是大拇指的啦！"), None),
    StageDefinition(5, "哭哭橘", "哭哭橘", 84, 80, "#8b5cf6", "#c084fc", "monsters/stage-5.png",
      Some("為什麼要惹哭橘子QAQ"), None),
    StageDefinition(6, "博士橘", "博士橘", 108, 105, "#22d3ee", "#14b8a6", "monsters/stage-6.png",
      Some("掌管知識的守護者，看起來很聰明。"), None),
    StageDefinition(7, "暴雨橘", "暴雨橘", 136, 135, "#6366f1", "#f472b6", "monsters/stage-7.png",
      Some("暴雨來了，橘子要小心哦！"), None),
    StageDefinition(8, "GAY橘", "GAY橘", 168, 170, "#f97316", "#fb7185", "monsters/stage-8.png",
      Some("GAY橘，你為什麼要GAY我？"), None),
    StageDefinition(9, "破防橘", "破防橘", 204, 210, "#0ea5e9", "#38bdf8", "monsters/stage-9.png",
      Some("幹，爛命一條！"), None),
    StageDefinition(10, "波奇橘", "波奇橘", 244, 260, "#a855f7", "#f97316", "monsters/stage-10.png",
      Some("讓我成為你的心臟吧！汪！"), None)
  ]

  /** The table index `getStageDefinition` reads: `stageId - 1` clamped into 0..9. */
  function StageIndex(stageId: int): (k: nat)
    ensures k < |StageDefinitions|
    ensures stageId <= 1 ==> k == 0
    ensures stageId >= |StageDefinitions| ==> k == |StageDefinitions| - 1
    ensures 1 <= stageId <= |StageDefinitions| ==> k == stageId - 1
  {
    var upper := if stageId - 1 < |StageDefinitions| - 1 then stageId - 1 else |StageDefinitions| - 1;
    if 0 > upper then 0 else upper
  }

  /** `getStageDefinition`: the stage with the id, the first stage below the table and the last above it. */
  function GetStageDefinition(stageId: int): (d: StageDefinition)
    ensures d in StageDefinitions
  {
    StageDefinitions[StageIndex(stageId)]
  }

  /** The table lists the stages 1 to 10 in order. */
  lemma StageIdsInOrder()
    ensures |StageDefinitions| == 10
    ensures forall k :: 0 <= k < |StageDefinitions| ==> StageDefinitions[k].id == k + 1
  {
  }

  /** Looking up an id gives the stage with that id, clamped into 1..10. */
  lemma LookupGivesStage(stageId: int)
    ensures GetStageDefinition(stageId).id == if stageId < 1 then 1 else if stageId > 10 then 10 else stageId
  {
    StageIdsInOrder();
  }

  /** Only the first two stages carry an attack pattern. */
  lemma OnlyFirstStagesAttack()
    ensures forall k :: 0 <= k < |StageDefinitions| ==> (StageDefinitions[k].attackPattern.Some? <==> k < 2)
  {
  }

  /** Every stage's monster has positive hit points and reward. */
  lemma StagesPositive()
    ensures forall k :: 0 <= k < |StageDefinitions| ==> StageDefinitions[k].maxHP > 0 && StageDefinitions[k].expReward > 0
  {
  }

  /** `getLevelRequirement`: the experience needed to leave level `level`. */
  function GetLevelRequirement(level: int): (req: int)
    ensures level >= 1 ==> req >= 30
    ensures level == 1 ==> req == 30
  {
    30 + (level - 1) * 18
  }

  /** Every level needs 18 more experience than the one before. */
  lemma LevelRequirementStep(level: int)
    ensures GetLevelRequirement(level + 1) == GetLevelRequirement(level) + 18
  {
  }

  /** Each level needs strictly more experience than the one before. */
  lemma {:induction false} LevelRequirementIncreasing(a: int, b: int)
    requires a < b
    ensures GetLevelRequirement(a) < GetLevelRequirement(b)
  {
    assert (b - 1) * 18 - (a - 1) * 18 == (b - a) * 18;
  }
}
