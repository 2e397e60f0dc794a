/**
 * The skill catalogue and skill-point arithmetic (`src/data/skills.ts`).
 *
 * Skill levels are a map from skill id to level. The source's record always
 * holds all nine ids, but its readers treat a missing entry as level 0, and
 * so does this model.
 */
module Skills {
  import opened Types

  datatype SkillId =
    | FlatAttack
    | SingleLineBonus
    | TetrisBonus
    | ComboBonus
    | ChargedStrike
    | SteadyMind
    | FlameStrike
    | LuckyStrike
    | ManaBurst

  /** The nine ids, in the order the catalogue lists them. */
  const AllSkills: seq<SkillId> :=
    [FlatAttack, SingleLineBonus, TetrisBonus, ComboBonus, ChargedStrike, SteadyMind, FlameStrike, LuckyStrike, ManaBurst]

  datatype SkillDefinition = SkillDefinition(
    id: SkillId,
    name: string,
    description: string,
    maxLevel: Option<int>,
    tags: Option<seq<string>>)

  /** `SKILL_DEFINITIONS`. */
  const SkillDefinitions: seq<SkillDefinition> := [
    SkillDefinition(FlatAttack, "力量淬鍊", "所有攻擊傷害 +1", None, None),
    SkillDefinition(SingleLineBonus, "精準切削", "消一行時額外 +1 傷害", None, None),
    SkillDefinition(TetrisBonus, "絕地破壞", "消四行時額外 +2 傷害", None, None),
    SkillDefinition(ComboBonus, "連擊覺醒", "每次連擊追加當前連擊數的傷害", None, None),
    SkillDefinition(ChargedStrike, "蓄力重擊", "累積 3 次單行消除後，下次攻擊額外造成 +3 傷害", None, None),
    SkillDefinition(SteadyMind, "穩固心神", "每成功放置 5 個方塊，立即對怪物造成 3 點傷害", None, None),
    SkillDefinition(FlameStrike, "火焰打擊", "擊中怪物後附加 2 回合灼燒，灼燒期間每次消除額外 +3 傷害", None, None),
    SkillDefinition(LuckyStrike, "幸運一搏", "擊殺怪物時有機率獲得額外 50% 經驗值", None, Some(["機運"])),
    SkillDefinition(ManaBurst, "魔力爆發", "當前關卡第一次 BTB 額外造成 5 點傷害", None, Some(["爆發"]))
  ]

  type SkillLevels = map<SkillId, int>

  const InitialSkillLevels: SkillLevels :=
    map[FlatAttack := 0, SingleLineBonus := 0, TetrisBonus := 0, ComboBonus := 0, ChargedStrike := 0,
        SteadyMind := 0, FlameStrike := 0, LuckyStrike := 0, ManaBurst := 0]

  lemma InitialKeys()
    ensures forall id :: id in InitialSkillLevels
  {
    forall id
      ensures id in InitialSkillLevels
    {
      match id
      case FlatAttack =>
      case SingleLineBonus =>
      case TetrisBonus =>
      case ComboBonus =>
      case ChargedStrike =>
      case SteadyMind =>
      case FlameStrike =>
      case LuckyStrike =>
      case ManaBurst =>
    }
  }

  /** `createInitialSkillLevels`: every skill at level 0. */
  function CreateInitialSkillLevels(): (levels: SkillLevels)
    ensures forall id :: id in levels && levels[id] == 0
  {
    InitialKeys();
    InitialSkillLevels
  }

  /** The first definition of `defs` with the id, as `Array.prototype.find` returns it. */
  function Find(defs: seq<SkillDefinition>, id: SkillId): (d: Option<SkillDefinition>)
    ensures d.Some? ==> d.value in defs && d.value.id == id
    ensures d.None? ==> forall k :: 0 <= k < |defs| ==> defs[k].id != id
  {
    if |defs| == 0 then None
    else if defs[0].id == id then Some(defs[0])
    else Find(defs[1..], id)
  }

  /** `getSkillDefinition`. */
  function GetSkillDefinition(id: SkillId): (d: Option<SkillDefinition>)
    ensures d.Some? ==> d.value in SkillDefinitions && d.value.id == id
  {
    Find(SkillDefinitions, id)
  }

  /** The catalogue lists every id exactly once. */
  lemma DefinitionIdsDistinct()
    ensures |SkillDefinitions| == |AllSkills|
    ensures forall k :: 0 <= k < |SkillDefinitions| ==> SkillDefinitions[k].id == AllSkills[k]
    ensures forall i, j :: 0 <= i < j < |AllSkills| ==> AllSkills[i] != AllSkills[j]
  {
  }

  /** The position of the id in the catalogue order. */
  function SkillIndex(id: SkillId): (k: nat)
    ensures k < |AllSkills| && AllSkills[k] == id
  {
    match id
    case FlatAttack => 0
    case SingleLineBonus => 1
    case TetrisBonus => 2
    case ComboBonus => 3
    case ChargedStrike => 4
    case SteadyMind => 5
    case FlameStrike => 6
    case LuckyStrike => 7
    case ManaBurst => 8
  }

  /** In a list with distinct ids, `Find` returns the one entry with the id. */
  lemma {:induction false} FindUnique(defs: seq<SkillDefinition>, id: SkillId, k: nat)
    requires k < |defs| && defs[k].id == id
    requires forall i, j :: 0 <= i < j < |defs| ==> defs[i].id != defs[j].id
    ensures Find(defs, id) == Some(defs[k])
    ensures forall d :: d in defs && d.id == id ==> d == defs[k]
  {
    if k > 0 {
      FindUnique(defs[1..], id, k - 1);
    }
  }

  /** Every id has a definition, and it is the only one with that id. */
  lemma EverySkillDefined(id: SkillId)
    ensures GetSkillDefinition(id).Some?
    ensures forall d :: d in SkillDefinitions && d.id == id ==> d == GetSkillDefinition(id).value
  {
    DefinitionIdsDistinct();
    FindUnique(SkillDefinitions, id, SkillIndex(id));
  }

  /** `getSkillLevel`: the stored level, or 0 when there is none. */
  function GetSkillLevel(levels: SkillLevels, id: SkillId): int {
    if id in levels then levels[id] else 0
  }

  /** The sum of the levels of the ids in `ids`, a missing entry counting 0. */
  function SumLevels(levels: SkillLevels, ids: seq<SkillId>): int {
    if |ids| == 0 then 0 else SumLevels(levels, ids[..|ids| - 1]) + GetSkillLevel(levels, ids[|ids| - 1])
  }

  /** `getTotalSkillLevels`: the sum of all stored levels. */
  function GetTotalSkillLevels(levels: SkillLevels): int {
    SumLevels(levels, AllSkills)
  }

  /** Raising one id of `ids` by one raises the sum by one, when the id occurs once. */
  lemma {:induction false} SumAfterIncrement(levels: SkillLevels, ids: seq<SkillId>, id: SkillId, v: int)
    requires multiset(ids)[id] == 1
    ensures SumLevels(levels[id := v], ids) == SumLevels(levels, ids) + v - GetSkillLevel(levels, id)
  {
    var last := ids[|ids| - 1];
    var front := ids[..|ids| - 1];
    assert ids == front + [last];
    if last == id {
      assert multiset(front)[id] == 0;
      SumUnchanged(levels, front, id, v);
    } else {
      SumAfterIncrement(levels, front, id, v);
    }
  }

  /** Changing an id that does not occur in `ids` leaves the sum as it was. */
  lemma {:induction false} SumUnchanged(levels: SkillLevels, ids: seq<SkillId>, id: SkillId, v: int)
    requires multiset(ids)[id] == 0
    ensures SumLevels(levels[id := v], ids) == SumLevels(levels, ids)
  {
    if |ids| > 0 {
      var front := ids[..|ids| - 1];
      assert ids == front + [ids[|ids| - 1]];
      SumUnchanged(levels, front, id, v);
    }
  }

  /** The sum of a map of zeros is zero. */
  lemma {:induction false} SumOfZeros(levels: SkillLevels, ids: seq<SkillId>)
    requires forall id :: GetSkillLevel(levels, id) == 0
    ensures SumLevels(levels, ids) == 0
  {
    if |ids| > 0 {
      SumOfZeros(levels, ids[..|ids| - 1]);
    }
  }

  /** A fresh record has spent nothing. */
  lemma InitialTotalIsZero()
    ensures GetTotalSkillLevels(CreateInitialSkillLevels()) == 0
  {
    SumOfZeros(CreateInitialSkillLevels(), AllSkills);
  }

  /** Learning one level of a skill raises the total by exactly one. */
  lemma TotalAfterGain(levels: SkillLevels, id: SkillId)
    ensures GetTotalSkillLevels(levels[id := GetSkillLevel(levels, id) + 1]) == GetTotalSkillLevels(levels) + 1
  {
    AllSkillsOnce(id);
    SumAfterIncrement(levels, AllSkills, id, GetSkillLevel(levels, id) + 1);
  }

  lemma AllSkillsOnce(id: SkillId)
    ensures multiset(AllSkills)[id] == 1
  {
  }

  function Max(a: int, b: int): int {
    if a >= b then a else b
  }

  /**
   * `getAvailableSkillPoints`: a point is earned for every level above the
   * first; the points not yet spent are available, never fewer than zero.
   */
  function GetAvailableSkillPoints(level: int, levels: SkillLevels): (points: int)
    ensures points >= 0
    ensures points > 0 <==> GetTotalSkillLevels(levels) < Max(0, level - 1)
    ensures points > 0 ==> points + GetTotalSkillLevels(levels) == Max(0, level - 1)
    ensures level <= 1 && GetTotalSkillLevels(levels) >= 0 ==> points == 0
  {
    var earnedPoints := Max(0, level - 1);
    var spentPoints := GetTotalSkillLevels(levels);
    Max(0, earnedPoints - spentPoints)
  }

  /** Spending an available point on any skill leaves one point fewer. */
  lemma GainSpendsPoint(level: int, levels: SkillLevels, id: SkillId)
    requires GetAvailableSkillPoints(level, levels) > 0
    ensures GetAvailableSkillPoints(level, levels[id := GetSkillLevel(levels, id) + 1]) == GetAvailableSkillPoints(level, levels) - 1
  {
    TotalAfterGain(levels, id);
  }
}
