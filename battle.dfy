/**
 * The damage calculator (`src/game/battle.ts`): from one lock's cleared
 * lines, the combo chain, the back-to-back flag, the T-spin kind and the
 * player's skill levels to the damage dealt and the next combo and
 * back-to-back state.
 */
module Battle {
  import opened Types
  import opened Skills

  datatype BattleContext = BattleContext(comboChain: int, isBackToBack: bool, tSpinType: TSpinKind, clearedLines: int)

  datatype DamageResult = DamageResult(damage: int, comboChain: int, isBackToBack: bool)

  /** `BASE_DAMAGE`, indexed by the number of cleared lines. */
  const BaseDamage: seq<int> := [0, 1, 2, 3, 6]

  const BackToBackBonusDamage: int := 2

  /** `getLineDamage`: the table entry, or 0 for a count outside the table. */
  function GetLineDamage(clearedLines: int): (d: int)
    ensures d == (if clearedLines == 1 then 1 else if clearedLines == 2 then 2
                  else if clearedLines == 3 then 3 else if clearedLines == 4 then 6 else 0)
  {
    if 0 <= clearedLines < |BaseDamage| then BaseDamage[clearedLines] else 0
  }

  /** `computeTSpinDamage`: the bonus a T-spin adds. */
  function ComputeTSpinDamage(kind: TSpinKind, clearedLines: int): (d: int)
    ensures kind == NoSpin ==> d == 0
    ensures kind != NoSpin ==> d >= 2
  {
    match kind
    case Mini => 2 + (if clearedLines - 1 > 0 then clearedLines - 1 else 0)
    case Double => 6
    case Triple => 9
    case NoSpin => 0
  }

  /** The lock earns the back-to-back status: a T-spin of any kind or a four-line clear. */
  predicate Qualifies(context: BattleContext) {
    context.tSpinType != NoSpin || context.clearedLines == 4
  }

  /**
   * `calculateDamage`. No cleared line deals nothing and resets the chain
   * and the flag. Otherwise the damage is the line damage plus the flat
   * attack level, the single-line or four-line bonus, the combo bonus from
   * the second link of a chain on, the T-spin bonus, and 2 more when a
   * qualifying clear follows a qualifying clear.
   */
  function CalculateDamage(context: BattleContext, skills: SkillLevels): (res: DamageResult)
    ensures context.clearedLines <= 0 ==> res == DamageResult(0, 0, false)
    ensures context.clearedLines > 0 ==> res.comboChain == context.comboChain + 1
    ensures context.clearedLines > 0 ==> (res.isBackToBack <==> Qualifies(context))
  {
    var clearedLines := context.clearedLines;
    if clearedLines <= 0 then DamageResult(0, 0, false)
    else
      var nextComboChain := context.comboChain + 1;
      var comboBonus := GetSkillLevel(skills, ComboBonus);
      var damage :=
        GetLineDamage(clearedLines)
        + GetSkillLevel(skills, FlatAttack)
        + (if clearedLines == 1 then GetSkillLevel(skills, SingleLineBonus)
           else if clearedLines == 4 then GetSkillLevel(skills, TetrisBonus) * 2
           else 0)
        + (if nextComboChain > 1 && comboBonus > 0 then nextComboChain * comboBonus else 0)
        + (if context.tSpinType != NoSpin then ComputeTSpinDamage(context.tSpinType, clearedLines) else 0)
        + (if Qualifies(context) && context.isBackToBack then BackToBackBonusDamage else 0);
      DamageResult(damage, nextComboChain, Qualifies(context))
  }

  /** Every skill at level 0. */
  predicate NoSkills(skills: SkillLevels) {
    forall id :: GetSkillLevel(skills, id) == 0
  }

  /** Every skill at a level of 0 or more. */
  predicate SkillsNonNegative(skills: SkillLevels) {
    forall id :: GetSkillLevel(skills, id) >= 0
  }

  /**
   * The back-to-back bonus: with the incoming flag set, a qualifying clear
   * deals exactly 2 more than without it, and any other clear the same.
   */
  lemma BackToBackBonus(context: BattleContext, skills: SkillLevels)
    requires context.clearedLines > 0
    ensures var withFlag := CalculateDamage(context.(isBackToBack := true), skills).damage;
      var without := CalculateDamage(context.(isBackToBack := false), skills).damage;
      withFlag == without + (if Qualifies(context) then BackToBackBonusDamage else 0)
  {
  }

  /** The flat attack adds its level to every clear. */
  lemma FlatAttackAddsLevel(context: BattleContext, skills: SkillLevels)
    requires context.clearedLines > 0
    ensures CalculateDamage(context, skills[FlatAttack := GetSkillLevel(skills, FlatAttack) + 1]).damage ==
      CalculateDamage(context, skills).damage + 1
  {
  }

  /** The single-line bonus adds its level to a one-line clear and nothing to any other. */
  lemma SingleLineBonusAddsLevel(context: BattleContext, skills: SkillLevels)
    requires context.clearedLines > 0
    ensures CalculateDamage(context, skills[SingleLineBonus := GetSkillLevel(skills, SingleLineBonus) + 1]).damage ==
      CalculateDamage(context, skills).damage + (if context.clearedLines == 1 then 1 else 0)
  {
  }

  /** The four-line bonus adds twice its level to a four-line clear and nothing to any other. */
  lemma TetrisBonusAddsTwice(context: BattleContext, skills: SkillLevels)
    requires context.clearedLines > 0
    ensures CalculateDamage(context, skills[TetrisBonus := GetSkillLevel(skills, TetrisBonus) + 1]).damage ==
      CalculateDamage(context, skills).damage + (if context.clearedLines == 4 then 2 else 0)
  {
  }

  /**
   * The combo bonus at a positive level adds the level once per link of the
   * chain this clear reaches, from the second link on; a level of 0 or less
   * adds nothing.
   */
  lemma ComboBonusPerLink(context: BattleContext, skills: SkillLevels, level: int)
    requires context.clearedLines > 0
    ensures var link := context.comboChain + 1;
      CalculateDamage(context, skills[ComboBonus := level]).damage ==
      CalculateDamage(context, skills[ComboBonus := 0]).damage + (if link > 1 && level > 0 then link * level else 0)
  {
  }

  /**
   * A T-spin adds its bonus to the same clear without a spin, and, unless
   * the clear has four lines and qualifies anyway, also the back-to-back
   * bonus when the incoming flag is set.
   */
  lemma TSpinAddsBonus(context: BattleContext, skills: SkillLevels, kind: TSpinKind)
    requires context.clearedLines > 0 && kind != NoSpin
    ensures var n := context.clearedLines;
      CalculateDamage(context.(tSpinType := kind), skills).damage ==
      CalculateDamage(context.(tSpinType := NoSpin), skills).damage + ComputeTSpinDamage(kind, n)
      + (if n != 4 && context.isBackToBack then BackToBackBonusDamage else 0)
  {
  }

  /** Without skills, spin or incoming flag, a clear deals exactly its line damage. */
  lemma PlainClearDamage(context: BattleContext, skills: SkillLevels)
    requires NoSkills(skills) && context.clearedLines > 0 && context.tSpinType == NoSpin && !context.isBackToBack
    ensures CalculateDamage(context, skills).damage == GetLineDamage(context.clearedLines)
  {
    assert GetSkillLevel(skills, FlatAttack) == 0 && GetSkillLevel(skills, SingleLineBonus) == 0;
    assert GetSkillLevel(skills, TetrisBonus) == 0 && GetSkillLevel(skills, ComboBonus) == 0;
  }

  /** The combo bonus counts only from the second link of a chain on. */
  lemma FirstLinkHasNoComboBonus(context: BattleContext, skills: SkillLevels, level: int)
    requires context.clearedLines > 0 && context.comboChain <= 0
    ensures CalculateDamage(context, skills[ComboBonus := level]).damage == CalculateDamage(context, skills[ComboBonus := 0]).damage
  {
  }

  /** Without skills, a four-line clear deals 6, and 8 when it follows another qualifying clear. */
  lemma TetrisDamage(comboChain: int, skills: SkillLevels)
    requires NoSkills(skills)
    ensures CalculateDamage(BattleContext(comboChain, false, NoSpin, 4), skills).damage == 6
    ensures CalculateDamage(BattleContext(comboChain, true, NoSpin, 4), skills).damage == 8
  {
    assert GetSkillLevel(skills, FlatAttack) == 0 && GetSkillLevel(skills, TetrisBonus) == 0;
    assert GetSkillLevel(skills, ComboBonus) == 0;
  }

  /** The T-spin bonus per kind: mini 2 plus one per line beyond the first, double 6, triple 9. */
  lemma TSpinBonusValues(clearedLines: int)
    ensures ComputeTSpinDamage(Mini, clearedLines) == 2 + (if clearedLines > 1 then clearedLines - 1 else 0)
    ensures ComputeTSpinDamage(Double, clearedLines) == 6
    ensures ComputeTSpinDamage(Triple, clearedLines) == 9
  {
  }

  /** With skill levels of 0 or more, no clear deals negative damage, and a clear of 1 to 4 lines at least 1. */
  lemma DamageNonNegative(context: BattleContext, skills: SkillLevels)
    requires SkillsNonNegative(skills)
    ensures CalculateDamage(context, skills).damage >= 0
    ensures 1 <= context.clearedLines <= 4 ==> CalculateDamage(context, skills).damage >= 1
  {
    assert GetSkillLevel(skills, FlatAttack) >= 0 && GetSkillLevel(skills, SingleLineBonus) >= 0;
    assert GetSkillLevel(skills, TetrisBonus) >= 0 && GetSkillLevel(skills, ComboBonus) >= 0;
  }
}
