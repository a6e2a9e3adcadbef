/**
 * Basic-attack damage (src/attack.rs): total attack damage, the three crit modes,
 * attacks per second and DPS, together with the file's own copy of the armor reducer,
 * which acts on the file's own `Target` record.
 */
module Attack {
  import opened CombatMath
  import opened Wrappers
  import AR = ArmorReduction

  datatype BasicAttack = BasicAttack(
    baseAttackDamage: real,
    bonusAttackDamage: real,
    criticalStrikeChance: real,
    bonusCriticalDamage: real)
  {
    /** `get_total_attack_damage`. */
    function TotalAttackDamage(): (t: real)
      ensures bonusAttackDamage >= 0.0 ==> t >= baseAttackDamage
      ensures t - baseAttackDamage == bonusAttackDamage
    {
      baseAttackDamage + bonusAttackDamage
    }
  }

  /** `BasicAttack::new`: no crit chance and no bonus crit damage. */
  function NewBasicAttack(baseAttackDamage: real, bonusAttackDamage: real): (a: BasicAttack)
    ensures a.TotalAttackDamage() == baseAttackDamage + bonusAttackDamage
    ensures a.criticalStrikeChance == 0.0 && a.bonusCriticalDamage == 0.0
  {
    BasicAttack(baseAttackDamage, bonusAttackDamage, 0.0, 0.0)
  }

  datatype AttackSpeed = AttackSpeed(base: real, bonus: real)
  {
    /** `get_attacks_per_second`: the base rate raised by `bonus` percent. */
    function AttacksPerSecond(): (aps: real)
      ensures bonus == 0.0 ==> aps == base
      ensures bonus == 100.0 ==> aps == 2.0 * base
      ensures base >= 0.0 && bonus >= 0.0 ==> aps >= base
    {
      assert base * (1.0 + bonus / 100.0) - base == base * (bonus / 100.0);
      base * (1.0 + bonus / 100.0)
    }
  }

  datatype CritCalculation = DidCrit | NoCrit | AverageOutcome

  /** The crit adjustment of `get_damage_to_target`. */
  function CritMultiplier(a: BasicAttack, crit: CritCalculation): (m: real)
    ensures crit == NoCrit ==> m == 1.0
    ensures crit == AverageOutcome && 0.0 <= a.criticalStrikeChance <= 1.0 && a.bonusCriticalDamage >= -0.75 ==>
              1.0 <= m <= 1.75 + a.bonusCriticalDamage
    ensures crit == AverageOutcome && a.criticalStrikeChance == 1.0 ==> m == 1.75 + a.bonusCriticalDamage
    ensures crit == AverageOutcome && a.criticalStrikeChance == 0.0 ==> m == 1.0
  {
    match crit
    case NoCrit => 1.0
    case DidCrit => 1.75 + a.bonusCriticalDamage
    case AverageOutcome =>
      var p, extra := a.criticalStrikeChance, 0.75 + a.bonusCriticalDamage;
      assert 0.0 <= p <= 1.0 && extra >= 0.0 ==> 0.0 <= p * extra <= extra by {
        if 0.0 <= p <= 1.0 && extra >= 0.0 {
          ProductNonNegative(p, extra);
          ProductNonNegative(1.0 - p, extra);
          assert extra - p * extra == (1.0 - p) * extra;
        }
      }
      1.0 + p * extra
  }

  /** The armor `get_damage_to_target` resolves against: the reducer's, or the plain sum without one. */
  function ArmorAgainst(armor: AR.Armor, reducer: Option<AR.Reducer>): real
  {
    match reducer
    case Some(r) => AR.EffectiveArmor(r, armor)
    case None => armor.base + armor.bonus
  }

  /** The damage one basic attack deals to a target with the given armor split. */
  function DamageAgainst(a: BasicAttack, armor: AR.Armor, crit: CritCalculation, reducer: Option<AR.Reducer>): real
  {
    ResistDamage(a.TotalAttackDamage(), ArmorAgainst(armor, reducer)) * CritMultiplier(a, crit)
  }

  datatype TargetData = TargetData(
    baseArmor: real, bonusArmor: real, magicResist: real, maxHealth: real, currentHealth: real)

  /** This file's own target record (its fields are private to the file). */
  class Target {
    var baseArmor: real
    var bonusArmor: real
    var magicResist: real
    var maxHealth: real
    var currentHealth: real

    /** `Target::new`: every field copied from the input record. */
    constructor New(input: TargetData)
      ensures Data() == input
    {
      baseArmor := input.baseArmor;
      bonusArmor := input.bonusArmor;
      magicResist := input.magicResist;
      maxHealth := input.maxHealth;
      currentHealth := input.currentHealth;
    }

    function Data(): TargetData
      reads this
    {
      TargetData(baseArmor, bonusArmor, magicResist, maxHealth, currentHealth)
    }

    function Split(): AR.Armor
      reads this
    {
      AR.Armor(baseArmor, bonusArmor)
    }

    method Clone() returns (t: Target)
      ensures fresh(t) && t.Data() == Data()
    {
      t := new Target.New(Data());
    }
  }

  /**
   * This file's copy of `ArmorReducer::apply_armor_reduction`; it leaves the same
   * armor as the one of src/armor_reducer.rs.
   */
  method ApplyArmorReduction(r: AR.Reducer, target: Target)
    modifies target`baseArmor, target`bonusArmor
    ensures target.Split() == AR.Reduced(r, old(target.Split()))
  {
    ghost var original := target.Split();
    var totalArmor := target.baseArmor + target.bonusArmor;
    var baseRatio := if totalArmor != 0.0 then target.baseArmor / totalArmor else 0.5;
    assert baseRatio == AR.BaseRatio(original);
    var bonusRatio := 1.0 - baseRatio;
    target.baseArmor := target.baseArmor - r.flatArmorReduction * baseRatio;
    target.bonusArmor := target.bonusArmor - r.flatArmorReduction * bonusRatio;
    ghost var flat := target.Split();
    assert flat == AR.FlatReduced(r.flatArmorReduction, original);

    ghost var percent := AR.PercentReduced(r.percentArmorReduction, flat);
    if target.baseArmor > 0.0 {
      target.baseArmor := target.baseArmor * (1.0 - r.percentArmorReduction / 100.0);
    }
    assert target.baseArmor == percent.base;
    if target.bonusArmor > 0.0 {
      target.bonusArmor := target.bonusArmor * (1.0 - r.percentArmorReduction / 100.0);
    }
    assert target.bonusArmor == percent.bonus;
  }

  /**
   * This file's copy of `ArmorReducer::get_effective_armor`: for every reducer and
   * target it computes the same effective armor as src/armor_reducer.rs, and it leaves
   * the caller's target alone.
   */
  method GetEffectiveArmor(r: AR.Reducer, originalTarget: Target) returns (e: real)
    ensures e == AR.EffectiveArmor(r, originalTarget.Split())
  {
    ghost var original := originalTarget.Split();
    var target := originalTarget.Clone();
    ApplyArmorReduction(r, target);
    ghost var reduced := target.Split();
    assert reduced == AR.Reduced(r, original);
    var effectiveArmor := target.bonusArmor * (1.0 - r.percentBonusArmorPen / 100.0) + target.baseArmor;
    effectiveArmor := effectiveArmor * (1.0 - r.percentArmorPen / 100.0);
    assert effectiveArmor == AR.Penetrated(r, original);

    if effectiveArmor < 0.0 {
      return effectiveArmor;
    }
    var candidate := effectiveArmor - r.flatArmorPen;
    if candidate < 0.0 {
      return 0.0;
    } else {
      return candidate;
    }
  }

  /** `BasicAttack::get_damage_to_target`. */
  method GetDamageToTarget(a: BasicAttack, target: Target, crit: CritCalculation, reducer: Option<AR.Reducer>)
    returns (damage: real)
    ensures damage == DamageAgainst(a, target.Split(), crit, reducer)
  {
    var d := a.TotalAttackDamage();
    var effectiveArmor;
    match reducer {
      case Some(r) => effectiveArmor := GetEffectiveArmor(r, target);
      case None => effectiveArmor := target.baseArmor + target.bonusArmor;
    }
    assert effectiveArmor == ArmorAgainst(target.Split(), reducer);
    var multiplier := CritMultiplier(a, crit);
    damage := ResistDamage(d, effectiveArmor) * multiplier;
  }

  /** `get_dps`: the average-outcome damage of one attack times attacks per second. */
  method GetDps(speed: AttackSpeed, a: BasicAttack, target: Target, reducer: Option<AR.Reducer>)
    returns (dps: real)
    ensures dps == DamageAgainst(a, target.Split(), AverageOutcome, reducer) * speed.AttacksPerSecond()
  {
    var damage := GetDamageToTarget(a, target, AverageOutcome, reducer);
    dps := damage * speed.AttacksPerSecond();
  }

  // ---------------------------------------------------------------------------
  // Properties

  /**
   * The average outcome is the expectation of the other two modes: with chance `c` it is
   * `(1-c) * NoCrit + c * DidCrit`; so chance 0 gives the no-crit multiplier and chance 1
   * the crit one.
   */
  lemma AverageOutcomeIsExpectation(a: BasicAttack)
    ensures CritMultiplier(a, AverageOutcome) ==
            (1.0 - a.criticalStrikeChance) * CritMultiplier(a, NoCrit)
            + a.criticalStrikeChance * CritMultiplier(a, DidCrit)
    ensures a.criticalStrikeChance == 0.0 ==> CritMultiplier(a, AverageOutcome) == CritMultiplier(a, NoCrit)
    ensures a.criticalStrikeChance == 1.0 ==> CritMultiplier(a, AverageOutcome) == CritMultiplier(a, DidCrit)
  {
  }

  /** Passing no reducer is the same as passing the all-zero one: the armor is base plus bonus. */
  lemma NoReducerSameAsZeroReducer(armor: AR.Armor)
    ensures ArmorAgainst(armor, None) == armor.base + armor.bonus
    ensures ArmorAgainst(armor, Some(AR.NoReducer)) == ArmorAgainst(armor, None)
  {
    AR.NoReducerIsIdentity(armor);
  }

  /** The `typical_attack` test: 24 + 50 AD into 20 armor, average outcome, rounds to 62. */
  lemma TypicalAttackExample()
    ensures 61.5 <= DamageAgainst(BasicAttack(24.0, 50.0, 0.0, 0.0), AR.Armor(20.0, 0.0), AverageOutcome, None) < 62.5
  {
    assert ResistDamage(74.0, 20.0) == 7400.0 / 120.0;
  }

  /** The attack-speed test: 0.651 with 102.9228% bonus gives 1.321027428 attacks per second. */
  lemma AttackSpeedExample()
    ensures AttackSpeed(0.651, 102.9228).AttacksPerSecond() == 1.321027428
  {
  }

  /**
   * The game-sampled cases of tests/attack_integration.rs: 115 AD, 18% penetration and
   * 10 lethality at level 2 deal 115 into no armor and round to 105 into 20 bonus armor.
   */
  lemma IntegrationExamples()
    ensures var r := AR.SetFromLethality(AR.NoReducer.(percentArmorPen := 18.0), 10.0, 2);
            ResistDamage(115.0, AR.EffectiveArmor(r, AR.Armor(0.0, 0.0))) == 115.0 &&
            104.5 <= ResistDamage(115.0, AR.EffectiveArmor(r, AR.Armor(0.0, 20.0))) < 105.5
  {
    var r := AR.SetFromLethality(AR.NoReducer.(percentArmorPen := 18.0), 10.0, 2);
    assert r.flatArmorPen == 58.0 / 9.0;
    assert AR.FlatReduced(0.0, AR.Armor(0.0, 0.0)) == AR.Armor(0.0, 0.0);
    assert AR.FlatReduced(0.0, AR.Armor(0.0, 20.0)) == AR.Armor(0.0, 20.0);
    assert AR.EffectiveArmor(r, AR.Armor(0.0, 0.0)) == 0.0;
    assert AR.EffectiveArmor(r, AR.Armor(0.0, 20.0)) == 16.4 - 58.0 / 9.0;
  }
}
