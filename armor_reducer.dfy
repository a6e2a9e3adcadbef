/**
 * The armor-reduction pipeline of src/armor_reducer.rs: flat reduction split across
 * base and bonus armor, percent reduction of what is still positive, percent bonus-armor
 * penetration, percent penetration, then flat penetration (lethality) that cannot push a
 * non-negative value below zero and is not applied to a negative one.
 */
module ArmorReduction {
  import opened CombatMath

  /** The five aggregated reduction and penetration values (`ArmorReducer`). */
  datatype Reducer = Reducer(
    flatArmorReduction: real,
    percentArmorReduction: real,
    flatArmorPen: real,        // effective lethality
    percentArmorPen: real,
    percentBonusArmorPen: real)

  /** `ArmorReducer::default()`: every field 0. */
  const NoReducer: Reducer := Reducer(0.0, 0.0, 0.0, 0.0, 0.0)

  /** The base/bonus armor split of a target, the only part of it the pipeline reads. */
  datatype Armor = Armor(base: real, bonus: real) {
    function Total(): real { base + bonus }
  }

  /** The base armor's share of the total, 1/2 when the total is 0. */
  function BaseRatio(a: Armor): real
  {
    if a.Total() != 0.0 then a.base / a.Total() else 0.5
  }

  /** First step: `flat` is taken off the total, split by the base/bonus ratio. */
  function FlatReduced(flat: real, a: Armor): Armor
  {
    var ratio := BaseRatio(a);
    Armor(a.base - flat * ratio, a.bonus - flat * (1.0 - ratio))
  }

  /** Second step: percent reduction, only on a component that is still positive. */
  function PercentReduced(percent: real, a: Armor): Armor
  {
    Armor(if a.base > 0.0 then a.base * (1.0 - percent / 100.0) else a.base,
          if a.bonus > 0.0 then a.bonus * (1.0 - percent / 100.0) else a.bonus)
  }

  /** What `apply_armor_reduction` leaves in the target. */
  function Reduced(r: Reducer, a: Armor): Armor
  {
    PercentReduced(r.percentArmorReduction, FlatReduced(r.flatArmorReduction, a))
  }

  /** The armor after both reductions and both percent penetrations, before lethality. */
  function Penetrated(r: Reducer, a: Armor): real
  {
    var t := Reduced(r, a);
    (t.bonus * (1.0 - r.percentBonusArmorPen / 100.0) + t.base) * (1.0 - r.percentArmorPen / 100.0)
  }

  /**
   * The effective armor `get_effective_armor` returns: flat penetration is applied only
   * to a non-negative value, and then cannot take it below zero.
   */
  function EffectiveArmor(r: Reducer, a: Armor): (e: real)
    ensures e < 0.0 <==> Penetrated(r, a) < 0.0
    ensures e < 0.0 ==> e == Penetrated(r, a)
    ensures e >= 0.0 ==> e == if Penetrated(r, a) - r.flatArmorPen < 0.0 then 0.0 else Penetrated(r, a) - r.flatArmorPen
  {
    var v := Penetrated(r, a);
    if v < 0.0 then v
    else if v - r.flatArmorPen < 0.0 then 0.0
    else v - r.flatArmorPen
  }

  /** `set_from_lethality`: only the flat penetration changes, to `lethality_to_pen(lethality, level)`. */
  function SetFromLethality(r: Reducer, lethality: real, level: nat): (out: Reducer)
    ensures out.flatArmorPen == LethalityToPen(lethality, level)
    ensures out.(flatArmorPen := r.flatArmorPen) == r
  {
    r.(flatArmorPen := LethalityToPen(lethality, level))
  }

  /** The armor-carrying record of src/target.rs, updated in place by the reduction. */
  class Target {
    var baseArmor: real
    var bonusArmor: real
    var magicResist: real
    var maxHealth: real
    var currentHealth: real

    constructor (baseArmor: real, bonusArmor: real, magicResist: real, maxHealth: real, currentHealth: real)
      ensures this.baseArmor == baseArmor && this.bonusArmor == bonusArmor && this.magicResist == magicResist
      ensures this.maxHealth == maxHealth && this.currentHealth == currentHealth
    {
      this.baseArmor := baseArmor;
      this.bonusArmor := bonusArmor;
      this.magicResist := magicResist;
      this.maxHealth := maxHealth;
      this.currentHealth := currentHealth;
    }

    function Split(): Armor
      reads this
    {
      Armor(baseArmor, bonusArmor)
    }

    /** `#[derive(Clone)]`: a fresh record with the same fields. */
    method Clone() returns (t: Target)
      ensures fresh(t)
      ensures t.baseArmor == baseArmor && t.bonusArmor == bonusArmor && t.magicResist == magicResist
      ensures t.maxHealth == maxHealth && t.currentHealth == currentHealth
    {
      t := new Target(baseArmor, bonusArmor, magicResist, maxHealth, currentHealth);
    }
  }

  /** `ArmorReducer::apply_armor_reduction`: rewrites the target's two armor fields and nothing else. */
  method ApplyArmorReduction(r: Reducer, target: Target)
    modifies target`baseArmor, target`bonusArmor
    ensures target.Split() == Reduced(r, old(target.Split()))
  {
    ghost var original := target.Split();
    var totalArmor := target.baseArmor + target.bonusArmor;
    var baseRatio := if totalArmor != 0.0 then target.baseArmor / totalArmor else 0.5;
    assert baseRatio == BaseRatio(original);
    var bonusRatio := 1.0 - baseRatio;
    target.baseArmor := target.baseArmor - r.flatArmorReduction * baseRatio;
    target.bonusArmor := target.bonusArmor - r.flatArmorReduction * bonusRatio;
    ghost var flat := target.Split();
    assert flat == FlatReduced(r.flatArmorReduction, original);

    ghost var percent := PercentReduced(r.percentArmorReduction, flat);
    if target.baseArmor > 0.0 {
      target.baseArmor := target.baseArmor * (1.0 - r.percentArmorReduction / 100.0);
    }
    assert target.baseArmor == percent.base;
    if target.bonusArmor > 0.0 {
      target.bonusArmor := target.bonusArmor * (1.0 - r.percentArmorReduction / 100.0);
    }
    assert target.bonusArmor == percent.bonus;
  }

  /**
   * `ArmorReducer::get_effective_armor`: works on a clone, so the caller's target is not
   * modified (the method has no modifies clause).
   */
  method GetEffectiveArmor(r: Reducer, originalTarget: Target) returns (e: real)
    ensures e == EffectiveArmor(r, originalTarget.Split())
  {
    ghost var original := originalTarget.Split();
    var target := originalTarget.Clone();
    ApplyArmorReduction(r, target);
    ghost var reduced := target.Split();
    assert reduced == Reduced(r, original);
    var effectiveArmor := target.bonusArmor * (1.0 - r.percentBonusArmorPen / 100.0) + target.baseArmor;
    effectiveArmor := effectiveArmor * (1.0 - r.percentArmorPen / 100.0);
    assert effectiveArmor == Penetrated(r, original);

    if effectiveArmor < 0.0 {
      return effectiveArmor;
    }
    var candidate := effectiveArmor - r.flatArmorPen;
    if candidate < 0.0 {
      return 0.0;
    } else {
      return candidate;
    }
  }

  // ---------------------------------------------------------------------------
  // Properties of the pipeline

  /**
   * Flat reduction lowers base plus bonus by exactly the reduction, split by the
   * base/bonus ratio, or half and half when the total is 0.
   */
  lemma FlatReductionSplit(flat: real, a: Armor)
    ensures FlatReduced(flat, a).Total() == a.Total() - flat
    ensures a.Total() != 0.0 ==> (a.base - FlatReduced(flat, a).base) * a.Total() == flat * a.base
    ensures a.Total() != 0.0 ==> (a.bonus - FlatReduced(flat, a).bonus) * a.Total() == flat * a.bonus
    ensures a.Total() == 0.0 ==> FlatReduced(flat, a) == Armor(a.base - flat / 2.0, a.bonus - flat / 2.0)
  {
    var out := FlatReduced(flat, a);
    if a.Total() != 0.0 {
      var ratio := BaseRatio(a);
      assert ratio * a.Total() == a.base;
      assert (a.base - out.base) * a.Total() == flat * (ratio * a.Total());
      assert (a.bonus - out.bonus) * a.Total() == flat * (a.Total() - ratio * a.Total());
    }
  }

  /** Percent reduction leaves a component at or below 0 alone, and keeps a positive one in [0, itself]. */
  lemma PercentReductionOnlyOnPositive(r: Reducer, a: Armor)
    requires 0.0 <= r.percentArmorReduction <= 100.0
    ensures var f := FlatReduced(r.flatArmorReduction, a);
            var t := Reduced(r, a);
            (f.base <= 0.0 ==> t.base == f.base) &&
            (f.bonus <= 0.0 ==> t.bonus == f.bonus) &&
            (f.base > 0.0 ==> 0.0 <= t.base <= f.base) &&
            (f.bonus > 0.0 ==> 0.0 <= t.bonus <= f.bonus)
  {
    var f := FlatReduced(r.flatArmorReduction, a);
    var k := 1.0 - r.percentArmorReduction / 100.0;
    assert 0.0 <= k <= 1.0;
    if f.base > 0.0 {
      ProductNonNegative(f.base, k);
      ProductNonNegative(f.base, 1.0 - k);
    }
    if f.bonus > 0.0 {
      ProductNonNegative(f.bonus, k);
      ProductNonNegative(f.bonus, 1.0 - k);
    }
  }

  /** With non-negative lethality, a non-negative effective armor never exceeds the penetrated value. */
  lemma EffectiveArmorBelowPenetrated(r: Reducer, a: Armor)
    requires r.flatArmorPen >= 0.0
    ensures Penetrated(r, a) >= 0.0 ==> 0.0 <= EffectiveArmor(r, a) <= Penetrated(r, a)
  {
  }

  /** The all-zero reducer returns exactly base plus bonus armor. */
  lemma NoReducerIsIdentity(a: Armor)
    ensures EffectiveArmor(NoReducer, a) == a.base + a.bonus
  {
    assert FlatReduced(0.0, a) == a;
    assert Reduced(NoReducer, a) == a;
  }

  /** Table case 1 of src/armor_reducer.rs: flat reduction 30 on 20/40 gives 30. */
  lemma FlatReductionExample()
    ensures EffectiveArmor(Reducer(30.0, 0.0, 0.0, 0.0, 0.0), Armor(20.0, 40.0)) == 30.0
  {
    FlatExample(30.0, Armor(20.0, 40.0), Armor(10.0, 20.0));
    OnlyFlatReduction(30.0, Armor(20.0, 40.0));
  }

  /** With every percentage and the lethality at 0, only the flat reduction acts. */
  lemma OnlyFlatReduction(flat: real, a: Armor)
    ensures Penetrated(Reducer(flat, 0.0, 0.0, 0.0, 0.0), a) == FlatReduced(flat, a).Total()
    ensures FlatReduced(flat, a).Total() >= 0.0 ==>
              EffectiveArmor(Reducer(flat, 0.0, 0.0, 0.0, 0.0), a) == FlatReduced(flat, a).Total()
  {
    var f := FlatReduced(flat, a);
    assert PercentReduced(0.0, f) == f;
  }

  /** Table cases 2 to 4: 30% reduction gives 42, 30% penetration 42, 10% pen with 30% bonus pen 43.2. */
  lemma PercentExamples()
    ensures EffectiveArmor(Reducer(0.0, 30.0, 0.0, 0.0, 0.0), Armor(20.0, 40.0)) == 42.0
    ensures EffectiveArmor(Reducer(0.0, 0.0, 0.0, 30.0, 0.0), Armor(20.0, 40.0)) == 42.0
    ensures EffectiveArmor(Reducer(0.0, 0.0, 0.0, 10.0, 30.0), Armor(20.0, 40.0)) == 43.2
  {
    FlatExample(0.0, Armor(20.0, 40.0), Armor(20.0, 40.0));
  }

  /** Table case 5: the high-level case on 100/200 gives 122.3. */
  lemma HighLevelExample()
    ensures EffectiveArmor(Reducer(30.0, 30.0, 10.0, 0.0, 45.0), Armor(100.0, 200.0)) == 122.3
  {
    FlatExample(30.0, Armor(100.0, 200.0), Armor(90.0, 180.0));
  }

  /** Table case 6: on 18/0 the value is already negative (-12), so lethality is not applied. */
  lemma NegativeSkipsLethalityExample()
    ensures EffectiveArmor(Reducer(30.0, 30.0, 10.0, 0.0, 45.0), Armor(18.0, 0.0)) == -12.0
  {
    FlatExample(30.0, Armor(18.0, 0.0), Armor(-12.0, 0.0));
  }

  lemma FlatExample(flat: real, a: Armor, expected: Armor)
    requires a.Total() != 0.0
    requires expected.base * a.Total() == a.base * (a.Total() - flat)
    requires expected.Total() == a.Total() - flat
    ensures FlatReduced(flat, a) == expected
  {
    var ratio := BaseRatio(a);
    assert ratio * a.Total() == a.base;
    assert (a.base - flat * ratio) * a.Total() == a.base * (a.Total() - flat);
    ZeroFactor((a.base - flat * ratio) - expected.base, a.Total());
  }
}

/**
 * The `From<(&ChampionStats, u8)>` conversion of src/armor_reducer.rs.  It lives in a
 * module of its own because the champion statistics themselves depend on the reducer.
 */
module ArmorReducerFrom {
  import opened CombatMath
  import opened ArmorReduction
  import Stats

  /**
   * A reducer built from a champion's statistics at a level: the lethality converted
   * to flat penetration, the percent penetration copied, every other field 0.
   */
  function FromStats(stats: Stats.ChampionStats, level: nat): (r: Reducer)
    reads stats`lethality, stats`percentArmorPen
    ensures r.flatArmorPen == LethalityToPen(stats.lethality, level)
    ensures r.percentArmorPen == stats.percentArmorPen
    ensures r.flatArmorReduction == 0.0 && r.percentArmorReduction == 0.0
    ensures r.percentBonusArmorPen == 0.0
  {
    NoReducer.(flatArmorPen := LethalityToPen(stats.lethality, level),
               percentArmorPen := stats.percentArmorPen)
  }

  /** The conversion agrees with starting from the default reducer and calling `set_from_lethality`. */
  lemma FromStatsIsDefaultThenLethality(stats: Stats.ChampionStats, level: nat)
    ensures FromStats(stats, level)
         == SetFromLethality(NoReducer.(percentArmorPen := stats.percentArmorPen), stats.lethality, level)
  {
  }
}
