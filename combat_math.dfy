/**
 * Resistance and penetration arithmetic (src/core.rs), with `f64` read as `real`,
 * plus the two helpers the rest of the code imports from `core` (`stat_at_level`,
 * `stack_multiplicative_reduction`), whose bodies live outside src/core.rs: they take
 * the game's per-level growth curve and multiplicative stacking formulas.
 */
module CombatMath {

  /** The constant every resistance formula scales by. */
  const ScalingRatio: real := 100.0

  /**
   * Damage left after `resist` points of armor or magic resist.  A positive value
   * mitigates by 100/(100+resist); zero or a negative value multiplies by
   * 2 - 100/(100-resist), which is 1 at zero and grows towards 2.
   */
  function ResistDamage(raw: real, resist: real): (r: real)
    ensures resist > 0.0 ==> r * (ScalingRatio + resist) == raw * ScalingRatio
    ensures resist <= 0.0 ==> r * (ScalingRatio - resist) == raw * (ScalingRatio - 2.0 * resist)
  {
    if resist > 0.0 then
      raw * ScalingRatio / (ScalingRatio + resist)
    else
      var f := ScalingRatio / (ScalingRatio - resist);
      assert f * (ScalingRatio - resist) == ScalingRatio;
      raw * (2.0 - f)
  }

  /** Lethality converted to flat armor penetration: 60% at level 0, growing linearly to 100% at level 18. */
  function LethalityToPen(lethality: real, level: nat): (p: real)
    ensures p == 0.0 <==> lethality == 0.0
    ensures level == 18 ==> p == lethality
  {
    var c := 0.6 + 0.4 * (level as real) / 18.0;
    assert c >= 0.6;
    assert lethality * c == 0.0 ==> lethality == 0.0 by {
      if lethality * c == 0.0 { ZeroFactor(lethality, c); }
    }
    lethality * c
  }

  /**
   * Per-level stat curve `base + growth * (level-1) * (0.7025 + 0.0175*(level-1))`.
   * `stat_at_level` is imported from `core`; src/core.rs is not where it is defined.
   */
  function StatAtLevel(base: real, growth: real, level: nat): (r: real)
    ensures level == 1 ==> r == base
    ensures growth == 0.0 ==> r == base
  {
    var n := level as real - 1.0;
    base + growth * n * (0.7025 + 0.0175 * n)
  }

  /**
   * Diminishing-returns stacking of two percentages, `1 - (1-a)(1-b)` written in
   * percent units.  `stack_multiplicative_reduction` is imported from `core` but not
   * defined in the files of this model.
   */
  function StackMultiplicativeReduction(a: real, b: real): (r: real)
    ensures a == 0.0 ==> r == b
    ensures b == 0.0 ==> r == a
  {
    a + b - a * b / 100.0
  }

  // ---------------------------------------------------------------------------
  // resist_damage

  /** Zero resist leaves the damage unchanged (the `1532 -> 1532` case). */
  lemma ResistZero(raw: real)
    ensures ResistDamage(raw, 0.0) == raw
  {
  }

  /** Positive resist strictly mitigates positive damage and never makes it negative. */
  lemma ResistPositiveMitigates(raw: real, resist: real)
    requires resist > 0.0 && raw > 0.0
    ensures 0.0 < ResistDamage(raw, resist) < raw
  {
    var r, k := ResistDamage(raw, resist), ScalingRatio + resist;
    assert r * k == raw * ScalingRatio;
    PositiveFactor(r, k);
    assert (raw - r) * k == raw * resist;
    ProductPositive(raw, resist);
    PositiveFactor(raw - r, k);
  }

  /** Negative resist amplifies positive damage, strictly between once and twice. */
  lemma ResistNegativeAmplifies(raw: real, resist: real)
    requires resist < 0.0 && raw > 0.0
    ensures raw < ResistDamage(raw, resist) < 2.0 * raw
  {
    var r, m := ResistDamage(raw, resist), ScalingRatio - resist;
    assert r * m == raw * (ScalingRatio - 2.0 * resist);
    assert (r - raw) * m == raw * (-resist);
    ProductPositive(raw, -resist);
    PositiveFactor(r - raw, m);
    assert (2.0 * raw - r) * m == raw * ScalingRatio;
    PositiveFactor(2.0 * raw - r, m);
  }

  /**
   * Near zero resist the law moves the raw damage by at most `raw * |resist| / 100`,
   * from either side, so the two branches meet continuously at zero.
   */
  lemma ResistNearZero(raw: real, resist: real)
    requires raw >= 0.0
    ensures resist > 0.0 ==> raw - ResistDamage(raw, resist) <= raw * resist / ScalingRatio
    ensures resist <= 0.0 ==> ResistDamage(raw, resist) - raw <= raw * (-resist) / ScalingRatio
  {
    var r := ResistDamage(raw, resist);
    if resist > 0.0 {
      var d, m := raw - r, ScalingRatio + resist;
      assert d * m == raw * resist;
      ProductNonNegative(raw, resist);
      NonNegativeFactor(d, m);
      ProductNonNegative(d, resist);
      assert d * ScalingRatio <= raw * resist;
    } else {
      var d, m := r - raw, ScalingRatio - resist;
      assert d * m == raw * (-resist);
      ProductNonNegative(raw, -resist);
      NonNegativeFactor(d, m);
      ProductNonNegative(d, -resist);
      assert d * ScalingRatio <= raw * (-resist);
    }
  }

  /** `resist_damage` is linear in the raw damage for any fixed resist. */
  lemma ResistLinear(a: real, x: real, y: real, resist: real)
    ensures ResistDamage(a * x + y, resist) == a * ResistDamage(x, resist) + ResistDamage(y, resist)
  {
    if resist > 0.0 {
      var k := ScalingRatio + resist;
      var rx, ry, rs := ResistDamage(x, resist), ResistDamage(y, resist), ResistDamage(a * x + y, resist);
      assert rx * k == x * ScalingRatio;
      assert ry * k == y * ScalingRatio;
      assert rs * k == (a * x + y) * ScalingRatio;
      assert (a * rx + ry) * k == a * (rx * k) + ry * k;
      assert (rs - (a * rx + ry)) * k == 0.0;
      ZeroFactor(rs - (a * rx + ry), k);
    } else {
      var f := ScalingRatio / (ScalingRatio - resist);
      assert ResistDamage(a * x + y, resist) == (a * x + y) * (2.0 - f);
      assert ResistDamage(x, resist) == x * (2.0 - f);
      assert ResistDamage(y, resist) == y * (2.0 - f);
    }
  }

  /** For non-negative damage, more resist never lets more damage through. */
  lemma ResistAntitone(raw: real, r1: real, r2: real)
    requires raw >= 0.0 && r1 <= r2
    ensures ResistDamage(raw, r2) <= ResistDamage(raw, r1)
  {
    if r1 > 0.0 {
      AntitonePositive(raw, r1, r2);
    } else if r2 > 0.0 {
      var d1, d2 := ResistDamage(raw, r1), ResistDamage(raw, r2);
      var m1, k2 := ScalingRatio - r1, ScalingRatio + r2;
      assert (d1 - raw) * m1 == raw * (-r1);
      ProductNonNegative(raw, -r1);
      NonNegativeFactor(d1 - raw, m1);
      assert (raw - d2) * k2 == raw * r2;
      ProductNonNegative(raw, r2);
      NonNegativeFactor(raw - d2, k2);
    } else {
      AntitoneNonPositive(raw, r1, r2);
    }
  }

  lemma AntitonePositive(raw: real, r1: real, r2: real)
    requires raw >= 0.0 && 0.0 < r1 <= r2
    ensures ResistDamage(raw, r2) <= ResistDamage(raw, r1)
  {
    var d1, d2 := ResistDamage(raw, r1), ResistDamage(raw, r2);
    var k1, k2 := ScalingRatio + r1, ScalingRatio + r2;
    assert d1 * k1 == raw * ScalingRatio;
    assert d2 * k2 == raw * ScalingRatio;
    ProductNonNegative(raw, ScalingRatio);
    NonNegativeFactor(d2, k2);
    assert (d1 - d2) * k1 == d2 * (k2 - k1);
    ProductNonNegative(d2, k2 - k1);
    NonNegativeFactor(d1 - d2, k1);
  }

  lemma AntitoneNonPositive(raw: real, r1: real, r2: real)
    requires raw >= 0.0 && r1 <= r2 <= 0.0
    ensures ResistDamage(raw, r2) <= ResistDamage(raw, r1)
  {
    var d1, d2 := ResistDamage(raw, r1), ResistDamage(raw, r2);
    var m1, m2 := ScalingRatio - r1, ScalingRatio - r2;
    assert d1 * m1 == raw * (2.0 * m1 - ScalingRatio);
    assert d2 * m2 == raw * (2.0 * m2 - ScalingRatio);
    assert (d1 - d2) * (m1 * m2) == (d1 * m1) * m2 - (d2 * m2) * m1;
    assert (d1 - d2) * (m1 * m2) == ScalingRatio * raw * (m1 - m2);
    ProductNonNegative(ScalingRatio * raw, m1 - m2);
    ProductPositive(m1, m2);
    NonNegativeFactor(d1 - d2, m1 * m2);
  }

  lemma ProductPositive(a: real, b: real)
    requires a > 0.0 && b > 0.0
    ensures a * b > 0.0
  {
  }

  lemma ProductNonNegative(a: real, b: real)
    requires a >= 0.0 && b >= 0.0
    ensures a * b >= 0.0
  {
  }

  lemma PositiveFactor(x: real, k: real)
    requires k > 0.0 && x * k > 0.0
    ensures x > 0.0
  {
  }

  lemma NonNegativeFactor(x: real, k: real)
    requires k > 0.0 && x * k >= 0.0
    ensures x >= 0.0
  {
  }

  lemma ZeroFactor(x: real, k: real)
    requires k != 0.0 && x * k == 0.0
    ensures x == 0.0
  {
  }

  /** The three test cases of src/core.rs: 1532 at 0, 1000 at 25, 1000 at -100. */
  lemma ResistExamples()
    ensures ResistDamage(1532.0, 0.0) == 1532.0
    ensures ResistDamage(1000.0, 25.0) == 800.0
    ensures ResistDamage(1000.0, -100.0) == 1500.0
  {
  }

  // ---------------------------------------------------------------------------
  // lethality_to_pen

  /** The two test cases of src/core.rs. */
  lemma LethalityExamples()
    ensures LethalityToPen(20.0, 18) == 20.0
    ensures LethalityToPen(100.0, 1) == 560.0 / 9.0
  {
  }

  /** At level 18 all lethality becomes penetration. */
  lemma LethalityFullAtEighteen(lethality: real)
    ensures LethalityToPen(lethality, 18) == lethality
  {
  }

  /** For non-negative lethality and levels 1..18 the penetration lies in [0.6*l, l]. */
  lemma LethalityBounds(lethality: real, level: nat)
    requires lethality >= 0.0 && 1 <= level <= 18
    ensures 0.6 * lethality <= LethalityToPen(lethality, level) <= lethality
  {
    var c := 0.6 + 0.4 * (level as real) / 18.0;
    assert LethalityToPen(lethality, level) == lethality * c;
    assert 0.6 <= c <= 1.0;
    ProductNonNegative(lethality, c - 0.6);
    ProductNonNegative(lethality, 1.0 - c);
  }

  /** For non-negative lethality, penetration never decreases as the level rises. */
  lemma LethalityMonotone(lethality: real, l1: nat, l2: nat)
    requires lethality >= 0.0 && l1 <= l2
    ensures LethalityToPen(lethality, l1) <= LethalityToPen(lethality, l2)
  {
    var c1 := 0.6 + 0.4 * (l1 as real) / 18.0;
    var c2 := 0.6 + 0.4 * (l2 as real) / 18.0;
    assert LethalityToPen(lethality, l1) == lethality * c1;
    assert LethalityToPen(lethality, l2) == lethality * c2;
    assert c1 <= c2;
    ProductNonNegative(lethality, c2 - c1);
    assert lethality * c2 - lethality * c1 == lethality * (c2 - c1);
  }
}
