/**
 * Vi's Q (src/champions/vi.rs): the per-rank damage table with its attack-damage
 * ratios, and the charge scaling of `ability_q`.  Vi's base attack damage comes from
 * the loaded champion statistics, so here it is an argument.
 */
module Vi {
  /** `AbiltyDamageInfo`: a damage per rank plus ratios (in percent) of total and bonus attack damage. */
  datatype AbilityDamageInfo = AbilityDamageInfo(baseDamages: seq<real>, adRatio: real, bonusAdRatio: real)

  /** Q's damage per rank, and the charge time that reaches full damage. */
  const QDamage: seq<real> := [45.0, 70.0, 95.0, 120.0, 145.0]
  const QMaxDamageCharge: real := 1.25

  datatype ViChampion = ViChampion(level: nat, qData: AbilityDamageInfo)

  /** `Vi::new`: Q scales with 80% of bonus attack damage and none of the total. */
  function NewVi(level: nat): (v: ViChampion)
    ensures v.level == level
    ensures v.qData.baseDamages == QDamage && |v.qData.baseDamages| == 5
    ensures v.qData.adRatio == 0.0 && v.qData.bonusAdRatio == 80.0
  {
    ViChampion(level, AbilityDamageInfo(QDamage, 0.0, 80.0))
  }

  /**
   * `to_damage_amount`: the rank's damage plus the ratios of total and bonus attack
   * damage.  The rank indexes the table (the source panics past its end).
   */
  function ToDamageAmount(info: AbilityDamageInfo, rank: nat, base: real, bonus: real): (d: real)
    requires rank < |info.baseDamages|
    ensures info.adRatio == 0.0 && info.bonusAdRatio == 0.0 ==> d == info.baseDamages[rank]
  {
    info.baseDamages[rank] + 0.01 * info.adRatio * (base + bonus) + 0.01 * info.bonusAdRatio * bonus
  }

  function Min(a: real, b: real): (m: real)
    ensures m <= a && m <= b && (m == a || m == b)
  {
    if a <= b then a else b
  }

  /** The charge scaling of `ability_q`: 1 plus the charge's share of full charge, capped at 1. */
  function ChargeMultiplier(charge: real): (m: real)
    ensures charge >= 0.0 ==> 1.0 <= m <= 2.0
    ensures charge >= QMaxDamageCharge ==> m == 2.0
    ensures charge <= QMaxDamageCharge ==> m == 1.0 + charge * 0.8
  {
    Min(1.0, charge * 0.10 / 0.125) + 1.0
  }

  /** `ability_q`: the damage amount scaled by the charge multiplier. */
  function AbilityQ(vi: ViChampion, rank: nat, baseAd: real, bonusAd: real, chargeSeconds: real): (d: real)
    requires rank < |vi.qData.baseDamages|
    ensures var a := ToDamageAmount(vi.qData, rank, baseAd, bonusAd);
            a >= 0.0 && chargeSeconds >= 0.0 ==> a <= d <= 2.0 * a
    ensures chargeSeconds == 0.0 ==> d == ToDamageAmount(vi.qData, rank, baseAd, bonusAd)
  {
    var a, m := ToDamageAmount(vi.qData, rank, baseAd, bonusAd), ChargeMultiplier(chargeSeconds);
    assert a >= 0.0 && chargeSeconds >= 0.0 ==> a <= a * m <= 2.0 * a by {
      if a >= 0.0 && chargeSeconds >= 0.0 {
        assert a * m - a == a * (m - 1.0) && a * (m - 1.0) >= 0.0;
        assert 2.0 * a - a * m == a * (2.0 - m) && a * (2.0 - m) >= 0.0;
      }
    }
    a * m
  }

  /** Charging longer never lowers Q's damage (for a non-negative damage amount). */
  lemma QMonotoneInCharge(vi: ViChampion, rank: nat, baseAd: real, bonusAd: real, c1: real, c2: real)
    requires rank < |vi.qData.baseDamages|
    requires ToDamageAmount(vi.qData, rank, baseAd, bonusAd) >= 0.0
    requires c1 <= c2
    ensures AbilityQ(vi, rank, baseAd, bonusAd, c1) <= AbilityQ(vi, rank, baseAd, bonusAd, c2)
  {
    var a := ToDamageAmount(vi.qData, rank, baseAd, bonusAd);
    var m1, m2 := ChargeMultiplier(c1), ChargeMultiplier(c2);
    assert m1 <= m2;
    assert a * m2 - a * m1 == a * (m2 - m1);
    assert a * (m2 - m1) >= 0.0;
  }

  /** At or beyond full charge Q deals exactly twice its uncharged damage. */
  lemma QFullChargeDoubles(vi: ViChampion, rank: nat, baseAd: real, bonusAd: real, charge: real)
    requires rank < |vi.qData.baseDamages|
    requires charge >= QMaxDamageCharge
    ensures AbilityQ(vi, rank, baseAd, bonusAd, charge) == 2.0 * AbilityQ(vi, rank, baseAd, bonusAd, 0.0)
  {
    assert ChargeMultiplier(charge) == 2.0;
    assert ChargeMultiplier(0.0) == 1.0;
  }

  /** With Vi's table, Q's damage amount is the rank's damage plus 80% of bonus attack damage. */
  lemma ViQAmount(level: nat, rank: nat, baseAd: real, bonusAd: real)
    requires rank < 5
    ensures ToDamageAmount(NewVi(level).qData, rank, baseAd, bonusAd) == QDamage[rank] + 0.8 * bonusAd
  {
  }

  /** Vi's Q ignores base attack damage: its total attack damage ratio is 0. */
  lemma QIgnoresBaseAd(level: nat, rank: nat, base1: real, base2: real, bonusAd: real, charge: real)
    requires rank < 5
    ensures AbilityQ(NewVi(level), rank, base1, bonusAd, charge) == AbilityQ(NewVi(level), rank, base2, bonusAd, charge)
  {
  }

  /** The in-game samples: 45 uncharged and 90 fully charged at rank 0, 188 at rank 1 with 30 bonus attack damage. */
  lemma QExamples(baseAd: real)
    ensures AbilityQ(NewVi(1), 0, baseAd, 0.0, 0.0) == 45.0
    ensures AbilityQ(NewVi(1), 0, baseAd, 0.0, QMaxDamageCharge) == 90.0
    ensures AbilityQ(NewVi(3), 1, baseAd, 30.0, QMaxDamageCharge) == 188.0
  {
    assert ChargeMultiplier(0.0) == 1.0;
    assert ChargeMultiplier(QMaxDamageCharge) == 2.0;
  }
}
