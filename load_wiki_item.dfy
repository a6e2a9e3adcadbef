/**
 * Applying a wiki item's stat deltas to a champion (`WikiItemStatDeltas::modify_champion_stats`
 * in src/load_wiki_item.rs).  Loading the wiki JSON is not part of this model.
 */
module WikiItems {
  import opened CombatMath
  import opened Wrappers
  import opened Stats

  /** The parsed stat block of a wiki item; every field may be absent. */
  datatype WikiItemStatDeltas = WikiItemStatDeltas(
    attackDamage: Option<real>, abilityHaste: Option<real>, abilityPower: Option<real>,
    armor: Option<real>, percentArmorPen: Option<real>, attackSpeed: Option<real>,
    critChance: Option<real>, health: Option<real>, lethality: Option<real>,
    lifesteal: Option<real>, omnivamp: Option<real>, percentMovementSpeed: Option<real>,
    flatMovementSpeed: Option<real>, magicResist: Option<real>, mana: Option<real>,
    percentMagicPen: Option<real>, flatMagicPen: Option<real>, spec: Option<real>,
    mp5: Option<real>, healSheildPower: Option<real>, goldPer10: Option<real>,
    hp5: Option<real>, hp5flat: Option<real>)

  const NoWikiDeltas: WikiItemStatDeltas := WikiItemStatDeltas(
    None, None, None, None, None, None, None, None, None, None, None, None,
    None, None, None, None, None, None, None, None, None, None, None)

  /** Everything a wiki item contributes: ten additive statistics, four more sums and a penetration to stack. */
  datatype WikiContribution = WikiContribution(
    additive: StatVector, lethality: real, abilityHaste: real, abilityPower: real,
    omnivamp: real, percentArmorPen: real)

  /**
   * The contribution of a delta record: `hp5flat` feeds health regeneration,
   * `attack_speed` the bonus attack speed, `ad` the bonus attack damage; an absent
   * field contributes 0.
   */
  function Contribution(d: WikiItemStatDeltas): WikiContribution
  {
    WikiContribution(
      StatVector(OrZero(d.armor), OrZero(d.magicResist), OrZero(d.hp5flat), OrZero(d.health),
                 OrZero(d.mana), OrZero(d.attackDamage), OrZero(d.attackSpeed),
                 OrZero(d.lifesteal), OrZero(d.percentMovementSpeed), OrZero(d.flatMovementSpeed)),
      OrZero(d.lethality), OrZero(d.abilityHaste), OrZero(d.abilityPower),
      OrZero(d.omnivamp), OrZero(d.percentArmorPen))
  }

  /**
   * `modify_champion_stats`: every additive statistic grows by its contribution, and
   * the percent armor penetration is stacked multiplicatively with the item's rather
   * than added.  Statistics outside the frame are never changed.
   */
  method ModifyChampionStats(d: WikiItemStatDeltas, stats: ChampionStats)
    modifies stats`armor, stats`magicResist, stats`healthRegen, stats`health, stats`mana,
             stats`bonusAttackDamage, stats`bonusAttackSpeed, stats`lifeSteal,
             stats`percentMovementSpeed, stats`moveSpeed, stats`lethality,
             stats`abilityHaste, stats`abilityPower, stats`percentArmorPen, stats`omnivamp
    ensures var c := Contribution(d);
            stats.Additive() == Plus(old(stats.Additive()), c.additive) &&
            stats.lethality == old(stats.lethality) + c.lethality &&
            stats.abilityHaste == old(stats.abilityHaste) + c.abilityHaste &&
            stats.abilityPower == old(stats.abilityPower) + c.abilityPower &&
            stats.omnivamp == old(stats.omnivamp) + c.omnivamp &&
            stats.percentArmorPen == StackMultiplicativeReduction(c.percentArmorPen, old(stats.percentArmorPen))
  {
    stats.armor := stats.armor + OrZero(d.armor);
    stats.magicResist := stats.magicResist + OrZero(d.magicResist);
    stats.healthRegen := stats.healthRegen + OrZero(d.hp5flat);
    stats.health := stats.health + OrZero(d.health);
    stats.mana := stats.mana + OrZero(d.mana);
    stats.bonusAttackDamage := stats.bonusAttackDamage + OrZero(d.attackDamage);
    stats.bonusAttackSpeed := stats.bonusAttackSpeed + OrZero(d.attackSpeed);
    stats.lethality := stats.lethality + OrZero(d.lethality);
    stats.lifeSteal := stats.lifeSteal + OrZero(d.lifesteal);
    stats.percentMovementSpeed := stats.percentMovementSpeed + OrZero(d.percentMovementSpeed);
    stats.moveSpeed := stats.moveSpeed + OrZero(d.flatMovementSpeed);
    stats.abilityHaste := stats.abilityHaste + OrZero(d.abilityHaste);

    stats.abilityPower := stats.abilityPower + OrZero(d.abilityPower);
    stats.percentArmorPen := StackMultiplicativeReduction(OrZero(d.percentArmorPen), stats.percentArmorPen);
    stats.omnivamp := stats.omnivamp + OrZero(d.omnivamp);
  }

  /**
   * The fields that are parsed but never applied (crit chance, spec, mp5, gold per 10,
   * magic penetrations, heal and shield power, hp5) have no effect on the contribution.
   */
  lemma UnappliedFieldsIgnored(d: WikiItemStatDeltas, x: Option<real>)
    ensures Contribution(d.(critChance := x, spec := x, mp5 := x, goldPer10 := x,
                            percentMagicPen := x, flatMagicPen := x, healSheildPower := x, hp5 := x))
            == Contribution(d)
  {
  }

  /** All-absent deltas contribute nothing, and stacking 0% penetration keeps the current value. */
  lemma NoWikiDeltasChangeNothing(s: StatVector, pen: real)
    ensures Contribution(NoWikiDeltas).additive == ZeroVector
    ensures Plus(s, Contribution(NoWikiDeltas).additive) == s
    ensures StackMultiplicativeReduction(Contribution(NoWikiDeltas).percentArmorPen, pen) == pen
  {
  }
}
