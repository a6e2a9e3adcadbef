/**
 * Champion statistics (src/load_champion.rs): the in-place addition of an item's stat
 * deltas and the three views the attack code takes of a champion at a level.  Loading
 * the statistics from JSON is not part of this model.
 */
module Stats {
  import opened CombatMath
  import opened Wrappers
  import Attack

  /**
   * The ten statistics the item-delta operations add to, in the order
   * `add_item_deltas` writes them.
   */
  datatype StatVector = StatVector(
    armor: real, magicResist: real, healthRegen: real, health: real, mana: real,
    bonusAttackDamage: real, bonusAttackSpeed: real, lifeSteal: real,
    percentMovementSpeed: real, moveSpeed: real)

  const ZeroVector: StatVector := StatVector(0.0, 0.0, 0.0, 0.0, 0.0, 0.0, 0.0, 0.0, 0.0, 0.0)

  /** Field-wise sum. */
  function Plus(a: StatVector, b: StatVector): StatVector
  {
    StatVector(a.armor + b.armor, a.magicResist + b.magicResist, a.healthRegen + b.healthRegen,
               a.health + b.health, a.mana + b.mana, a.bonusAttackDamage + b.bonusAttackDamage,
               a.bonusAttackSpeed + b.bonusAttackSpeed, a.lifeSteal + b.lifeSteal,
               a.percentMovementSpeed + b.percentMovementSpeed, a.moveSpeed + b.moveSpeed)
  }

  /** The item delta record `add_item_deltas` reads (`load_item::ItemStatDeltas`). */
  datatype ItemStatDeltas = ItemStatDeltas(
    armor: Option<real>, magicResist: Option<real>, healthRegen: Option<real>,
    health: Option<real>, mana: Option<real>, attackDamage: Option<real>,
    bonusAttackSpeed: Option<real>, lifeSteal: Option<real>,
    percentMovementSpeed: Option<real>, flatMovementSpeed: Option<real>)

  const NoItemDeltas: ItemStatDeltas := ItemStatDeltas(None, None, None, None, None, None, None, None, None, None)

  /**
   * What `add_item_deltas` adds: each present delta to its statistic, 0 for an absent
   * one; `attack_damage` goes to the bonus attack damage and `flat_movement_speed` to
   * the move speed.
   */
  function ItemVector(d: ItemStatDeltas): StatVector
  {
    StatVector(OrZero(d.armor), OrZero(d.magicResist), OrZero(d.healthRegen), OrZero(d.health),
               OrZero(d.mana), OrZero(d.attackDamage), OrZero(d.bonusAttackSpeed),
               OrZero(d.lifeSteal), OrZero(d.percentMovementSpeed), OrZero(d.flatMovementSpeed))
  }

  /**
   * `ChampionStats`.  The fields are those of src/load_champion.rs plus the five that
   * src/load_wiki_item.rs and src/champions/champion.rs use (lethality, percent armor
   * penetration, ability haste, ability power, omnivamp).
   */
  class ChampionStats {
    var health: real
    var healthPerLevel: real
    var mana: real
    var manaPerLevel: real
    var moveSpeed: real
    var armor: real
    var armorPerLevel: real
    var magicResist: real
    var magicResistPerLevel: real
    var attackRange: real
    var healthRegen: real
    var healthRegenPerLevel: real
    var manaRegen: real
    var manaRegenPerLevel: real
    var criticalStrikeChance: real
    var critPerLevel: real
    var bonusAttackDamage: real
    var baseAttackDamage: real
    var attackDamagePerLevel: real
    var attackSpeedPerLevel: real
    var attackSpeed: real
    var bonusAttackSpeed: real
    var lifeSteal: real
    var percentMovementSpeed: real
    var lethality: real
    var percentArmorPen: real
    var abilityHaste: real
    var abilityPower: real
    var omnivamp: real

    /** `ChampionStats { health, armor, magic_resist, ..Default::default() }`. */
    constructor Init(health: real, armor: real, magicResist: real)
      ensures this.health == health && this.armor == armor && this.magicResist == magicResist
      ensures healthPerLevel == 0.0 && armorPerLevel == 0.0 && magicResistPerLevel == 0.0
      ensures Additive() == StatVector(armor, magicResist, 0.0, health, 0.0, 0.0, 0.0, 0.0, 0.0, 0.0)
      ensures baseAttackDamage == 0.0 && attackDamagePerLevel == 0.0 && attackSpeed == 0.0
      ensures attackSpeedPerLevel == 0.0 && criticalStrikeChance == 0.0
      ensures lethality == 0.0 && percentArmorPen == 0.0 && abilityHaste == 0.0
      ensures abilityPower == 0.0 && omnivamp == 0.0
    {
      this.health := health;
      this.armor := armor;
      this.magicResist := magicResist;
      healthPerLevel, mana, manaPerLevel, moveSpeed := 0.0, 0.0, 0.0, 0.0;
      armorPerLevel, magicResistPerLevel, attackRange := 0.0, 0.0, 0.0;
      healthRegen, healthRegenPerLevel, manaRegen, manaRegenPerLevel := 0.0, 0.0, 0.0, 0.0;
      criticalStrikeChance, critPerLevel := 0.0, 0.0;
      bonusAttackDamage, baseAttackDamage, attackDamagePerLevel := 0.0, 0.0, 0.0;
      attackSpeedPerLevel, attackSpeed, bonusAttackSpeed := 0.0, 0.0, 0.0;
      lifeSteal, percentMovementSpeed := 0.0, 0.0;
      lethality, percentArmorPen, abilityHaste, abilityPower, omnivamp := 0.0, 0.0, 0.0, 0.0, 0.0;
    }

    /** The ten additive statistics, as one value. */
    function Additive(): StatVector
      reads this
    {
      StatVector(armor, magicResist, healthRegen, health, mana, bonusAttackDamage,
                 bonusAttackSpeed, lifeSteal, percentMovementSpeed, moveSpeed)
    }

    /**
     * `add_item_deltas`: adds each delta to its statistic (0 when absent); the frame
     * says that every other statistic, such as the base attack damage and the
     * per-level growths, is left as it was.
     */
    method AddItemDeltas(d: ItemStatDeltas)
      modifies this`armor, this`magicResist, this`healthRegen, this`health, this`mana,
               this`bonusAttackDamage, this`bonusAttackSpeed, this`lifeSteal,
               this`percentMovementSpeed, this`moveSpeed
      ensures Additive() == Plus(old(Additive()), ItemVector(d))
    {
      armor := armor + OrZero(d.armor);
      magicResist := magicResist + OrZero(d.magicResist);
      healthRegen := healthRegen + OrZero(d.healthRegen);
      health := health + OrZero(d.health);
      mana := mana + OrZero(d.mana);
      bonusAttackDamage := bonusAttackDamage + OrZero(d.attackDamage);
      bonusAttackSpeed := bonusAttackSpeed + OrZero(d.bonusAttackSpeed);
      lifeSteal := lifeSteal + OrZero(d.lifeSteal);
      percentMovementSpeed := percentMovementSpeed + OrZero(d.percentMovementSpeed);
      moveSpeed := moveSpeed + OrZero(d.flatMovementSpeed);
    }

    /**
     * The maximum health at `level`, which `get_max_health` reports for champions and
     * target dummies alike: the health statistic grown by its per-level increment.
     */
    function MaxHealthAt(level: nat): (m: real)
      reads this`health, this`healthPerLevel
      ensures level == 1 ==> m == health
      ensures healthPerLevel == 0.0 ==> m == health
    {
      StatAtLevel(health, healthPerLevel, level)
    }

    /**
     * `as_basic_attack`: the level's attack damage plus the bonus, all carried as base
     * attack damage; no bonus, no crit.
     */
    function AsBasicAttack(level: nat): (a: Attack.BasicAttack)
      reads this
      ensures a.TotalAttackDamage() == StatAtLevel(baseAttackDamage, attackDamagePerLevel, level) + bonusAttackDamage
      ensures a.bonusAttackDamage == 0.0 && a.criticalStrikeChance == 0.0 && a.bonusCriticalDamage == 0.0
    {
      var attackDamage := StatAtLevel(baseAttackDamage, attackDamagePerLevel, level) + bonusAttackDamage;
      Attack.BasicAttack(attackDamage, 0.0, 0.0, 0.0)
    }

    /** `as_attack_speed`: base rate as loaded, bonus = per-level growth plus item bonus. */
    function AsAttackSpeed(level: nat): (s: Attack.AttackSpeed)
      reads this
      ensures s.base == attackSpeed
      ensures s.bonus == StatAtLevel(0.0, attackSpeedPerLevel, level) + bonusAttackSpeed
      ensures level == 1 ==> s.bonus == bonusAttackSpeed
    {
      Attack.AttackSpeed(attackSpeed, StatAtLevel(0.0, attackSpeedPerLevel, level) + bonusAttackSpeed)
    }

    /** `as_target`: a fresh target at full health with no bonus armor. */
    method AsTarget(level: nat) returns (t: Attack.Target)
      ensures fresh(t)
      ensures t.baseArmor == StatAtLevel(armor, armorPerLevel, level)
      ensures t.bonusArmor == 0.0
      ensures t.magicResist == StatAtLevel(magicResist, magicResistPerLevel, level)
      ensures t.maxHealth == StatAtLevel(health, healthPerLevel, level)
      ensures t.currentHealth == t.maxHealth
    {
      var baseArmor := StatAtLevel(armor, armorPerLevel, level);
      var mr := StatAtLevel(magicResist, magicResistPerLevel, level);
      var maxHealth := StatAtLevel(health, healthPerLevel, level);
      t := new Attack.Target.New(Attack.TargetData(baseArmor, 0.0, mr, maxHealth, maxHealth));
    }
  }

  // ---------------------------------------------------------------------------
  // Properties of the delta addition

  /** Two deltas applied in either order give the same statistics. */
  lemma DeltaOrderIrrelevant(s: StatVector, d1: StatVector, d2: StatVector)
    ensures Plus(Plus(s, d1), d2) == Plus(Plus(s, d2), d1)
  {
  }

  /** An all-absent delta adds nothing. */
  lemma NoDeltasChangeNothing(s: StatVector)
    ensures ItemVector(NoItemDeltas) == ZeroVector
    ensures Plus(s, ItemVector(NoItemDeltas)) == s
  {
  }
}
