/**
 * `TargetDummy` (src/champions/target_dummy.rs): a stationary combatant with 1000
 * health, level 1 and given resistances.
 */
module TargetDummies {
  import opened CombatMath
  import Stats

  class TargetDummy {
    var level: nat
    const stats: Stats.ChampionStats
    /** Base armor before level-ups. */
    const initialArmor: real
    var currentHealth: real

    /** `new_with_resist`: health 1000 (also current health), level 1, the given armor as initial armor. */
    constructor NewWithResist(armor: real, magicResist: real)
      ensures fresh(stats)
      ensures stats.health == 1000.0 && stats.armor == armor && stats.magicResist == magicResist
      ensures stats.healthPerLevel == 0.0 && stats.armorPerLevel == 0.0
      ensures level == 1 && initialArmor == armor && currentHealth == 1000.0
      ensures stats.armor == GetInitialArmor() && currentHealth == GetMaxHealth()
    {
      var health := 1000.0;
      stats := new Stats.ChampionStats.Init(health, armor, magicResist);
      initialArmor := armor;
      currentHealth := health;
      level := 1;
    }

    /** `new`: `new_with_resist(0, 0)`. */
    constructor New()
      ensures fresh(stats)
      ensures stats.health == 1000.0 && stats.armor == 0.0 && stats.magicResist == 0.0
      ensures stats.healthPerLevel == 0.0 && stats.armorPerLevel == 0.0
      ensures level == 1 && initialArmor == 0.0 && currentHealth == 1000.0
      ensures stats.armor == GetInitialArmor() && currentHealth == GetMaxHealth()
    {
      var health := 1000.0;
      stats := new Stats.ChampionStats.Init(health, 0.0, 0.0);
      initialArmor := 0.0;
      currentHealth := health;
      level := 1;
    }

    function GetLevel(): (l: nat)
      reads this
      ensures l == level
    {
      level
    }

    function GetStats(): (s: Stats.ChampionStats)
      ensures s == stats
    {
      stats
    }

    function GetCurrentHealth(): (h: real)
      reads this
      ensures h == currentHealth
    {
      currentHealth
    }

    function GetInitialArmor(): (a: real)
      ensures a == initialArmor
    {
      initialArmor
    }

    /** The maximum health at the dummy's level. */
    function GetMaxHealth(): (m: real)
      reads this, stats
      ensures level == 1 ==> m == stats.health
    {
      stats.MaxHealthAt(level)
    }

    /** `full_heal`: current health back to the maximum, nothing else changes. */
    method FullHeal()
      modifies this`currentHealth
      ensures currentHealth == GetMaxHealth()
    {
      currentHealth := GetMaxHealth();
    }
  }
}
