/**
 * `Champion` of src/champions/champion.rs: a combatant's statistics, health and effect
 * registry, and ability dispatch.
 *
 * Champions live in an arena (`map<Handle, Champion>`); the source's `Weak` attacker
 * references are handles, and a handle missing from the arena is `upgrade()` returning
 * `None`.  The clock is the explicit `time` argument.  The source's recursion
 * execute_ability -> upsert_effect -> bump_found_effect -> execute_ability is bounded by
 * `fuel`: a bump or an empowered follow-up that would recurse with no fuel left does
 * nothing.
 */
module Champions {
  import opened CombatMath
  import opened Wrappers
  import opened ArmorReduction
  import opened ArmorReducerFrom
  import opened Effects
  import Stats

  type Arena = map<Handle, Champion>

  /** The shared table of item-granted behaviours consulted after the champion's own. */
  type StaticAbilities = map<AbilityName, Behaviour>

  class Champion {
    const stats: Stats.ChampionStats
    var level: nat
    /** Base armor before level-ups; bonus armor is measured against it. */
    const initialArmor: real
    var currentHealth: real
    const abilities: map<AbilityName, Behaviour>
    var effects: seq<EffectData>
    var onHitItemEffects: seq<OnHit>
    var ranks: seq<nat>

    /** The registry holds at most one record per identity. */
    predicate Valid()
      reads this`effects
    {
      Distinct(effects)
    }

    /** `new_dummy_with_resist`: 1000 health, level 1, the given resistances, nothing else. */
    constructor NewDummyWithResist(armor: real, magicResist: real)
      ensures fresh(stats)
      ensures stats.health == 1000.0 && stats.armor == armor && stats.magicResist == magicResist
      ensures stats.healthPerLevel == 0.0 && stats.armorPerLevel == 0.0 && stats.magicResistPerLevel == 0.0
      ensures stats.lethality == 0.0 && stats.percentArmorPen == 0.0
      ensures level == 1 && initialArmor == armor && currentHealth == 1000.0
      ensures abilities == map[] && effects == [] && onHitItemEffects == [] && ranks == [0, 0, 0, 0]
      ensures Valid() && GetBonusArmor() == 0.0 && GetMissingHealth() == 0.0
    {
      var health := 1000.0;
      stats := new Stats.ChampionStats.Init(health, armor, magicResist);
      level := 1;
      initialArmor := armor;
      currentHealth := health;
      abilities := map[];
      onHitItemEffects := [];
      effects := [];
      ranks := [0, 0, 0, 0];
    }

    /** `new_dummy`: the dummy with no resistances. */
    constructor NewDummy()
      ensures fresh(stats)
      ensures stats.health == 1000.0 && stats.armor == 0.0 && stats.magicResist == 0.0
      ensures stats.healthPerLevel == 0.0 && stats.armorPerLevel == 0.0 && stats.magicResistPerLevel == 0.0
      ensures level == 1 && initialArmor == 0.0 && currentHealth == 1000.0
      ensures abilities == map[] && effects == [] && onHitItemEffects == [] && ranks == [0, 0, 0, 0]
      ensures Valid() && GetBonusArmor() == 0.0 && GetMissingHealth() == 0.0
    {
      var health := 1000.0;
      stats := new Stats.ChampionStats.Init(health, 0.0, 0.0);
      level := 1;
      initialArmor := 0.0;
      currentHealth := health;
      abilities := map[];
      onHitItemEffects := [];
      effects := [];
      ranks := [0, 0, 0, 0];
    }

    /**
     * `Champion::new`, given the loaded statistics: it starts at full health for its
     * level, with the loaded armor as its initial armor and an empty registry.
     */
    constructor New(stats: Stats.ChampionStats, level: nat, ranks: seq<nat>, abilities: map<AbilityName, Behaviour>)
      requires |ranks| == 4
      ensures this.stats == stats && this.level == level && this.ranks == ranks && this.abilities == abilities
      ensures initialArmor == stats.armor
      ensures currentHealth == StatAtLevel(stats.health, stats.healthPerLevel, level)
      ensures effects == [] && onHitItemEffects == []
      ensures Valid() && GetBonusArmor() == 0.0 && GetMissingHealth() == 0.0
    {
      this.stats := stats;
      this.level := level;
      initialArmor := stats.armor;
      currentHealth := StatAtLevel(stats.health, stats.healthPerLevel, level);
      this.abilities := abilities;
      onHitItemEffects := [];
      effects := [];
      this.ranks := ranks;
    }

    /** `add_effect`: a plain push. */
    method AddEffect(effect: EffectData)
      modifies this`effects
      ensures effects == old(effects) + [effect]
      ensures effects[..|effects| - 1] == old(effects)
    {
      effects := effects + [effect];
    }

    /** `get_base_armor`: the initial armor grown to the current level. */
    function GetBaseArmor(): (a: real)
      reads this`level, stats`armorPerLevel
      ensures level == 1 ==> a == initialArmor
      ensures stats.armorPerLevel == 0.0 ==> a == initialArmor
    {
      StatAtLevel(initialArmor, stats.armorPerLevel, level)
    }

    /** `get_bonus_armor`: what the current armor statistic holds above the initial armor. */
    function GetBonusArmor(): (b: real)
      reads stats`armor
      ensures initialArmor + b == stats.armor
    {
      stats.armor - initialArmor
    }

    /** `get_max_health`. */
    function GetMaxHealth(): (m: real)
      reads this`level, stats`health, stats`healthPerLevel
      ensures level == 1 ==> m == stats.health
    {
      stats.MaxHealthAt(level)
    }

    /** `get_missing_health`: how far current health is below the maximum. */
    function GetMissingHealth(): (m: real)
      reads this`level, this`currentHealth, stats`health, stats`healthPerLevel
      ensures currentHealth + m == GetMaxHealth()
    {
      GetMaxHealth() - currentHealth
    }

    function GetMagicResist(): (mr: real)
      reads this`level, stats`magicResist, stats`magicResistPerLevel
      ensures level == 1 ==> mr == stats.magicResist
    {
      StatAtLevel(stats.magicResist, stats.magicResistPerLevel, level)
    }

    /** `full_heal`: current health back to the maximum; nothing else changes. */
    method FullHeal()
      modifies this`currentHealth
      ensures currentHealth == GetMaxHealth()
      ensures GetMissingHealth() == 0.0
    {
      currentHealth := GetMaxHealth();
    }

    /** `valid_effects`: the records with `expiry >= time`, in list order; expired ones stay in the registry. */
    function ValidEffects(time: real): (v: seq<EffectData>)
      reads this`effects
      ensures forall x :: x in v <==> x in effects && x.expiry >= time
      ensures |v| <= |effects|
    {
      ValidOf(effects, time)
    }

    /** `get_vitality_data`: a fresh armor/health snapshot. */
    method VitalityData() returns (t: Target)
      ensures fresh(t)
      ensures t.Split() == Armor(GetBaseArmor(), GetBonusArmor())
      ensures t.magicResist == GetMagicResist() && t.maxHealth == GetMaxHealth()
      ensures t.currentHealth == currentHealth
    {
      t := new Target(GetBaseArmor(), GetBonusArmor(), GetMagicResist(), GetMaxHealth(), currentHealth);
    }

    /**
     * The reducer `receive_damage` uses against this champion: the attacker's own
     * (from its lethality and percent penetration at its level) combined with every
     * valid ArmorReducing record on this champion.
     */
    function IncomingReducer(attacker: Champion, time: real): (r: Reducer)
      reads this`effects, attacker`level, attacker.stats`lethality, attacker.stats`percentArmorPen
    {
      CombinedReducer(FromStats(attacker.stats, attacker.level), effects, time)
    }

    /** The health `receive_damage` takes for `damage` raw physical damage from `attacker`. */
    function IncomingDamage(attacker: Champion, damage: real, time: real): (d: real)
      reads this`effects, this`level, stats`armor, stats`armorPerLevel
      reads attacker`level, attacker.stats`lethality, attacker.stats`percentArmorPen
    {
      DamageTaken(IncomingReducer(attacker, time), Armor(GetBaseArmor(), GetBonusArmor()), damage)
    }

    /**
     * `receive_damage`: the attacker's reducer is combined with every valid
     * ArmorReducing record in list order, the result mitigates the raw damage against
     * this champion's armor, and current health goes down by the mitigated amount.
     * Nothing else changes.
     */
    method ReceiveDamage(attacker: Champion, damage: real, time: real)
      modifies this`currentHealth
      ensures currentHealth == old(currentHealth) - old(IncomingDamage(attacker, damage, time))
    {
      var armorReducer := FromStats(attacker.stats, attacker.level);
      var i := 0;
      while i < |effects|
        invariant 0 <= i <= |effects|
        invariant armorReducer == CombinedReducer(FromStats(attacker.stats, attacker.level), effects[..i], time)
      {
        assert effects[..i + 1][..i] == effects[..i];
        var effect := effects[i];
        if effect.expiry >= time && effect.result.ArmorReducing? {
          armorReducer := AddArmorReducer(armorReducer, effect.result.reducer);
        }
        i := i + 1;
      }
      assert effects[..|effects|] == effects;
      var targetData := VitalityData();
      var effectiveArmor := GetEffectiveArmor(armorReducer, targetData);
      var finalDamage := ResistDamage(damage, effectiveArmor);
      currentHealth := currentHealth - finalDamage;
    }

    /**
     * The in-place pass of `process_on_auto_effects` over `valid_effects_mut`: every
     * valid EmpowerNextAttack record goes to Cooldown, the Active ones restart their
     * expiry at `time + cd` and hand back their ability, in list order.
     */
    method ConsumeEmpowers(time: real) returns (toCast: seq<AbilityEffect>)
      requires Valid()
      modifies this`effects
      ensures Valid()
      ensures effects == Consumed(old(effects), time)
      ensures toCast == ActiveEmpowers(old(effects), time)
    {
      ghost var orig := effects;
      toCast := [];
      var i := 0;
      while i < |effects|
        invariant |effects| == |orig|
        invariant 0 <= i <= |effects|
        invariant forall j :: 0 <= j < i ==> effects[j] == ConsumeOne(orig[j], time)
        invariant forall j :: i <= j < |effects| ==> effects[j] == orig[j]
        invariant toCast == ActiveEmpowers(orig[..i], time)
      {
        assert orig[..i + 1][..i] == orig[..i];
        var effect := effects[i];
        if effect.expiry >= time && effect.result.EmpowerNextAttack? {
          if effect.result.state.Active? {
            toCast := toCast + [effect.result.state.ability];
            effect := effect.(expiry := time + effect.result.state.cd);
          }
          effect := effect.(result := EmpowerNextAttack(Cooldown));
          effects := effects[i := effect];
        }
        i := i + 1;
      }
      assert orig[..|orig|] == orig;
      ConsumedKeepsDistinct(orig, time);
    }

    /**
     * `upsert_effect`.  One step is `Upserted`: when it settles, the registry becomes
     * the settled list and nothing else in the arena changes.  When a third ThreeHit
     * application fires, the ThreeHit slot is gone and the pending effect runs: an
     * ability trigger whose attacker is gone, or a step with no fuel, leaves just the
     * remaining list; any other pending effect is upserted in turn.  Every registry in
     * the arena stays duplicate-free.
     */
    method UpsertEffect(effect: EffectData, time: real, arena: Arena, statics: StaticAbilities, fuel: nat)
      returns (r: Option<()>)
      requires AllValid(arena) && Valid() && AllResolve(arena, statics)
      modifies (arena.Values + {this})`effects, (arena.Values + {this})`currentHealth
      ensures AllValid(arena) && Valid()
      ensures var u := old(Upserted(effects, time, effect));
              r == (if u.Settled? then Some(()) else None)
      ensures var u := old(Upserted(effects, time, effect));
              u.Settled? || fuel == 0 ||
              (u.Triggered? && u.pending.result.AbilityTrigger? && u.pending.result.ability.attacker !in arena) ==>
                effects == StepList(u) && currentHealth == old(currentHealth) &&
                (forall c :: c in arena.Values && c != this ==> c.effects == old(c.effects)) &&
                (forall c :: c in arena.Values && c != this ==> c.currentHealth == old(c.currentHealth))
      ensures var u := old(Upserted(effects, time, effect));
              u.Triggered? && fuel > 0 && !u.pending.result.AbilityTrigger? &&
              Upserted(u.remaining, time, Materialize(u.pending, time)).Settled? ==>
                effects == Upserted(u.remaining, time, Materialize(u.pending, time)).list
      decreases fuel, 1
    {
      ghost var before := effects;
      UpsertPreservesDistinct(effects, time, effect);
      var otherExpiry := effect.expiry;
      var toAdd := effect;
      var index := FirstMatch(effects, effect);
      if index.Some? {
        var maybeExpired := effects[index.value];
        effects := RemoveAt(effects, index.value);
        if maybeExpired.expiry >= time {
          var bumped := BumpFoundEffect(maybeExpired, time, arena, statics, fuel);
          if bumped.None? {
            return None;
          }
          toAdd := bumped.value.(expiry := Max(bumped.value.expiry, otherExpiry));
        }
      }
      AddEffect(toAdd);
      r := Some(());
    }

    /**
     * `bump_found_effect`: a record other than a ThreeHit comes back unchanged; a
     * ThreeHit comes back with its count raised, or, on its third application, fires
     * its pending effect against this champion (executing an ability trigger, upserting
     * anything else) and comes back as `None`.
     */
    method BumpFoundEffect(found: EffectData, time: real, arena: Arena, statics: StaticAbilities, fuel: nat)
      returns (r: Option<EffectData>)
      requires AllValid(arena) && Valid() && AllResolve(arena, statics)
      modifies (arena.Values + {this})`effects, (arena.Values + {this})`currentHealth
      ensures AllValid(arena) && Valid()
      ensures BumpOf(found).Reinsert? ==>
                r == Some(BumpOf(found).effect) && effects == old(effects) && currentHealth == old(currentHealth) &&
                (forall c :: c in arena.Values ==> c.effects == old(c.effects)) &&
                (forall c :: c in arena.Values ==> c.currentHealth == old(c.currentHealth))
      ensures BumpOf(found).Fire? ==> r == None
      ensures BumpOf(found).Fire? && (fuel == 0 || (BumpOf(found).pending.result.AbilityTrigger? &&
                                                    BumpOf(found).pending.result.ability.attacker !in arena)) ==>
                effects == old(effects) && currentHealth == old(currentHealth) &&
                (forall c :: c in arena.Values ==> c.effects == old(c.effects)) &&
                (forall c :: c in arena.Values ==> c.currentHealth == old(c.currentHealth))
      ensures BumpOf(found).Fire? && fuel > 0 && !BumpOf(found).pending.result.AbilityTrigger? &&
              old(Upserted(effects, time, Materialize(BumpOf(found).pending, time))).Settled? ==>
                effects == old(Upserted(effects, time, Materialize(BumpOf(found).pending, time))).list
      decreases fuel, 0
    {
      match found.result {
        case ThreeHit(hitCount, onThirdHit) =>
          var count := hitCount + 1;
          if count >= 2 {
            if onThirdHit.result.AbilityTrigger? {
              var ability := onThirdHit.result.ability;
              if fuel > 0 {
                var _ := ExecuteAbility(ability.attacker, ability.name, this, ability.data, time, arena, statics, fuel - 1);
              }
              return None;
            } else {
              if fuel > 0 {
                var _ := UpsertEffect(Materialize(onThirdHit, time), time, arena, statics, fuel - 1);
              }
              return None;
            }
          } else {
            return Some(found.(result := ThreeHit(count, onThirdHit)));
          }
        case _ =>
          return Some(found);
      }
    }
  }

  /** The health lost to `damage` raw physical damage through `reducer` against `armor`. */
  function DamageTaken(reducer: Reducer, armor: Armor, damage: real): (d: real)
  {
    ResistDamage(damage, EffectiveArmor(reducer, armor))
  }

  /**
   * Damage always hurts and never more than doubles: positive raw damage takes a
   * positive amount of health, and less than twice the raw amount.
   */
  lemma DamageTakenBounds(reducer: Reducer, armor: Armor, damage: real)
    requires damage > 0.0
    ensures 0.0 < DamageTaken(reducer, armor, damage) < 2.0 * damage
  {
    var e := EffectiveArmor(reducer, armor);
    if e > 0.0 {
      ResistPositiveMitigates(damage, e);
    } else if e == 0.0 {
      ResistZero(damage);
    } else {
      ResistNegativeAmplifies(damage, e);
    }
  }

  /** With an all-zero reducer and non-negative armor, mitigation uses the plain armor total. */
  lemma DamageTakenWithoutReducer(armor: Armor, damage: real)
    requires armor.base >= 0.0 && armor.bonus >= 0.0
    ensures DamageTaken(NoReducer, armor, damage) == ResistDamage(damage, armor.Total())
  {
    NoReducerIsIdentity(armor);
  }

  /** Every champion's registry is duplicate-free. */
  predicate AllValid(arena: Arena)
    reads arena.Values`effects
  {
    forall h :: h in arena ==> arena[h].Valid()
  }

  /**
   * Every champion resolves every ability name, in its own table or the static one
   * (the static lookup unwraps and panics otherwise).
   */
  predicate AllResolve(arena: Arena, statics: StaticAbilities)
  {
    forall h, n :: h in arena ==> n in arena[h].abilities || n in statics
  }

  /** The behaviour lookup: the champion's own table first, then the static table. */
  function Lookup(c: Champion, statics: StaticAbilities, name: AbilityName): (b: Behaviour)
    requires name in c.abilities || name in statics
    ensures name in c.abilities ==> b == c.abilities[name]
    ensures name !in c.abilities ==> b == statics[name]
  {
    if name in c.abilities then c.abilities[name] else statics[name]
  }


  /**
   * Whether executing `a` only damages the target: its attacker resolves, the name is
   * neither AUTO nor Q/W/E/R (so no on-hit item and no empower is involved), and its
   * behaviour deals damage.
   */
  predicate PlainDamage(a: AbilityEffect, arena: Arena, statics: StaticAbilities)
  {
    a.attacker in arena && a.name != AUTO && !IsSpell(a.name) &&
    (a.name in arena[a.attacker].abilities || a.name in statics) &&
    Lookup(arena[a.attacker], statics, a.name).DealDamage?
  }

  /** The sum of a sequence of health losses. */
  function Sum(xs: seq<real>): real
    decreases |xs|
  {
    if xs == [] then 0.0 else Sum(xs[..|xs| - 1]) + xs[|xs| - 1]
  }

  lemma SumSnoc(xs: seq<real>, x: real)
    ensures Sum(xs + [x]) == Sum(xs) + x
  {
    assert (xs + [x])[..|xs|] == xs;
  }

  /** `n` zero losses: what a step that executes nothing takes. */
  function Zeros(n: nat): (z: seq<real>)
    ensures |z| == n && Sum(z) == 0.0
  {
    if n == 0 then [] else
      var z := Zeros(n - 1) + [0.0];
      assert z[..n - 1] == Zeros(n - 1);
      z
  }

  /**
   * The attacker's registry after the item step of `execute_ability` when no fired
   * effect runs any further: AUTO upserts the Auto-mode on-hit records and then
   * consumes the empowers, Q/W/E/R upsert the ActiveSpell-mode records, and any other
   * name leaves it alone.
   */
  function RegistryAfterItems(c: Champion, handle: Handle, name: AbilityName, time: real): seq<EffectData>
    reads c`effects, c`onHitItemEffects
  {
    if name == AUTO then
      Consumed(UpsertAll(c.effects, OnHitEffects(c.onHitItemEffects, Auto, handle, time), time), time)
    else if IsSpell(name) then
      UpsertAll(c.effects, OnHitEffects(c.onHitItemEffects, ActiveSpell, handle, time), time)
    else
      c.effects
  }

  /** The abilities AUTO's empowers collect once the Auto-mode on-hit records are upserted. */
  function AutoCasts(c: Champion, handle: Handle, time: real): seq<AbilityEffect>
    reads c`effects, c`onHitItemEffects
  {
    ActiveEmpowers(UpsertAll(c.effects, OnHitEffects(c.onHitItemEffects, Auto, handle, time), time), time)
  }

  /**
   * Whether the item step of `execute_ability` runs nothing beyond its own upserts and
   * damage: every on-hit upsert settles and, for AUTO, every collected empower is a
   * plain damage ability.
   */
  predicate ItemsSettle(c: Champion, handle: Handle, name: AbilityName, time: real,
                        arena: Arena, statics: StaticAbilities)
    reads c`effects, c`onHitItemEffects
  {
    if name == AUTO then
      SettlesAll(c.effects, OnHitEffects(c.onHitItemEffects, Auto, handle, time), time) &&
      forall j :: 0 <= j < |AutoCasts(c, handle, time)| ==> PlainDamage(AutoCasts(c, handle, time)[j], arena, statics)
    else if IsSpell(name) then
      SettlesAll(c.effects, OnHitEffects(c.onHitItemEffects, ActiveSpell, handle, time), time)
    else
      true
  }

  /**
   * `execute_ability`.  A dangling attacker handle yields `None` and changes nothing;
   * otherwise the result is the target's health before minus after.  AUTO first pulls
   * the attacker's Auto-mode on-hit items into its registry and consumes its empowers;
   * Q/W/E/R pull the ActiveSpell-mode items; then the looked-up behaviour runs.
   * With no fuel left for nested effects, the attacker's registry ends as
   * `RegistryAfterItems`, and the target takes exactly the mitigated damage of a damage
   * behaviour, or is marked by one upsert step.  For names other than AUTO and Q/W/E/R
   * a damage behaviour takes exactly the mitigated damage and nothing else changes.
   */
  method ExecuteAbility(attackerRef: Handle, name: AbilityName, target: Champion, data: CastingData,
                        time: real, arena: Arena, statics: StaticAbilities, fuel: nat)
    returns (r: Option<real>)
    requires AllValid(arena) && target.Valid() && AllResolve(arena, statics)
    modifies (arena.Values + {target})`effects, (arena.Values + {target})`currentHealth
    ensures AllValid(arena) && target.Valid()
    ensures r.None? <==> attackerRef !in arena
    ensures r.None? ==> target.effects == old(target.effects) && target.currentHealth == old(target.currentHealth) &&
                        (forall c :: c in arena.Values ==> c.effects == old(c.effects)) &&
                        (forall c :: c in arena.Values ==> c.currentHealth == old(c.currentHealth))
    ensures r.Some? ==> r.value == old(target.currentHealth) - target.currentHealth
    ensures attackerRef in arena && name != AUTO && !IsSpell(name) &&
            Lookup(arena[attackerRef], statics, name).DealDamage? ==>
              r == Some(old(target.IncomingDamage(arena[attackerRef], Lookup(arena[attackerRef], statics, name).amount(data), time))) &&
              target.effects == old(target.effects) &&
              (forall c :: c in arena.Values ==> c.effects == old(c.effects)) &&
              (forall c :: c in arena.Values && c != target ==> c.currentHealth == old(c.currentHealth))
    ensures attackerRef in arena && name != AUTO && !IsSpell(name) &&
            Lookup(arena[attackerRef], statics, name).MarkTarget? &&
            old(Upserted(target.effects, time, Materialize(Lookup(arena[attackerRef], statics, name).mark, time))).Settled? ==>
              r == Some(0.0) &&
              target.effects == old(Upserted(target.effects, time, Materialize(Lookup(arena[attackerRef], statics, name).mark, time))).list
    ensures attackerRef in arena && target != arena[attackerRef] && fuel == 0 ==>
              arena[attackerRef].effects == old(RegistryAfterItems(arena[attackerRef], attackerRef, name, time)) &&
              arena[attackerRef].currentHealth == old(arena[attackerRef].currentHealth) &&
              (forall c :: c in arena.Values && c != arena[attackerRef] && c != target ==> c.effects == old(c.effects)) &&
              (forall c :: c in arena.Values && c != arena[attackerRef] && c != target ==> c.currentHealth == old(c.currentHealth)) &&
              match Lookup(arena[attackerRef], statics, name)
              case DealDamage(amount) =>
                target.effects == old(target.effects) &&
                r == Some(old(target.IncomingDamage(arena[attackerRef], amount(data), time)))
              case MarkTarget(mark) =>
                r == Some(0.0) && target.effects == StepList(old(Upserted(target.effects, time, Materialize(mark, time))))
    ensures attackerRef in arena && target != arena[attackerRef] && fuel > 0 &&
            old(ItemsSettle(arena[attackerRef], attackerRef, name, time, arena, statics)) &&
            Lookup(arena[attackerRef], statics, name).DealDamage? ==>
              arena[attackerRef].effects == old(RegistryAfterItems(arena[attackerRef], attackerRef, name, time)) &&
              arena[attackerRef].currentHealth == old(arena[attackerRef].currentHealth) &&
              target.effects == old(target.effects) &&
              (forall c :: c in arena.Values && c != arena[attackerRef] && c != target ==> c.effects == old(c.effects)) &&
              (forall c :: c in arena.Values && c != arena[attackerRef] && c != target ==> c.currentHealth == old(c.currentHealth)) &&
              (name != AUTO ==>
                 r == Some(old(target.IncomingDamage(arena[attackerRef], Lookup(arena[attackerRef], statics, name).amount(data), time))))
    decreases fuel, 4
  {
    var initialHealth := target.currentHealth;
    if attackerRef !in arena {
      return None;
    }
    var attacker := arena[attackerRef];
    assert attacker in arena.Values;
    ghost var cast, losses := ApplyItems(attackerRef, name, target, time, arena, statics, fuel);
    var behaviour := Lookup(attacker, statics, name);
    match behaviour {
      case DealDamage(amount) =>
        target.ReceiveDamage(attacker, amount(data), time);
      case MarkTarget(mark) =>
        var _ := target.UpsertEffect(Materialize(mark, time), time, arena, statics, fuel);
    }
    r := Some(initialHealth - target.currentHealth);
  }

  /**
   * The item step at the head of `execute_ability`: AUTO runs the attacker's Auto-mode
   * on-hit items and then its empowers, Q/W/E/R run its ActiveSpell-mode items, any
   * other name does nothing.  For a target other than the attacker, the attacker's
   * registry becomes `RegistryAfterItems` and no other registry changes whenever no
   * fired effect runs further: with no fuel for nested effects, or when `ItemsSettle`
   * holds.  In the latter case AUTO executes `cast`, the empowered abilities, and the
   * target loses exactly the sum of their mitigated damage; with no fuel they are
   * dropped and the target is untouched.
   */
  method ApplyItems(attackerRef: Handle, name: AbilityName, target: Champion,
                    time: real, arena: Arena, statics: StaticAbilities, fuel: nat)
    returns (ghost cast: seq<AbilityEffect>, ghost losses: seq<real>)
    requires attackerRef in arena
    requires AllValid(arena) && target.Valid() && AllResolve(arena, statics)
    modifies (arena.Values + {target})`effects, (arena.Values + {target})`currentHealth
    ensures AllValid(arena) && target.Valid()
    ensures name != AUTO && !IsSpell(name) ==>
              target.effects == old(target.effects) && target.currentHealth == old(target.currentHealth) &&
              (forall c :: c in arena.Values ==> c.effects == old(c.effects)) &&
              (forall c :: c in arena.Values ==> c.currentHealth == old(c.currentHealth))
    ensures target != arena[attackerRef] && fuel == 0 ==>
              arena[attackerRef].effects == old(RegistryAfterItems(arena[attackerRef], attackerRef, name, time)) &&
              arena[attackerRef].currentHealth == old(arena[attackerRef].currentHealth) &&
              target.effects == old(target.effects) && target.currentHealth == old(target.currentHealth) &&
              (forall c :: c in arena.Values && c != arena[attackerRef] ==> c.effects == old(c.effects)) &&
              (forall c :: c in arena.Values && c != arena[attackerRef] ==> c.currentHealth == old(c.currentHealth))
    ensures target != arena[attackerRef] && fuel > 0 &&
            old(ItemsSettle(arena[attackerRef], attackerRef, name, time, arena, statics)) ==>
              arena[attackerRef].effects == old(RegistryAfterItems(arena[attackerRef], attackerRef, name, time)) &&
              arena[attackerRef].currentHealth == old(arena[attackerRef].currentHealth) &&
              target.effects == old(target.effects) &&
              (name != AUTO ==> target.currentHealth == old(target.currentHealth)) &&
              (forall c :: c in arena.Values && c != arena[attackerRef] && c != target ==> c.effects == old(c.effects)) &&
              (forall c :: c in arena.Values && c != arena[attackerRef] && c != target ==> c.currentHealth == old(c.currentHealth))
    ensures target != arena[attackerRef] && fuel > 0 && name == AUTO &&
            old(ItemsSettle(arena[attackerRef], attackerRef, name, time, arena, statics)) ==>
              cast == old(AutoCasts(arena[attackerRef], attackerRef, time)) &&
              |losses| == |cast| && old(target.currentHealth) - target.currentHealth == Sum(losses) &&
              forall j :: 0 <= j < |cast| ==> losses[j] == PlainLoss(target, cast[j], arena, statics, time)
    decreases fuel, 3
  {
    cast, losses := [], [];
    var attacker := arena[attackerRef];
    assert attacker in arena.Values;
    if name == AUTO {
      ghost var settles := fuel > 0 && target != attacker && ItemsSettle(attacker, attackerRef, name, time, arena, statics);
      ghost var expected := AutoCasts(attacker, attackerRef, time);
      ghost var final := RegistryAfterItems(attacker, attackerRef, name, time);
      var onAutoEffects := OnHitEffects(attacker.onHitItemEffects, Auto, attackerRef, time);
      var _ := ProcessOnHitEffects(attackerRef, onAutoEffects, time, arena, statics, fuel);
      if settles {
        assert attacker.effects == UpsertAll(old(attacker.effects), onAutoEffects, time);
        assert ActiveEmpowers(attacker.effects, time) == expected;
      }
      var done;
      done, cast, losses := ProcessOnAutoEffects(attackerRef, target, time, arena, statics, fuel);
      if settles {
        assert attacker.effects == final;
      }
    } else if IsSpell(name) {
      var onSpellEffects := OnHitEffects(attacker.onHitItemEffects, ActiveSpell, attackerRef, time);
      var _ := ProcessOnHitEffects(attackerRef, onSpellEffects, time, arena, statics, fuel);
    }
  }

  /**
   * `process_on_hit_effects`: upserts each record into the attacker's registry, in
   * order; a dangling attacker yields `None` and changes nothing.  When no fired effect
   * runs any further (no fuel, or every step settles), the attacker's registry becomes
   * `UpsertAll` of the records and nothing else changes.
   */
  method ProcessOnHitEffects(attackerRef: Handle, onHitEffects: seq<EffectData>, time: real,
                             arena: Arena, statics: StaticAbilities, fuel: nat)
    returns (r: Option<()>)
    requires AllValid(arena) && AllResolve(arena, statics)
    modifies arena.Values`effects, arena.Values`currentHealth
    ensures AllValid(arena)
    ensures r.None? <==> attackerRef !in arena
    ensures r.None? ==>
              (forall c :: c in arena.Values ==> c.effects == old(c.effects)) &&
              (forall c :: c in arena.Values ==> c.currentHealth == old(c.currentHealth))
    ensures attackerRef in arena && (fuel == 0 || SettlesAll(old(arena[attackerRef].effects), onHitEffects, time)) ==>
              arena[attackerRef].effects == UpsertAll(old(arena[attackerRef].effects), onHitEffects, time) &&
              arena[attackerRef].currentHealth == old(arena[attackerRef].currentHealth) &&
              (forall c :: c in arena.Values && c != arena[attackerRef] ==> c.effects == old(c.effects)) &&
              (forall c :: c in arena.Values && c != arena[attackerRef] ==> c.currentHealth == old(c.currentHealth))
    decreases fuel, 2
  {
    if attackerRef !in arena {
      return None;
    }
    var attacker := arena[attackerRef];
    assert attacker in arena.Values;
    ghost var orig := attacker.effects;
    ghost var expected := orig;
    ghost var quiet := true;
    ghost var done := [];
    var i := 0;
    while i < |onHitEffects|
      invariant 0 <= i <= |onHitEffects|
      invariant |done| == i && forall k :: 0 <= k < i ==> done[k] == onHitEffects[k]
      invariant AllValid(arena)
      invariant expected == UpsertAll(orig, done, time)
      invariant fuel == 0 || SettlesAll(orig, done, time) ==> quiet
      invariant quiet ==> attacker.effects == expected
      invariant quiet ==> attacker.currentHealth == old(attacker.currentHealth)
      invariant quiet ==> forall c :: c in arena.Values && c != attacker ==> c.effects == old(c.effects)
      invariant quiet ==> forall c :: c in arena.Values && c != attacker ==> c.currentHealth == old(c.currentHealth)
    {
      ghost var step := Upserted(expected, time, onHitEffects[i]);
      UpsertAllSnoc(orig, done, onHitEffects[i], time);
      var _ := attacker.UpsertEffect(onHitEffects[i], time, arena, statics, fuel);
      expected := StepList(step);
      quiet := quiet && (fuel == 0 || step.Settled?);
      done := done + [onHitEffects[i]];
      i := i + 1;
    }
    assert done == onHitEffects;
    return Some(());
  }

  /** The health the ability `a` takes from `target` when it is plain damage. */
  function PlainLoss(target: Champion, a: AbilityEffect, arena: Arena, statics: StaticAbilities, time: real): real
    requires PlainDamage(a, arena, statics)
    reads target`effects, target`level, target.stats`armor, target.stats`armorPerLevel
    reads {arena[a.attacker]}`level, {arena[a.attacker].stats}`lethality, {arena[a.attacker].stats}`percentArmorPen
  {
    target.IncomingDamage(arena[a.attacker], Lookup(arena[a.attacker], statics, a.name).amount(a.data), time)
  }

  /**
   * `process_on_auto_effects`: consumes the attacker's empowers (`cast` is what the
   * consumption collects), then executes each collected ability against the target,
   * one fuel level deeper; `losses` holds the health each execution takes.  With no
   * fuel the collected abilities are dropped: the attacker's registry becomes
   * `Consumed` and nothing else changes.  When every collected ability is plain damage
   * against a target other than the attacker, each loss is that ability's mitigated
   * damage and no registry but the attacker's changes.
   */
  method ProcessOnAutoEffects(attackerRef: Handle, target: Champion, time: real,
                              arena: Arena, statics: StaticAbilities, fuel: nat)
    returns (r: Option<()>, ghost cast: seq<AbilityEffect>, ghost losses: seq<real>)
    requires AllValid(arena) && target.Valid() && AllResolve(arena, statics)
    modifies (arena.Values + {target})`effects, (arena.Values + {target})`currentHealth
    ensures AllValid(arena) && target.Valid()
    ensures r.None? <==> attackerRef !in arena
    ensures r.None? ==> target.effects == old(target.effects) && target.currentHealth == old(target.currentHealth) &&
                        (forall c :: c in arena.Values ==> c.effects == old(c.effects)) &&
                        (forall c :: c in arena.Values ==> c.currentHealth == old(c.currentHealth))
    ensures attackerRef in arena ==> cast == ActiveEmpowers(old(arena[attackerRef].effects), time)
    ensures |losses| == |cast| && old(target.currentHealth) - target.currentHealth == Sum(losses)
    ensures attackerRef in arena && fuel == 0 ==>
              arena[attackerRef].effects == Consumed(old(arena[attackerRef].effects), time) &&
              arena[attackerRef].currentHealth == old(arena[attackerRef].currentHealth) &&
              target.currentHealth == old(target.currentHealth) &&
              (target != arena[attackerRef] ==> target.effects == old(target.effects)) &&
              (forall c :: c in arena.Values && c != arena[attackerRef] ==> c.effects == old(c.effects)) &&
              (forall c :: c in arena.Values && c != arena[attackerRef] ==> c.currentHealth == old(c.currentHealth))
    ensures attackerRef in arena && fuel > 0 && target != arena[attackerRef] &&
            (forall j :: 0 <= j < |cast| ==> PlainDamage(cast[j], arena, statics)) ==>
              arena[attackerRef].effects == Consumed(old(arena[attackerRef].effects), time) &&
              arena[attackerRef].currentHealth == old(arena[attackerRef].currentHealth) &&
              target.effects == old(target.effects) &&
              (forall c :: c in arena.Values && c != arena[attackerRef] && c != target ==> c.effects == old(c.effects)) &&
              (forall c :: c in arena.Values && c != arena[attackerRef] && c != target ==> c.currentHealth == old(c.currentHealth)) &&
              forall j :: 0 <= j < |cast| ==> losses[j] == PlainLoss(target, cast[j], arena, statics, time)
    decreases fuel, 2
  {
    if attackerRef !in arena {
      return None, [], [];
    }
    var attacker := arena[attackerRef];
    assert attacker in arena.Values;
    var toCast := attacker.ConsumeEmpowers(time);
    cast := toCast;
    if fuel > 0 {
      losses := CastFollowUps(toCast, target, time, arena, statics, fuel - 1);
    } else {
      losses := Zeros(|toCast|);
    }
    return Some(()), cast, losses;
  }

  /**
   * The loop of `process_on_auto_effects` over the collected abilities: each is
   * executed against the target with `fuel` left for its own nested effects, and
   * `losses` holds the health each execution takes.  When every ability is plain
   * damage, each loss is that ability's mitigated damage and no registry and no other
   * health changes.
   */
  method CastFollowUps(toCast: seq<AbilityEffect>, target: Champion, time: real,
                       arena: Arena, statics: StaticAbilities, fuel: nat)
    returns (ghost losses: seq<real>)
    requires AllValid(arena) && target.Valid() && AllResolve(arena, statics)
    modifies (arena.Values + {target})`effects, (arena.Values + {target})`currentHealth
    ensures AllValid(arena) && target.Valid()
    ensures |losses| == |toCast| && old(target.currentHealth) - target.currentHealth == Sum(losses)
    ensures (forall j :: 0 <= j < |toCast| ==> PlainDamage(toCast[j], arena, statics)) ==>
              target.effects == old(target.effects) &&
              (forall c :: c in arena.Values ==> c.effects == old(c.effects)) &&
              (forall c :: c in arena.Values && c != target ==> c.currentHealth == old(c.currentHealth)) &&
              forall j :: 0 <= j < |toCast| ==> losses[j] == PlainLoss(target, toCast[j], arena, statics, time)
    decreases fuel, 5
  {
    ghost var plain := forall j :: 0 <= j < |toCast| ==> PlainDamage(toCast[j], arena, statics);
    losses := [];
    var i := 0;
    while i < |toCast|
      invariant 0 <= i <= |toCast|
      invariant AllValid(arena) && target.Valid()
      invariant |losses| == i
      invariant old(target.currentHealth) - target.currentHealth == Sum(losses)
      invariant plain ==> target.effects == old(target.effects)
      invariant plain ==> forall c :: c in arena.Values ==> c.effects == old(c.effects)
      invariant plain ==> forall c :: c in arena.Values && c != target ==> c.currentHealth == old(c.currentHealth)
      invariant plain ==> forall j :: 0 <= j < i ==> losses[j] == old(PlainLoss(target, toCast[j], arena, statics, time))
    {
      var a := toCast[i];
      ghost var expected := if plain then PlainLoss(target, a, arena, statics, time) else 0.0;
      assert plain ==> expected == old(PlainLoss(target, a, arena, statics, time));
      var r := ExecuteAbility(a.attacker, a.name, target, a.data, time, arena, statics, fuel);
      ghost var loss := if r.Some? then r.value else 0.0;
      assert plain ==> loss == expected;
      SumSnoc(losses, loss);
      ghost var prev := losses;
      losses := losses + [loss];
      if plain {
        forall j | 0 <= j < i + 1
          ensures losses[j] == old(PlainLoss(target, toCast[j], arena, statics, time))
        {
          if j < i {
            assert losses[j] == prev[j];
          }
        }
      }
      i := i + 1;
    }
    if plain {
      forall j | 0 <= j < |toCast|
        ensures PlainLoss(target, toCast[j], arena, statics, time) == old(PlainLoss(target, toCast[j], arena, statics, time))
      {}
    }
  }

  /**
   * Whether every step of `combo` is plain damage for `attacker`: no AUTO, no Q/W/E/R,
   * and a damage behaviour.
   */
  predicate PlainCombo(attacker: Champion, combo: seq<(AbilityName, CastingData)>, statics: StaticAbilities)
  {
    forall j :: 0 <= j < |combo| ==>
      combo[j].0 != AUTO && !IsSpell(combo[j].0) &&
      (combo[j].0 in attacker.abilities || combo[j].0 in statics) &&
      Lookup(attacker, statics, combo[j].0).DealDamage?
  }

  /**
   * `execute_combo`: executes each (name, casting data) pair in order against the
   * target.  The attacker is held strongly, so its handle resolves.  `losses` holds
   * each step's health loss, and the target's total loss is their sum; for a combo of
   * plain damage steps each loss is that step's mitigated damage and no registry
   * changes.
   */
  method ExecuteCombo(attackerRef: Handle, combo: seq<(AbilityName, CastingData)>, target: Champion,
                      time: real, arena: Arena, statics: StaticAbilities, fuel: nat)
    returns (ghost losses: seq<real>)
    requires attackerRef in arena
    requires AllValid(arena) && target.Valid() && AllResolve(arena, statics)
    modifies (arena.Values + {target})`effects, (arena.Values + {target})`currentHealth
    ensures AllValid(arena) && target.Valid()
    ensures |losses| == |combo|
    ensures old(target.currentHealth) - target.currentHealth == Sum(losses)
    ensures PlainCombo(arena[attackerRef], combo, statics) ==>
              target.effects == old(target.effects) &&
              (forall c :: c in arena.Values ==> c.effects == old(c.effects)) &&
              (forall c :: c in arena.Values && c != target ==> c.currentHealth == old(c.currentHealth)) &&
              forall j :: 0 <= j < |combo| ==>
                losses[j] == old(target.IncomingDamage(arena[attackerRef],
                                                       Lookup(arena[attackerRef], statics, combo[j].0).amount(combo[j].1), time))
  {
    ghost var plain := PlainCombo(arena[attackerRef], combo, statics);
    losses := [];
    var i := 0;
    while i < |combo|
      invariant 0 <= i <= |combo|
      invariant AllValid(arena) && target.Valid()
      invariant |losses| == i
      invariant old(target.currentHealth) - target.currentHealth == Sum(losses)
      invariant plain ==> target.effects == old(target.effects)
      invariant plain ==> forall c :: c in arena.Values ==> c.effects == old(c.effects)
      invariant plain ==> forall c :: c in arena.Values && c != target ==> c.currentHealth == old(c.currentHealth)
      invariant plain ==>
                  forall j :: 0 <= j < i ==>
                    losses[j] == old(target.IncomingDamage(arena[attackerRef],
                                                           Lookup(arena[attackerRef], statics, combo[j].0).amount(combo[j].1), time))
    {
      var (name, data) := combo[i];
      var r := ExecuteAbility(attackerRef, name, target, data, time, arena, statics, fuel);
      SumSnoc(losses, r.value);
      losses := losses + [r.value];
      i := i + 1;
    }
  }
}
