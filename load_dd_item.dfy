/**
 * Data-dragon items (src/load_dd_item.rs): applying an item's stat deltas, the
 * purchasable-and-enabled filter of `load_items`, and `name_to_id_map`, all over an
 * abstract sequence of item records in the order the item table iterates them.
 */
module DDItems {
  import opened Wrappers
  import opened Stats

  /** The map id that stands for Summoner's Rift. */
  const SummonersRiftMapId: string := "11"

  datatype DDItemStatDeltas = DDItemStatDeltas(
    armor: Option<real>, critChance: Option<real>, health: Option<real>,
    healthRegen: Option<real>, abilityPower: Option<real>, flatMovementSpeed: Option<real>,
    mana: Option<real>, attackDamage: Option<real>, magicResist: Option<real>,
    bonusAttackSpeed: Option<real>, lifeSteal: Option<real>, percentMovementSpeed: Option<real>)

  const NoDDDeltas: DDItemStatDeltas :=
    DDItemStatDeltas(None, None, None, None, None, None, None, None, None, None, None, None)

  /**
   * What `modify_champion_stats` adds: each listed delta or 0; the attack damage delta
   * goes to the bonus attack damage.  Crit chance and ability power are not read.
   */
  function DDVector(d: DDItemStatDeltas): StatVector
  {
    StatVector(OrZero(d.armor), OrZero(d.magicResist), OrZero(d.healthRegen), OrZero(d.health),
               OrZero(d.mana), OrZero(d.attackDamage), OrZero(d.bonusAttackSpeed),
               OrZero(d.lifeSteal), OrZero(d.percentMovementSpeed), OrZero(d.flatMovementSpeed))
  }

  /** `DDItemStatDeltas::modify_champion_stats`: in-place addition of the ten listed deltas. */
  method ModifyChampionStats(d: DDItemStatDeltas, stats: ChampionStats)
    modifies stats`armor, stats`magicResist, stats`healthRegen, stats`health, stats`mana,
             stats`bonusAttackDamage, stats`bonusAttackSpeed, stats`lifeSteal,
             stats`percentMovementSpeed, stats`moveSpeed
    ensures stats.Additive() == Plus(old(stats.Additive()), DDVector(d))
  {
    stats.armor := stats.armor + OrZero(d.armor);
    stats.magicResist := stats.magicResist + OrZero(d.magicResist);
    stats.healthRegen := stats.healthRegen + OrZero(d.healthRegen);
    stats.health := stats.health + OrZero(d.health);
    stats.mana := stats.mana + OrZero(d.mana);
    stats.bonusAttackDamage := stats.bonusAttackDamage + OrZero(d.attackDamage);
    stats.bonusAttackSpeed := stats.bonusAttackSpeed + OrZero(d.bonusAttackSpeed);
    stats.lifeSteal := stats.lifeSteal + OrZero(d.lifeSteal);
    stats.percentMovementSpeed := stats.percentMovementSpeed + OrZero(d.percentMovementSpeed);
    stats.moveSpeed := stats.moveSpeed + OrZero(d.flatMovementSpeed);
  }

  /** Crit chance and ability power deltas are parsed but never applied. */
  lemma CritAndAbilityPowerIgnored(d: DDItemStatDeltas, crit: Option<real>, ap: Option<real>)
    ensures DDVector(d.(critChance := crit, abilityPower := ap)) == DDVector(d)
  {
  }

  /** All-absent deltas leave the statistics unchanged. */
  lemma NoDDDeltasChangeNothing(s: StatVector)
    ensures DDVector(NoDDDeltas) == ZeroVector
    ensures Plus(s, DDVector(NoDDDeltas)) == s
  {
  }

  /** One entry of the item table: its key (the item id), its name, and the two flags the filter reads. */
  datatype ItemEntry = ItemEntry(
    key: string, name: string, purchasable: bool, maps: map<string, bool>, stats: DDItemStatDeltas)

  /** Every entry carries the flags the filter unwraps (the source panics otherwise). */
  ghost predicate WellFormed(items: seq<ItemEntry>)
  {
    forall i :: 0 <= i < |items| ==> SummonersRiftMapId in items[i].maps
  }

  /** The `retain` predicate of `load_items`. */
  predicate Retained(e: ItemEntry)
    requires SummonersRiftMapId in e.maps
  {
    e.purchasable && e.maps[SummonersRiftMapId]
  }

  /** The retained entries, in table order. */
  function Filtered(items: seq<ItemEntry>): (kept: seq<ItemEntry>)
    requires WellFormed(items)
    ensures |kept| <= |items|
    ensures forall e :: e in kept ==> e in items && Retained(e)
    ensures forall e :: e in items && Retained(e) ==> e in kept
  {
    if items == [] then []
    else
      var init := items[..|items| - 1];
      var last := items[|items| - 1];
      assert items == init + [last];
      Filtered(init) + (if Retained(last) then [last] else [])
  }

  /** `load_items`: keeps exactly the purchasable entries enabled on Summoner's Rift, in order. */
  method LoadItems(all: seq<ItemEntry>) returns (kept: seq<ItemEntry>)
    requires WellFormed(all)
    ensures kept == Filtered(all)
    ensures forall e :: e in kept <==> e in all && Retained(e)
  {
    kept := [];
    var i := 0;
    while i < |all|
      invariant 0 <= i <= |all|
      invariant kept == Filtered(all[..i])
    {
      assert all[..i + 1][..i] == all[..i];
      if all[i].purchasable && all[i].maps[SummonersRiftMapId] {
        kept := kept + [all[i]];
      }
      i := i + 1;
    }
    assert all[..|all|] == all;
  }

  /**
   * `name_to_id_map`: over the retained entries, each name maps to the key of the first
   * entry carrying it (`or_insert` keeps the first), and every retained name is present.
   */
  method NameToIdMap(all: seq<ItemEntry>) returns (m: map<string, string>)
    requires WellFormed(all)
    ensures forall e :: e in all && Retained(e) ==> e.name in m
    ensures forall n :: n in m ==> FirstWithName(Filtered(all), n, m[n])
  {
    var items := LoadItems(all);
    m := map[];
    var i := 0;
    while i < |items|
      invariant 0 <= i <= |items|
      invariant forall j :: 0 <= j < i ==> items[j].name in m
      invariant forall n :: n in m ==> FirstWithName(items[..i], n, m[n])
    {
      var name := items[i].name;
      if name !in m {
        m := m[name := items[i].key];
      }
      assert items[..i + 1] == items[..i] + [items[i]];
      forall n | n in m
        ensures FirstWithName(items[..i + 1], n, m[n])
      {
        FirstWithNameExtends(items[..i], items[i], n, m[n]);
      }
      i := i + 1;
    }
    assert items[..|items|] == items;
  }

  /** Some entry carries `name` and `key`, and no earlier entry carries `name`. */
  ghost predicate FirstWithName(items: seq<ItemEntry>, name: string, key: string)
  {
    exists i :: 0 <= i < |items| && items[i].name == name && items[i].key == key &&
      forall j :: 0 <= j < i ==> items[j].name != name
  }

  lemma FirstWithNameExtends(items: seq<ItemEntry>, e: ItemEntry, name: string, key: string)
    requires FirstWithName(items, name, key) || (e.name == name && e.key == key && forall j :: 0 <= j < |items| ==> items[j].name != name)
    ensures FirstWithName(items + [e], name, key)
  {
    if FirstWithName(items, name, key) {
      var i :| 0 <= i < |items| && items[i].name == name && items[i].key == key &&
        forall j :: 0 <= j < i ==> items[j].name != name;
      assert (items + [e])[i] == items[i];
    } else {
      assert (items + [e])[|items|] == e;
    }
  }
}
