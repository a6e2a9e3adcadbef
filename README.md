# practice-tooled combat core in Dafny

A model of the combat core of *practice-tooled*, a League of Legends damage
calculator. The model covers:

- the resist and lethality formulas (`src/core.rs`);
- the armor-reduction pipeline: flat reduction split between base and bonus
  armor, percent reduction, percent and flat penetration, and the floor at 0
  (`src/armor_reducer.rs`, and the older copy in `src/attack.rs`);
- basic-attack damage, critical-strike expectation and DPS (`src/attack.rs`);
- champion statistics and the stat deltas that items apply to them
  (`src/load_champion.rs`, `src/load_wiki_item.rs`, `src/load_dd_item.rs`),
  including the Summoner's Rift item filter and the name-to-id map;
- the per-champion effect registry (`src/champions/champion.rs`):
  - upsert with the three-hit counter;
  - empowered next attacks and their cooldowns;
  - on-hit item effects;
  - ability dispatch through the champion's own table and then the static table;
  - damage reception with the combined armor reducer;
- Vi's Q (`src/champions/vi.rs`);
- the target dummy (`src/champions/target_dummy.rs`);
- the item-effect classifier (`src/item_effects.rs`).

Modelling choices:

- `f64` is `real`. The game clock is an explicit `time` parameter. An effect is
  valid while `expiry >= time`.
- Champions are shared through `Rc<RefCell<_>>` and `Weak`. Here they live in an
  arena, `map<Handle, Champion>`. A handle missing from the arena stands for a
  `Weak` whose `upgrade()` fails.
- Several steps call each other recursively. Executing an ability may upsert an
  effect. Upserting may bump a three-hit counter. The counter may fire another
  ability or effect. Every nested step takes one unit of an explicit `fuel`
  bound.
- Objects the source updates in place are classes with `modifies` frames:
  `Champion`, `ChampionStats`, `TargetDummy` and the two `Target` structs.
  Values copied around are datatypes: reducers, effects and casting data.

## Model

| member | source | states |
|---|---|---|
| CombatMath.ResistDamage | src/core.rs:1-8 | for positive resist the result times (100 + resist) is the raw damage times 100; otherwise the result times (100 − resist) is the raw damage times (100 − 2·resist) |
| CombatMath.ResistZero | src/core.rs:7 | zero resist leaves the damage unchanged |
| CombatMath.ResistPositiveMitigates | src/core.rs:3-5 | positive resist and positive damage give a result strictly between 0 and the raw damage |
| CombatMath.ResistNegativeAmplifies | src/core.rs:7 | negative resist and positive damage give a result strictly between the raw damage and twice the raw damage |
| CombatMath.ResistNearZero | src/core.rs:1-8 | for non-negative raw damage, positive resist removes at most raw·resist/100 and non-positive resist adds at most raw·(−resist)/100, so both branches approach the raw damage as resist approaches 0 |
| CombatMath.ResistLinear | src/core.rs:1-8 | damage after resist is linear in the raw damage |
| CombatMath.ResistAntitone | src/core.rs:1-8 | for non-negative raw damage, more resist never yields more damage |
| CombatMath.AntitonePositive | src/core.rs:3-5 | the positive-resist branch is antitone in resist |
| CombatMath.AntitoneNonPositive | src/core.rs:7 | the non-positive-resist branch is antitone in resist |
| CombatMath.ResistExamples | src/core.rs:20-22 | the unit-test values: 1532 damage at 0 resist stays 1532, 1000 at 25 gives 800, and 1000 at −100 gives 1500 |
| CombatMath.LethalityExamples | src/core.rs:27-28 | the unit-test values of the lethality conversion |
| CombatMath.LethalityFullAtEighteen | src/core.rs:10-12 | at level 18 lethality converts one-to-one into flat penetration |
| CombatMath.LethalityBounds | src/core.rs:10-12 | for levels 1 to 18 and non-negative lethality, penetration lies between 60% and 100% of lethality |
| CombatMath.LethalityMonotone | src/core.rs:10-12 | penetration from non-negative lethality never decreases with level |
| CombatMath.LethalityToPen | src/core.rs:10-12 | penetration is 0 iff lethality is 0, and at level 18 it equals the lethality |
| CombatMath.StatAtLevel | src/champions/champion.rs:279 | at level 1, or with zero growth, the stat is its base value |
| CombatMath.StackMultiplicativeReduction | src/load_wiki_item.rs:94-97 | stacking with 0 on either side returns the other percentage |
| ArmorReduction.EffectiveArmor | src/armor_reducer.rs:33-50 | negative armor after penetration passes through unchanged; otherwise the result is the penetrated value minus flat penetration, floored at 0 |
| ArmorReduction.SetFromLethality | src/armor_reducer.rs:52-54 | only the flat armor penetration changes, to the lethality conversion at the given level |
| ArmorReduction.Target.constructor | src/target.rs:1-8 | a new target holds exactly the given armor, magic resist and health values |
| ArmorReduction.Target.Clone | src/armor_reducer.rs:34 | the clone is a fresh object with equal fields |
| ArmorReduction.ApplyArmorReduction | src/armor_reducer.rs:14-31 | the target's new armor split is the reduction of its old split, and no other field changes |
| ArmorReduction.GetEffectiveArmor | src/armor_reducer.rs:33-50 | returns the effective armor of the target's split, and the caller's target is not modified |
| ArmorReduction.FlatReductionSplit | src/armor_reducer.rs:15-23 | flat reduction is shared between base and bonus armor in proportion to their sizes (evenly when the total is 0), and their total drops by exactly the flat amount |
| ArmorReduction.PercentReductionOnlyOnPositive | src/armor_reducer.rs:25-30 | percent reduction scales only a positive component and leaves a non-positive one unchanged |
| ArmorReduction.EffectiveArmorBelowPenetrated | src/armor_reducer.rs:41-49 | with non-negative flat penetration, effective armor lies between 0 and the armor after percent penetration whenever the latter is non-negative |
| ArmorReduction.NoReducerIsIdentity | src/armor_reducer.rs:33-50 | the empty reducer yields the target's total armor |
| ArmorReduction.FlatReductionExample | src/armor_reducer.rs:76 | the unit-test case of flat reduction alone (30) |
| ArmorReduction.PercentExamples | src/armor_reducer.rs:78-86 | the unit-test cases of percent reduction and penetration (42, 42, 43.2) |
| ArmorReduction.HighLevelExample | src/armor_reducer.rs:88-94 | the unit-test case with every field set at level 18 (122.3) |
| ArmorReduction.NegativeSkipsLethalityExample | src/armor_reducer.rs:96-102 | the unit-test case where negative armor ignores flat penetration (−12) |
| ArmorReducerFrom.FromStats | src/armor_reducer.rs:57-65 | the reducer built from stats carries the lethality conversion and the stats' percent penetration; every other field is 0 |
| ArmorReducerFrom.FromStatsIsDefaultThenLethality | src/armor_reducer.rs:57-65 | building from stats equals taking the default reducer, setting percent penetration and then applying the lethality setter |
| Attack.NewBasicAttack | src/attack.rs:106-113 | the constructed attack's total attack damage is base plus bonus, with no crit chance and no bonus crit damage |
| Attack.Target.New | src/attack.rs:135-143 | a new target holds exactly the given data |
| Attack.Target.Clone | src/attack.rs:117-123 | the clone is a fresh object with equal data |
| Attack.ApplyArmorReduction | src/attack.rs:16-33 | this copy of the reduction step agrees with the shared reduction function, and nothing else in the target changes |
| Attack.GetEffectiveArmor | src/attack.rs:35-52 | this copy agrees with the shared effective-armor function, and the target is unchanged |
| Attack.AttackSpeed.AttacksPerSecond | src/attack.rs:74-76 | no bonus gives the base rate, a 100% bonus doubles it, and a non-negative bonus never lowers a non-negative base rate |
| Attack.BasicAttack.TotalAttackDamage | src/attack.rs:80-82 | the total exceeds the base attack damage by exactly the bonus, so it is at least the base for a non-negative bonus |
| Attack.CritMultiplier | src/attack.rs:96-102 | no crit gives 1; for a chance in [0, 1] and bonus crit damage of at least −0.75 the average outcome lies between 1 and the full crit multiplier 1.75 + bonus, and equals 1.75 + bonus at chance 1 and 1 at chance 0 |
| Attack.GetDamageToTarget | src/attack.rs:83-104 | the damage is the total attack damage after the target's effective armor, times the crit multiplier of the chosen mode |
| Attack.GetDps | src/attack.rs:152-161 | DPS is the average-mode damage per attack times attacks per second |
| Attack.AverageOutcomeIsExpectation | src/attack.rs:96-102 | the average crit multiplier is the expectation of the crit and no-crit outcomes |
| Attack.NoReducerSameAsZeroReducer | src/attack.rs:91-94 | omitting the reducer is the same as passing the all-zero reducer |
| Attack.TypicalAttackExample | src/attack.rs:172-187 | the unit-test attack rounds to 62 |
| Attack.AttackSpeedExample | src/attack.rs:235-243 | the unit-test attack speed gives the expected attacks per second |
| Attack.IntegrationExamples | tests/attack_integration.rs:24-37 | the integration-test damage values for the listed armor and reducer cases |
| Stats.ChampionStats.Init | src/champions/champion.rs:70-75 | the new stats hold the given health, armor and magic resist, and every other field is 0 |
| Stats.ChampionStats.AddItemDeltas | src/load_champion.rs:72-83 | the additive stat vector becomes the old vector plus the item's deltas; no other field changes |
| Stats.ChampionStats.MaxHealthAt | src/champions/champion.rs:289-291 | the maximum health at a level, shared by champions and target dummies: the health statistic itself at level 1 or with no per-level growth |
| Stats.ChampionStats.AsBasicAttack | src/load_champion.rs:122-132 | the attack's total damage is the level-scaled base plus the stored bonus, carried in its base field, with no crit |
| Stats.ChampionStats.AsAttackSpeed | src/load_champion.rs:134-141 | the attack speed keeps the base speed, and its bonus is the level-scaled growth plus the stored bonus (just the stored bonus at level 1) |
| Stats.ChampionStats.AsTarget | src/load_champion.rs:143-157 | a fresh target with level-scaled base armor, bonus armor 0 and current health equal to max health |
| Stats.DeltaOrderIrrelevant | src/load_champion.rs:72-83 | applying two item deltas in either order gives the same stats |
| Stats.NoDeltasChangeNothing | src/load_champion.rs:72-83 | the all-zero delta leaves the stats unchanged |
| WikiItems.ModifyChampionStats | src/load_wiki_item.rs:79-99 | each present delta is added to its stat and absent ones add 0; percent armor penetration stacks multiplicatively rather than adding |
| WikiItems.UnappliedFieldsIgnored | src/load_wiki_item.rs:79-99 | delta fields that the function does not read do not affect the contribution |
| WikiItems.NoWikiDeltasChangeNothing | src/load_wiki_item.rs:79-99 | an item without deltas leaves the additive stats unchanged and keeps the penetration |
| DDItems.ModifyChampionStats | src/load_dd_item.rs:77-88 | the additive stat vector becomes the old vector plus the item's mapped deltas; no other field changes |
| DDItems.CritAndAbilityPowerIgnored | src/load_dd_item.rs:77-88 | deltas the function does not read do not affect the contribution |
| DDItems.NoDDDeltasChangeNothing | src/load_dd_item.rs:77-88 | the all-zero delta leaves the additive stats unchanged |
| DDItems.Filtered | src/load_dd_item.rs:94-107 | an item is kept iff it is purchasable and available on Summoner's Rift; never more items than the input |
| DDItems.LoadItems | src/load_dd_item.rs:91-109 | the loop keeps exactly the filtered items, in order |
| DDItems.NameToIdMap | src/load_dd_item.rs:53-62 | every kept item's name is a key of the map, and its value is the key of the first kept item with that name |
| Effects.NewCastingData | src/champions/champion.rs:55-60 | new casting data has charge 0 and the given rank |
| Effects.Materialize | src/champions/champion.rs:156-161 | a pending effect becomes an effect that expires `ttl` after the current time, with the same name and payload |
| Effects.ValidOf | src/champions/champion.rs:329-333 | an effect is listed iff it is in the registry and has not expired |
| Effects.ValidOfConcat | src/champions/champion.rs:329-333 | filtering for validity distributes over concatenation |
| Effects.FirstMatch | src/champions/champion.rs:120-124 | returns the index of the first registry entry with the same identity, or None iff there is no such entry |
| Effects.RemoveAt | src/champions/champion.rs:125 | removing an index drops exactly that entry and keeps the others in order |
| Effects.BumpOf | src/champions/champion.rs:138-174 | a three-hit counter below its threshold is reinserted with one more hit; at the threshold it fires its pending effect; any other payload is reinserted unchanged |
| Effects.Upserted | src/champions/champion.rs:117-133 | without a match the effect is appended; otherwise the first match is removed and either an entry with the same identity is appended or the matched counter fires |
| Effects.UpsertPreservesDistinct | src/champions/champion.rs:117-133 | upserting keeps at most one effect per identity |
| Effects.UpsertExpiredMatch | src/champions/champion.rs:125-131 | an expired match is replaced by the new effect, which starts fresh |
| Effects.UpsertValidKeepsPayload | src/champions/champion.rs:126-128 | a valid non-counter match keeps its payload and takes the later expiry |
| Effects.UpsertThreeHitCounts | src/champions/champion.rs:145-170 | a valid three-hit match below the threshold is reinserted with its count increased by one |
| Effects.UpsertThreeHitFires | src/champions/champion.rs:145-163 | a valid three-hit match at the threshold is removed and its pending effect fires |
| Effects.ThreeApplicationsFire | src/champions/champion.rs:117-174 | applying the same fresh three-hit mark three times within its lifetime fires it on the third hit and leaves the registry as before the first |
| Effects.ConsumeOne | src/champions/champion.rs:207-217 | an active empower goes on cooldown with expiry now plus its cooldown; a cooldown keeps its expiry; other effects are unchanged |
| Effects.Consumed | src/champions/champion.rs:204-218 | every valid empower is put on cooldown; expired and other effects are untouched |
| Effects.ActiveEmpowers | src/champions/champion.rs:204-218 | an ability is collected iff some valid Active empower record carries it; never more abilities than records |
| Effects.ActiveEmpowersConcat | src/champions/champion.rs:204-218 | collecting over a concatenation gives the two collections one after the other, so abilities come out in registry order |
| Effects.ActiveEmpowersCount | src/champions/champion.rs:204-218 | exactly one ability is collected per valid Active empower record |
| Effects.ConsumedKeepsDistinct | src/champions/champion.rs:204-218 | consuming empowers keeps effect identities distinct |
| Effects.NoActiveEmpowers | src/champions/champion.rs:204-218 | without a valid active empower nothing is collected |
| Effects.SecondAutoNotEmpowered | src/champions/champion.rs:199-229 | after one auto consumes the empowers, every valid empower is on cooldown and a second auto at the same time collects nothing |
| Effects.EmpowerOnCooldownStaysOnCooldown | src/champions/champion.rs:126-128 | re-adding an empower whose cooldown is still running keeps it on cooldown |
| Effects.EmpowerAfterCooldownIsActive | src/champions/champion.rs:125-131 | re-adding an empower after its cooldown has expired makes it active again |
| Effects.AddArmorReducer | src/champions/champion.rs:320 | combining two reducers adds each flat and percent-reduction field, and stacks percent penetration multiplicatively |
| Effects.AddNoReducer | src/champions/champion.rs:320 | combining with the empty reducer changes nothing |
| Effects.CombinedReducer | src/champions/champion.rs:314-320 | when every valid reducer record has non-negative flat penetration and flat reduction, the combined reducer has at least the attacker's own flat penetration and flat reduction |
| Effects.CombinedIgnoresExpired | src/champions/champion.rs:315-320 | expired reducer effects do not contribute to the combined reducer |
| Effects.CombinedWithoutReducers | src/champions/champion.rs:315-320 | a registry without valid reducer effects leaves the attacker's reducer as it is |
| Effects.UpsertAll | src/champions/champion.rs:186-197 | upserting a batch adds at most one record per batch entry |
| Effects.UpsertAllSnoc | src/champions/champion.rs:186-197 | one more record extends the batch upsert by exactly one upsert step, and every step settles iff the earlier ones did and the new one does |
| Effects.UpsertAllPreservesDistinct | src/champions/champion.rs:186-197 | upserting a batch keeps at most one record per identity |
| Effects.UpsertAllFresh | src/champions/champion.rs:186-197 | a batch of new, pairwise distinct effects is appended to the registry in order and every step settles |
| Effects.OnHitEffects | src/champions/champion.rs:186-197 | every converted effect comes from an item of the given activation mode, and every such item's effect is included |
| Champions.Champion.NewDummyWithResist | src/champions/champion.rs:68-90 | a level-1 dummy with 1000 health, the given resists, full health and no bonus armor |
| Champions.Champion.NewDummy | src/champions/champion.rs:92-94 | the dummy with zero resists |
| Champions.Champion.New | src/champions/champion.rs:96-111 | a champion with the given stats, level, ranks and ability table, no effects and full health |
| Champions.Champion.AddEffect | src/champions/champion.rs:113-115 | the effect is appended to the registry, and the earlier entries are kept as they were |
| Champions.Champion.GetBaseArmor | src/champions/champion.rs:278-280 | at level 1, or without armor growth, base armor is the initial armor |
| Champions.Champion.GetBonusArmor | src/champions/champion.rs:285-287 | initial armor plus bonus armor equals the stats' armor |
| Champions.Champion.GetMaxHealth | src/champions/champion.rs:289-291 | the champion's `MaxHealthAt` its level: at level 1 max health is the health stat |
| Champions.Champion.GetMissingHealth | src/champions/champion.rs:293-295 | missing health plus current health equals max health |
| Champions.Champion.GetMagicResist | src/champions/champion.rs:301-307 | at level 1 magic resist is the stats' magic resist |
| Champions.Champion.FullHeal | src/champions/champion.rs:309-311 | current health becomes max health and nothing else changes |
| Champions.Champion.ValidEffects | src/champions/champion.rs:329-333 | lists exactly the unexpired effects |
| Champions.Champion.VitalityData | src/champions/champion.rs:342-350 | a fresh target with this champion's base armor, bonus armor, resist and health |
| Champions.Champion.ReceiveDamage | src/champions/champion.rs:313-327 | health drops by the damage after the attacker's reducer combined with this champion's valid reducer effects; nothing else changes |
| Champions.Champion.ConsumeEmpowers | src/champions/champion.rs:204-218 | the registry becomes its consumed form and the returned abilities are the active empowers it held |
| Champions.Champion.UpsertEffect | src/champions/champion.rs:117-133 | registries stay distinct; a settled upsert returns Some and leaves exactly the upserted registry, with nothing else in the arena changed; a fired effect returns None, and then either only the matched entry is gone (no fuel, or a missing attacker) or the materialized pending effect is upserted in its turn |
| Champions.Champion.BumpFoundEffect | src/champions/champion.rs:138-174 | a reinserted effect is returned and nothing changes; a fired effect returns None, and then either nothing changes (no fuel, or a missing attacker) or the materialized pending mark is upserted on this champion |
| Champions.DamageTakenBounds | src/champions/champion.rs:322-326 | positive damage always removes some health and less than twice the damage |
| Champions.DamageTakenWithoutReducer | src/champions/champion.rs:322-326 | for non-negative armor and the empty reducer, the damage taken is the resist formula on the total armor |
| Champions.Lookup | src/champions/champion.rs:264-273 | the champion's own ability table takes precedence over the static table |
| Champions.ExecuteAbility | src/champions/champion.rs:231-276 | None iff the attacker is gone, and then nothing changes; otherwise the result is the target's health loss. For a name other than AUTO and Q/W/E/R, a damage ability returns exactly the mitigated damage and changes no registry and no other health, and a mark that settles costs no health and leaves the upserted registry. For any name with no fuel left and a target other than the attacker, the attacker's registry becomes `RegistryAfterItems`, no other champion changes, and a damage ability returns exactly the mitigated damage while a mark takes one upsert step. With fuel left, a target other than the attacker and `ItemsSettle` (every on-hit upsert settles and, for AUTO, every empowered follow-up is plain damage), a damage ability leaves the attacker's registry at `RegistryAfterItems`, leaves the target's registry and every other champion unchanged, and for Q/W/E/R returns exactly the mitigated damage |
| Champions.ApplyItems | src/champions/champion.rs:239-262 | names other than AUTO and Q/W/E/R change nothing; with no fuel left and a target other than the attacker, the attacker's registry becomes `RegistryAfterItems` (AUTO: Auto-mode items upserted, then empowers consumed; Q/W/E/R: ActiveSpell-mode items upserted) and nothing else changes. With fuel left, the same registry results whenever `ItemsSettle` holds, and no other registry changes; Q/W/E/R then change no health, and AUTO casts exactly `AutoCasts` (the empowers active after the upserts), the target losing exactly the sum of their mitigated damages |
| Champions.ProcessOnHitEffects | src/champions/champion.rs:186-197 | None iff the attacker is gone, and then nothing changes; when no fired effect runs further (no fuel, or every upsert settles), the attacker's registry becomes `UpsertAll` of the records and nothing else changes |
| Champions.ProcessOnAutoEffects | src/champions/champion.rs:199-229 | None iff the attacker is gone, and then nothing changes; the collected abilities are exactly `ActiveEmpowers` of the attacker's registry, and the target's total health loss is split into one summand per ability (the split means something only in the plain case below). With no fuel left the attacker's registry becomes `Consumed` and nothing else changes. When every collected ability is a plain damage ability and the target is not the attacker, the registry becomes `Consumed`, no other registry changes, and each loss is that ability's mitigated damage |
| Champions.CastFollowUps | src/champions/champion.rs:220-227 | the target's total health loss is split into one summand per ability; when every ability is a plain damage ability, no registry and no other champion's health changes, and each loss is that ability's mitigated damage |
| Champions.ExecuteCombo | src/champions/champion.rs:176-184 | registries stay distinct, and the target's total health loss is split into one summand per step; for a combo of plain damage abilities no registry and no other champion's health changes, and each step's loss is the mitigated damage of its ability |
| Vi.NewVi | src/champions/vi.rs:32-41 | Vi's Q uses her damage table with a bonus attack damage ratio of 0.8 |
| Vi.ToDamageAmount | src/champions/vi.rs:15-19 | without ratios the amount is the rank's base damage |
| Vi.ChargeMultiplier | src/champions/vi.rs:50-51 | the multiplier is between 1 and 2, equals 2 from a full charge of 1.25 s, and grows by 0.8 per second below it |
| Vi.ViQAmount | src/champions/vi.rs:15-19 | with Vi's table, Q's amount is the rank's damage plus 80% of bonus attack damage |
| Vi.AbilityQ | src/champions/vi.rs:49-58 | for a non-negative amount and charge, Q deals between the rank's amount and twice it; with no charge it deals exactly the amount |
| Vi.QMonotoneInCharge | src/champions/vi.rs:49-58 | more charge never gives less Q damage |
| Vi.QFullChargeDoubles | src/champions/vi.rs:49-58 | a full charge doubles the uncharged Q damage |
| Vi.QIgnoresBaseAd | src/champions/vi.rs:35-39 | Q damage does not depend on base attack damage |
| Vi.QExamples | src/champions/vi.rs:68-80 | the unit-test values: 45, 90 and 188 |
| TargetDummies.TargetDummy.NewWithResist | src/champions/target_dummy.rs:38-53 | a level-1 dummy with 1000 health, the given resists and full health |
| TargetDummies.TargetDummy.New | src/champions/target_dummy.rs:35-37 | the dummy with zero resists |
| TargetDummies.TargetDummy.GetLevel | src/champions/target_dummy.rs:10-12 | returns the dummy's level |
| TargetDummies.TargetDummy.GetStats | src/champions/target_dummy.rs:13-15 | returns the dummy's stats object |
| TargetDummies.TargetDummy.GetCurrentHealth | src/champions/target_dummy.rs:16-18 | returns the current health |
| TargetDummies.TargetDummy.GetInitialArmor | src/champions/target_dummy.rs:22-24 | returns the armor before level-ups |
| TargetDummies.TargetDummy.GetMaxHealth | src/champions/champion.rs:289-291 | the trait's shared `get_max_health`, through the same `MaxHealthAt`: at level 1 the dummy's max health is its health stat |
| TargetDummies.TargetDummy.FullHeal | src/champions/target_dummy.rs:54-56 | current health becomes max health and nothing else changes |
| ItemEffects.Classify | src/item_effects.rs:19-26 | an effect is a stat effect iff its name is "Gouge"; every other name is unhandled |
| ItemEffects.ClassifyReadsOnlyName | src/item_effects.rs:21-24 | classification depends on the name alone |

## Left out

- JSON and file loading is not modelled. This covers `load_champion_stats`, the wiki and Data Dragon loaders, `apply_item_to_champ`, `src/load_item.rs`, `src/main.rs` and `src/champions/leblanc.rs`. Their results enter the model as values.
- The debug `println!` in Vi's Q (`src/champions/vi.rs:55`) is not modelled.
- Floating point is not modelled. Numbers are `real`, and tests that compare `.round()` results are stated as intervals.
- Mutable-borrow panics of `RefCell` are not modelled. One example is a three-hit mark on an attacker that fires an ability of that same attacker while it is borrowed. Aliasing between the attacker and the target is not modelled either.
- Termination of nested executions is not claimed. When `fuel` reaches 0, a nested step does nothing. Without the bound, the recursion in the source ends only through its own game data.
- The source unwraps the static ability lookup (`src/champions/champion.rs:270`) and panics on a missing name. This model requires every handle to resolve every name (`AllResolve`). The requirement covers all names, not only the one the call needs.
- Ability closures (`NamedClosures`, `STATIC_ABILITIES`, Vi's closure table) are not modelled as code. They are two kinds of behaviour: dealing damage computed from the casting data, and marking the target with a pending effect.
- Several helpers are defined outside the modelled files. The model defines them as follows:
  - `stat_at_level`;
  - `stack_multiplicative_reduction`, in percent units;
  - `add_armor_reducer`: a field-wise sum, with percent penetration stacked;
  - equality of `EffectData`: the unique name plus the payload kind;
  - the conversion from an on-hit item effect: a function field of `OnHit`;
  - the `Champion` trait's `get_max_health` for the target dummy, as `Stats.ChampionStats.MaxHealthAt`.
- `get_base_ad`, `get_bonus_ad` and `crit_info` of `Champion` are not modelled; nothing in the modelled core depends on them. Vi's `get_base_ad` loads stats from disk, so base attack damage is a parameter of `AbilityQ`.
- `get_stats_mut` and `get_current_health_mut` of the target dummy are not separate members. The dummy's stats object and health field are reachable directly.
- The source never changes a champion's `level` or `ranks` after construction, and no model member does.
- DDItems.LoadItems: requires that every entry lists Summoner's Rift in its map flags, because the source unwraps that flag. Only the purchasable flag, the map flags, the name and the stats of an entry are modelled.
- DDItems.NameToIdMap: the source's JSON map iterates in key order. The model takes the entries as a sequence in that order.
- Champions.ExecuteCombo: each loss is stated exactly only for plain damage steps (no AUTO, no Q/W/E/R, a damage behaviour); other steps are stated only through the sum of losses and `ExecuteAbility`.
- Champions.ProcessOnHitEffects: the final registry is stated when no fired effect runs further; a third hit that fires with fuel left is stated one level deep by `UpsertEffect`.
- Champions.ProcessOnAutoEffects: with no fuel left the collected abilities are dropped rather than executed. With fuel, the registries and losses are stated exactly only when every collected ability is a plain damage ability against a target other than the attacker; otherwise only the sum of losses is stated.
- Champions.CastFollowUps: like `ProcessOnAutoEffects`, each loss is stated exactly only for plain damage abilities.
- Champions.ApplyItems: with fuel left, the item step is stated only when `ItemsSettle` holds; a third-hit item effect that fires, or an empowered follow-up that is itself AUTO, Q/W/E/R or a mark, is stated only through the nested calls' own contracts.
- Champions.ExecuteAbility: with fuel left, only the registry part of the item step is relayed, for damage abilities under `ItemsSettle`; for AUTO the returned value is stated only as the target's health loss, not split into the follow-ups and the auto's own damage, and a mark is stated only through `UpsertEffect`. Statements about the attacker's registry exclude a target that is the attacker, because the source then borrows the same `RefCell` twice and panics.
- Champions.Champion.UpsertEffect: the result of a fired pending effect is stated one level deep only; deeper levels are stated by the nested calls' own contracts.
- Champions.Champion.BumpFoundEffect: like `UpsertEffect`, the nested upsert or execution is stated one level deep.
- The test fixtures in `tests/attack_integration.rs:63-206` (Nightstalker, Sheen) use signatures from another snapshot of the code. Their intent is stated as `Effects.SecondAutoNotEmpowered`, `Effects.EmpowerAfterCooldownIsActive` and `Effects.ThreeApplicationsFire`.
- Likewise, `src/target.rs` and `ChampionStats` differ between snapshots. `ChampionStats` carries the union of the fields the core reads.
