/**
 * The per-champion effect registry of src/champions/champion.rs, as values: the effect
 * records, their identity, and one step of each registry operation as a pure function
 * over the list.  The class in champion.dfy performs these steps in place and is
 * specified by them.
 *
 * The clock is an explicit `time` argument; an effect is valid while `expiry >= time`.
 */
module Effects {
  import opened CombatMath
  import opened Wrappers
  import opened ArmorReduction

  /** A champion's index in the arena; it stands for the source's `Weak` attacker reference. */
  type Handle = nat

  datatype AbilityName =
    Q | W | WPassive | E | R | AUTO | NIGHTSTALKER | SpellbladeSheen | SpellbladeEssenceReaver

  /** The basic-attack and active-spell names whose execution pulls in on-hit item effects. */
  predicate IsSpell(name: AbilityName)
  {
    name == Q || name == W || name == E || name == R
  }

  datatype CastingData = CastingData(charge: real, rank: nat)

  /** `CastingData::new(rank)`: no charge. */
  function NewCastingData(rank: nat): (d: CastingData)
    ensures d.rank == rank && d.charge == 0.0
  {
    CastingData(0.0, rank)
  }

  /** A deferred ability execution: "cast `name` as `attacker` with `data`". */
  datatype AbilityEffect = AbilityEffect(attacker: Handle, name: AbilityName, data: CastingData)

  datatype EmpowerState = Active(ability: AbilityEffect, cd: real) | Cooldown

  /** The payload of an effect record. */
  datatype EffectResult =
    | ArmorReducing(reducer: Reducer)
    | ThreeHit(hitCount: nat, onThirdHit: PendingEffect)
    | EmpowerNextAttack(state: EmpowerState)
    | AbilityTrigger(ability: AbilityEffect)

  /** An effect not yet placed on the clock: it expires `ttl` after it is applied. */
  datatype PendingEffect = PendingEffect(ttl: real, uniqueName: string, result: EffectResult)

  datatype EffectData = EffectData(expiry: real, uniqueName: string, result: EffectResult)

  /** A pending effect placed on the clock at `time`. */
  function Materialize(p: PendingEffect, time: real): (e: EffectData)
    ensures e.expiry == time + p.ttl
    ensures e.uniqueName == p.uniqueName && e.result == p.result
  {
    EffectData(time + p.ttl, p.uniqueName, p.result)
  }

  datatype Kind = ArmorReducerKind | ThreeHitKind | EmpowerKind | AbilityKind

  function KindOf(r: EffectResult): Kind
  {
    match r
    case ArmorReducing(_) => ArmorReducerKind
    case ThreeHit(_, _) => ThreeHitKind
    case EmpowerNextAttack(_) => EmpowerKind
    case AbilityTrigger(_) => AbilityKind
  }

  /** Two records are "the same effect" when they share their unique name and payload kind. */
  predicate SameIdentity(a: EffectData, b: EffectData)
  {
    a.uniqueName == b.uniqueName && KindOf(a.result) == KindOf(b.result)
  }

  predicate IsValid(e: EffectData, time: real)
  {
    e.expiry >= time
  }

  /** No two records of the registry share an identity. */
  predicate Distinct(s: seq<EffectData>)
  {
    forall i, j :: 0 <= i < j < |s| ==> !SameIdentity(s[i], s[j])
  }

  // ---------------------------------------------------------------------------
  // valid_effects
  // ---------------------------------------------------------------------------

  /** The records valid at `time`, in list order. */
  function ValidOf(s: seq<EffectData>, time: real): (v: seq<EffectData>)
    ensures forall x :: x in v <==> x in s && IsValid(x, time)
    ensures |v| <= |s|
  {
    if s == [] then []
    else
      var init, last := s[..|s| - 1], s[|s| - 1];
      assert s == init + [last];
      ValidOf(init, time) + (if IsValid(last, time) then [last] else [])
  }

  /** Filtering commutes with concatenation, so the valid records keep their relative order. */
  lemma {:induction false} ValidOfConcat(a: seq<EffectData>, b: seq<EffectData>, time: real)
    ensures ValidOf(a + b, time) == ValidOf(a, time) + ValidOf(b, time)
    decreases |b|
  {
    if b == [] {
      assert a + b == a;
    } else {
      var init, last := b[..|b| - 1], b[|b| - 1];
      assert (a + b)[..|a + b| - 1] == a + init;
      assert (a + b)[|a + b| - 1] == last;
      ValidOfConcat(a, init, time);
    }
  }

  // ---------------------------------------------------------------------------
  // upsert_effect / bump_found_effect
  // ---------------------------------------------------------------------------

  /** `position(|candidate| candidate == &to_add)`: the first record with the identity of `e`. */
  function FirstMatch(s: seq<EffectData>, e: EffectData): (r: Option<nat>)
    ensures r.None? <==> forall i :: 0 <= i < |s| ==> !SameIdentity(s[i], e)
    ensures r.Some? ==> r.value < |s| && SameIdentity(s[r.value], e)
    ensures r.Some? ==> forall j :: 0 <= j < r.value ==> !SameIdentity(s[j], e)
  {
    if s == [] then None
    else if SameIdentity(s[0], e) then Some(0)
    else match FirstMatch(s[1..], e)
      case None => None
      case Some(k) => Some(k + 1)
  }

  function RemoveAt(s: seq<EffectData>, i: nat): (r: seq<EffectData>)
    requires i < |s|
    ensures |r| == |s| - 1
    ensures forall j :: 0 <= j < i ==> r[j] == s[j]
    ensures forall j :: i <= j < |r| ==> r[j] == s[j + 1]
  {
    s[..i] + s[i + 1..]
  }

  /** What bumping a found record yields: a record to put back, or the pending effect a third hit fires. */
  datatype Bump = Reinsert(effect: EffectData) | Fire(pending: PendingEffect)

  /**
   * The value part of `bump_found_effect`: a ThreeHit counter goes up by one and fires
   * its pending effect once it reaches 2 (the third application); any other record is
   * put back as it was.
   */
  function BumpOf(found: EffectData): (b: Bump)
    ensures b.Fire? <==> found.result.ThreeHit? && found.result.hitCount >= 1
    ensures b.Fire? ==> b.pending == found.result.onThirdHit
    ensures b.Reinsert? ==> SameIdentity(b.effect, found) && b.effect.expiry == found.expiry
    ensures b.Reinsert? && !found.result.ThreeHit? ==> b.effect == found
    ensures b.Reinsert? && found.result.ThreeHit? ==>
              b.effect.result == ThreeHit(found.result.hitCount + 1, found.result.onThirdHit)
  {
    match found.result
    case ThreeHit(n, p) =>
      if n + 1 >= 2 then Fire(p)
      else Reinsert(found.(result := ThreeHit(n + 1, p)))
    case _ => Reinsert(found)
  }

  /** The list after an upsert settles, or the list and the pending effect a third hit fired. */
  datatype UpsertStep = Settled(list: seq<EffectData>) | Triggered(remaining: seq<EffectData>, pending: PendingEffect)

  /**
   * One `upsert_effect` step: the first record with the identity of `e` is removed; if it
   * was still valid it is bumped and (unless it fired) put back at the end with the later
   * of the two expiries, otherwise `e` itself goes at the end.  Every other record keeps
   * its value and relative order.
   */
  function Upserted(s: seq<EffectData>, time: real, e: EffectData): (u: UpsertStep)
    ensures FirstMatch(s, e).None? ==> u == Settled(s + [e])
    ensures FirstMatch(s, e).Some? && u.Settled? ==>
              |u.list| == |s| && u.list[..|s| - 1] == RemoveAt(s, FirstMatch(s, e).value) &&
              SameIdentity(u.list[|s| - 1], e)
    ensures u.Triggered? ==> FirstMatch(s, e).Some? && u.remaining == RemoveAt(s, FirstMatch(s, e).value)
  {
    match FirstMatch(s, e)
    case None => Settled(s + [e])
    case Some(i) =>
      var rest := RemoveAt(s, i);
      if IsValid(s[i], time) then
        match BumpOf(s[i])
        case Reinsert(x) => Settled(rest + [x.(expiry := Max(x.expiry, e.expiry))])
        case Fire(p) => Triggered(rest, p)
      else
        Settled(rest + [e])
  }

  function Max(a: real, b: real): (m: real)
    ensures m >= a && m >= b && (m == a || m == b)
  {
    if a >= b then a else b
  }

  /** Removing a record and appending one of the removed identity keeps the registry duplicate-free. */
  lemma UpsertPreservesDistinct(s: seq<EffectData>, time: real, e: EffectData)
    requires Distinct(s)
    ensures Upserted(s, time, e).Settled? ==> Distinct(Upserted(s, time, e).list)
    ensures Upserted(s, time, e).Triggered? ==> Distinct(Upserted(s, time, e).remaining)
  {
    var u := Upserted(s, time, e);
    match FirstMatch(s, e)
    case None =>
      AppendKeepsDistinct(s, e);
    case Some(i) =>
      var rest := RemoveAt(s, i);
      assert Distinct(rest) by {
        forall a, b | 0 <= a < b < |rest|
          ensures !SameIdentity(rest[a], rest[b])
        {
          var a' := if a < i then a else a + 1;
          var b' := if b < i then b else b + 1;
          assert rest[a] == s[a'] && rest[b] == s[b'];
        }
      }
      forall j | 0 <= j < |rest|
        ensures !SameIdentity(rest[j], e)
      {
        var j' := if j < i then j else j + 1;
        assert rest[j] == s[j'];
        assert !SameIdentity(s[j'], s[i]);
      }
      if u.Settled? {
        assert u.list == rest + [u.list[|s| - 1]];
        AppendKeepsDistinct(rest, u.list[|s| - 1]);
      }
  }

  lemma AppendKeepsDistinct(s: seq<EffectData>, x: EffectData)
    requires Distinct(s)
    requires forall j :: 0 <= j < |s| ==> !SameIdentity(s[j], x)
    ensures Distinct(s + [x])
  {
    var t := s + [x];
    forall a, b | 0 <= a < b < |t|
      ensures !SameIdentity(t[a], t[b])
    {
      if b == |s| {
        assert t[a] == s[a] && t[b] == x;
      } else {
        assert t[a] == s[a] && t[b] == s[b];
      }
    }
  }

  /** A matching record that has expired is dropped and the new record appended unchanged. */
  lemma UpsertExpiredMatch(s: seq<EffectData>, time: real, e: EffectData, i: nat)
    requires FirstMatch(s, e) == Some(i)
    requires s[i].expiry < time
    ensures Upserted(s, time, e) == Settled(RemoveAt(s, i) + [e])
  {
  }

  /** A valid matching record that is not a ThreeHit keeps its payload and takes the later expiry. */
  lemma UpsertValidKeepsPayload(s: seq<EffectData>, time: real, e: EffectData, i: nat)
    requires FirstMatch(s, e) == Some(i)
    requires IsValid(s[i], time) && !s[i].result.ThreeHit?
    ensures Upserted(s, time, e) == Settled(RemoveAt(s, i) + [s[i].(expiry := Max(s[i].expiry, e.expiry))])
  {
  }

  /** A valid ThreeHit at count 0 moves to count 1, keeping its pending effect and taking the later expiry. */
  lemma UpsertThreeHitCounts(s: seq<EffectData>, time: real, e: EffectData, i: nat)
    requires FirstMatch(s, e) == Some(i)
    requires IsValid(s[i], time) && s[i].result.ThreeHit? && s[i].result.hitCount == 0
    ensures Upserted(s, time, e) ==
            Settled(RemoveAt(s, i) + [s[i].(expiry := Max(s[i].expiry, e.expiry),
                                            result := ThreeHit(1, s[i].result.onThirdHit))])
  {
    assert BumpOf(s[i]) == Reinsert(s[i].(result := ThreeHit(1, s[i].result.onThirdHit)));
  }

  /** A valid ThreeHit at count 1 or more is removed and fires its pending effect. */
  lemma UpsertThreeHitFires(s: seq<EffectData>, time: real, e: EffectData, i: nat)
    requires FirstMatch(s, e) == Some(i)
    requires IsValid(s[i], time) && s[i].result.ThreeHit? && s[i].result.hitCount >= 1
    ensures Upserted(s, time, e) == Triggered(RemoveAt(s, i), s[i].result.onThirdHit)
  {
  }

  /**
   * Applying the same ThreeHit effect three times while it stays valid: the first
   * application adds it, the second leaves it live with `hit_count == 1`, the third
   * removes the slot and fires the pending effect.
   */
  lemma ThreeApplicationsFire(s: seq<EffectData>, e: EffectData, p: PendingEffect, t1: real, t2: real, t3: real)
    requires e.result == ThreeHit(0, p)
    requires forall j :: 0 <= j < |s| ==> !SameIdentity(s[j], e)
    requires t2 <= e.expiry && t3 <= e.expiry
    ensures Upserted(s, t1, e) == Settled(s + [e])
    ensures Upserted(s + [e], t2, e) == Settled(s + [e.(result := ThreeHit(1, p))])
    ensures Upserted(s + [e.(result := ThreeHit(1, p))], t3, e) == Triggered(s, p)
  {
    var counted := e.(result := ThreeHit(1, p));
    FirstMatchAppended(s, e, e);
    UpsertThreeHitCounts(s + [e], t2, e, |s|);
    assert Max(e.expiry, e.expiry) == e.expiry;
    assert e.(expiry := e.expiry, result := ThreeHit(1, p)) == counted;
    FirstMatchAppended(s, counted, e);
    UpsertThreeHitFires(s + [counted], t3, e, |s|);
  }

  /** A record appended after a list without a match of `e` is the first match, and removing it restores the list. */
  lemma FirstMatchAppended(s: seq<EffectData>, x: EffectData, e: EffectData)
    requires forall j :: 0 <= j < |s| ==> !SameIdentity(s[j], e)
    requires SameIdentity(x, e)
    ensures FirstMatch(s + [x], e) == Some(|s|)
    ensures (s + [x])[|s|] == x
    ensures RemoveAt(s + [x], |s|) == s
  {
    var t := s + [x];
    assert forall j :: 0 <= j < |s| ==> t[j] == s[j];
    assert t[..|s|] == s;
  }

  /** The registry one upsert step leaves when a fired effect goes no further. */
  function StepList(u: UpsertStep): seq<EffectData>
  {
    if u.Settled? then u.list else u.remaining
  }

  /**
   * The registry after upserting `es` one by one, in order, when no fired effect runs
   * any further: what `process_on_hit_effects` leaves in the attacker's registry.
   */
  function UpsertAll(s: seq<EffectData>, es: seq<EffectData>, time: real): (u: seq<EffectData>)
    ensures |u| <= |s| + |es|
    decreases |es|
  {
    if es == [] then s
    else StepList(Upserted(UpsertAll(s, es[..|es| - 1], time), time, es[|es| - 1]))
  }

  /** Whether every step of `UpsertAll(s, es, time)` settles, so no third hit fires on the way. */
  predicate SettlesAll(s: seq<EffectData>, es: seq<EffectData>, time: real)
    decreases |es|
  {
    es == [] ||
    (SettlesAll(s, es[..|es| - 1], time) &&
     Upserted(UpsertAll(s, es[..|es| - 1], time), time, es[|es| - 1]).Settled?)
  }

  /** One more record extends the fold by one upsert step. */
  lemma UpsertAllSnoc(s: seq<EffectData>, es: seq<EffectData>, e: EffectData, time: real)
    ensures UpsertAll(s, es + [e], time) == StepList(Upserted(UpsertAll(s, es, time), time, e))
    ensures SettlesAll(s, es + [e], time) <==>
              SettlesAll(s, es, time) && Upserted(UpsertAll(s, es, time), time, e).Settled?
  {
    assert (es + [e])[..|es|] == es;
  }

  /** Upserting a whole batch keeps the registry duplicate-free. */
  lemma {:induction false} UpsertAllPreservesDistinct(s: seq<EffectData>, es: seq<EffectData>, time: real)
    requires Distinct(s)
    ensures Distinct(UpsertAll(s, es, time))
    decreases |es|
  {
    if es != [] {
      var init := es[..|es| - 1];
      UpsertAllPreservesDistinct(s, init, time);
      UpsertPreservesDistinct(UpsertAll(s, init, time), time, es[|es| - 1]);
    }
  }

  /**
   * A batch of new, pairwise distinct effects is appended to the registry in order,
   * and every step settles.
   */
  lemma {:induction false} UpsertAllFresh(s: seq<EffectData>, es: seq<EffectData>, time: real)
    requires forall i, j :: 0 <= i < |s| && 0 <= j < |es| ==> !SameIdentity(s[i], es[j])
    requires Distinct(es)
    ensures UpsertAll(s, es, time) == s + es
    ensures SettlesAll(s, es, time)
    decreases |es|
  {
    if es != [] {
      var init, last := es[..|es| - 1], es[|es| - 1];
      assert forall i :: 0 <= i < |init| ==> init[i] == es[i];
      UpsertAllFresh(s, init, time);
      var t := s + init;
      forall j | 0 <= j < |t|
        ensures !SameIdentity(t[j], last)
      {
        if j < |s| {
          assert t[j] == s[j];
        } else {
          assert t[j] == es[j - |s|];
        }
      }
      assert t + [last] == s + es;
    }
  }

  // ---------------------------------------------------------------------------
  // process_on_auto_effects: EmpowerNextAttack consumption
  // ---------------------------------------------------------------------------

  /**
   * The in-place rewrite of one record by `process_on_auto_effects`: a valid
   * EmpowerNextAttack becomes Cooldown, and an Active one also restarts its expiry at
   * `time + cd`.  Any other record is untouched.
   */
  function ConsumeOne(e: EffectData, time: real): (c: EffectData)
    ensures SameIdentity(c, e)
    ensures IsValid(e, time) && e.result.EmpowerNextAttack? ==> c.result == EmpowerNextAttack(Cooldown)
    ensures IsValid(e, time) && e.result.EmpowerNextAttack? && e.result.state.Active? ==>
              c.expiry == time + e.result.state.cd
    ensures !(IsValid(e, time) && e.result.EmpowerNextAttack?) ==> c == e
    ensures !(IsValid(e, time) && e.result.EmpowerNextAttack? && e.result.state.Active?) ==> c.expiry == e.expiry
  {
    if IsValid(e, time) && e.result.EmpowerNextAttack? then
      if e.result.state.Active? then
        e.(expiry := time + e.result.state.cd, result := EmpowerNextAttack(Cooldown))
      else
        e.(result := EmpowerNextAttack(Cooldown))
    else e
  }

  /** The whole registry after consumption, record by record. */
  function Consumed(s: seq<EffectData>, time: real): (c: seq<EffectData>)
    ensures |c| == |s|
    ensures forall i :: 0 <= i < |s| ==> c[i] == ConsumeOne(s[i], time)
  {
    seq(|s|, i requires 0 <= i < |s| => ConsumeOne(s[i], time))
  }

  /** Whether a record is a valid, Active EmpowerNextAttack. */
  predicate ActiveEmpower(e: EffectData, time: real)
  {
    IsValid(e, time) && e.result.EmpowerNextAttack? && e.result.state.Active?
  }

  /** The abilities `process_on_auto_effects` collects, in list order: one per valid Active empower. */
  function ActiveEmpowers(s: seq<EffectData>, time: real): (a: seq<AbilityEffect>)
    ensures |a| <= |s|
    ensures forall x :: x in a <==>
              exists i :: 0 <= i < |s| && ActiveEmpower(s[i], time) && s[i].result.state.ability == x
  {
    if s == [] then []
    else
      var init, last := s[..|s| - 1], s[|s| - 1];
      assert forall i :: 0 <= i < |init| ==> init[i] == s[i];
      ActiveEmpowers(init, time) + (if ActiveEmpower(last, time) then [last.result.state.ability] else [])
  }

  /**
   * Collection distributes over concatenation: the abilities come out in list order,
   * exactly one per valid Active empower.
   */
  lemma {:induction false} ActiveEmpowersConcat(a: seq<EffectData>, b: seq<EffectData>, time: real)
    ensures ActiveEmpowers(a + b, time) == ActiveEmpowers(a, time) + ActiveEmpowers(b, time)
    decreases |b|
  {
    if b == [] {
      assert a + b == a;
    } else {
      var init, last := b[..|b| - 1], b[|b| - 1];
      assert (a + b)[..|a + b| - 1] == a + init;
      assert (a + b)[|a + b| - 1] == last;
      ActiveEmpowersConcat(a, init, time);
    }
  }

  /** One ability is collected per valid Active empower record, no more and no fewer. */
  lemma {:induction false} ActiveEmpowersCount(s: seq<EffectData>, time: real)
    ensures |ActiveEmpowers(s, time)| == |set i | 0 <= i < |s| && ActiveEmpower(s[i], time)|
    decreases |s|
  {
    var all := set i | 0 <= i < |s| && ActiveEmpower(s[i], time);
    if s == [] {
      assert all == {};
    } else {
      var init, last := s[..|s| - 1], s[|s| - 1];
      ActiveEmpowersCount(init, time);
      var before := set i | 0 <= i < |init| && ActiveEmpower(init[i], time);
      if ActiveEmpower(last, time) {
        assert all == before + {|s| - 1};
      } else {
        assert all == before;
      }
    }
  }

  /** Consumption keeps every identity, so a duplicate-free registry stays duplicate-free. */
  lemma ConsumedKeepsDistinct(s: seq<EffectData>, time: real)
    requires Distinct(s)
    ensures Distinct(Consumed(s, time))
  {
    var c := Consumed(s, time);
    forall a, b | 0 <= a < b < |c|
      ensures !SameIdentity(c[a], c[b])
    {
      assert SameIdentity(c[a], s[a]) && SameIdentity(c[b], s[b]);
    }
  }

  /** Without a valid Active empower nothing is collected. */
  lemma {:induction false} NoActiveEmpowers(s: seq<EffectData>, time: real)
    requires forall i :: 0 <= i < |s| ==> !ActiveEmpower(s[i], time)
    ensures ActiveEmpowers(s, time) == []
  {
    if s != [] {
      var init := s[..|s| - 1];
      assert forall i :: 0 <= i < |init| ==> init[i] == s[i];
      NoActiveEmpowers(init, time);
    }
  }

  /**
   * After one consumption no valid empower is Active any more: every valid
   * EmpowerNextAttack is on Cooldown, so an immediately following basic attack
   * collects nothing.
   */
  lemma SecondAutoNotEmpowered(s: seq<EffectData>, time: real)
    ensures forall i :: 0 <= i < |s| && IsValid(Consumed(s, time)[i], time) &&
                        Consumed(s, time)[i].result.EmpowerNextAttack? ==>
              Consumed(s, time)[i].result.state.Cooldown?
    ensures ActiveEmpowers(Consumed(s, time), time) == []
  {
    var c := Consumed(s, time);
    forall i | 0 <= i < |c|
      ensures !ActiveEmpower(c[i], time)
    {
      assert c[i] == ConsumeOne(s[i], time);
    }
    NoActiveEmpowers(c, time);
  }

  /**
   * Re-applying an Active empower while the valid record of that identity is on
   * Cooldown keeps it on Cooldown (the old payload wins), and only stretches its expiry.
   */
  lemma EmpowerOnCooldownStaysOnCooldown(s: seq<EffectData>, time: real, e: EffectData, i: nat)
    requires e.result.EmpowerNextAttack? && e.result.state.Active?
    requires FirstMatch(s, e) == Some(i)
    requires IsValid(s[i], time) && s[i].result == EmpowerNextAttack(Cooldown)
    ensures Upserted(s, time, e).Settled?
    ensures var l := Upserted(s, time, e).list;
            l[|l| - 1].result == EmpowerNextAttack(Cooldown) && l[|l| - 1].expiry == Max(s[i].expiry, e.expiry)
  {
  }

  /** Once the Cooldown record has expired, re-applying the Active empower installs it as given. */
  lemma EmpowerAfterCooldownIsActive(s: seq<EffectData>, time: real, e: EffectData, i: nat)
    requires e.result.EmpowerNextAttack? && e.result.state.Active?
    requires FirstMatch(s, e) == Some(i)
    requires s[i].expiry < time
    ensures Upserted(s, time, e) == Settled(RemoveAt(s, i) + [e])
    ensures ActiveEmpower(e, time) ==
              (ActiveEmpowers(RemoveAt(s, i) + [e], time) == ActiveEmpowers(RemoveAt(s, i), time) + [e.result.state.ability])
  {
    var l := RemoveAt(s, i) + [e];
    assert l[..|l| - 1] == RemoveAt(s, i);
    if !ActiveEmpower(e, time) {
      assert ActiveEmpowers(l, time) == ActiveEmpowers(RemoveAt(s, i), time);
    }
  }

  // ---------------------------------------------------------------------------
  // receive_damage: combining armor reducers
  // ---------------------------------------------------------------------------

  /**
   * `add_armor_reducer`: field-wise sum, except that percent armor penetration stacks
   * multiplicatively.
   */
  function AddArmorReducer(a: Reducer, b: Reducer): (c: Reducer)
    ensures c.flatArmorReduction == a.flatArmorReduction + b.flatArmorReduction
    ensures c.percentArmorReduction == a.percentArmorReduction + b.percentArmorReduction
    ensures c.flatArmorPen == a.flatArmorPen + b.flatArmorPen
    ensures c.percentBonusArmorPen == a.percentBonusArmorPen + b.percentBonusArmorPen
    ensures c.percentArmorPen == StackMultiplicativeReduction(a.percentArmorPen, b.percentArmorPen)
  {
    Reducer(a.flatArmorReduction + b.flatArmorReduction,
            a.percentArmorReduction + b.percentArmorReduction,
            a.flatArmorPen + b.flatArmorPen,
            StackMultiplicativeReduction(a.percentArmorPen, b.percentArmorPen),
            a.percentBonusArmorPen + b.percentBonusArmorPen)
  }

  /** Adding the all-zero reducer changes nothing. */
  lemma AddNoReducer(a: Reducer)
    ensures AddArmorReducer(a, NoReducer) == a
  {
  }

  /** `base` combined, in list order, with every valid ArmorReducing record of `s`. */
  function CombinedReducer(base: Reducer, s: seq<EffectData>, time: real): (r: Reducer)
    ensures (forall i :: 0 <= i < |s| && IsValid(s[i], time) && s[i].result.ArmorReducing? ==>
               s[i].result.reducer.flatArmorPen >= 0.0 && s[i].result.reducer.flatArmorReduction >= 0.0) ==>
            r.flatArmorPen >= base.flatArmorPen && r.flatArmorReduction >= base.flatArmorReduction
  {
    if s == [] then base
    else
      var init, last := s[..|s| - 1], s[|s| - 1];
      assert forall i :: 0 <= i < |init| ==> init[i] == s[i];
      var acc := CombinedReducer(base, init, time);
      if IsValid(last, time) && last.result.ArmorReducing? then AddArmorReducer(acc, last.result.reducer) else acc
  }

  /** Expired reducers are ignored: combining over the registry equals combining over its valid part. */
  lemma {:induction false} CombinedIgnoresExpired(base: Reducer, s: seq<EffectData>, time: real)
    ensures CombinedReducer(base, s, time) == CombinedReducer(base, ValidOf(s, time), time)
  {
    if s != [] {
      var init, last := s[..|s| - 1], s[|s| - 1];
      CombinedIgnoresExpired(base, init, time);
      var v := ValidOf(init, time);
      if IsValid(last, time) {
        assert ValidOf(s, time) == v + [last];
        assert (v + [last])[..|v + [last]| - 1] == v;
      } else {
        assert ValidOf(s, time) == v;
      }
    }
  }

  /** With no valid ArmorReducing record, the combination is the attacker's own reducer. */
  lemma {:induction false} CombinedWithoutReducers(base: Reducer, s: seq<EffectData>, time: real)
    requires forall i :: 0 <= i < |s| ==> !(IsValid(s[i], time) && s[i].result.ArmorReducing?)
    ensures CombinedReducer(base, s, time) == base
  {
    if s != [] {
      var init := s[..|s| - 1];
      assert forall i :: 0 <= i < |init| ==> init[i] == s[i];
      CombinedWithoutReducers(base, init, time);
    }
  }

  // ---------------------------------------------------------------------------
  // On-hit item effects and ability behaviours
  // ---------------------------------------------------------------------------

  datatype OnHitActivation = Auto | ActiveSpell

  /**
   * An item's on-hit behaviour: its trigger mode and its conversion into an effect
   * record for a given attacker at a given time.
   */
  datatype OnHit = OnHit(mode: OnHitActivation, toEffect: (Handle, real) -> EffectData)

  /** The records an execution pulls in: the on-hit items of `mode`, converted, in list order. */
  function OnHitEffects(items: seq<OnHit>, mode: OnHitActivation, attacker: Handle, time: real): (r: seq<EffectData>)
    ensures |r| <= |items|
    ensures forall x :: x in r ==>
              exists i :: 0 <= i < |items| && items[i].mode == mode && x == items[i].toEffect(attacker, time)
    ensures forall i :: 0 <= i < |items| && items[i].mode == mode ==> items[i].toEffect(attacker, time) in r
  {
    if items == [] then []
    else
      var rest := OnHitEffects(items[1..], mode, attacker, time);
      assert forall i :: 1 <= i < |items| ==> items[i] == items[1..][i - 1];
      (if items[0].mode == mode then [items[0].toEffect(attacker, time)] else []) + rest
  }

  /**
   * What an ability closure does.  The closures are registered outside the modelled
   * files; the model distinguishes the two things they do to the target: deal an
   * amount of physical damage (a function of the casting data), or mark the target
   * with an effect that lasts `ttl`.
   */
  datatype Behaviour =
    | DealDamage(amount: CastingData -> real)
    | MarkTarget(mark: PendingEffect)
}
