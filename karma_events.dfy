/**
  The signed karma changes the event handlers of the karma manager compute before
  handing them to AdjustKarma: character damage and healing, structure damage and
  repair (with the per-second cap), item repair, the reactor and fire handlers.
*/
module KarmaEvents {
  import opened KarmaRules

  /** An amount to pass to AdjustKarma, with the reason it is reported under. */
  datatype KarmaDelta = KarmaDelta(amount: real, reason: Reason)

  /** Doubling for a role bonus. */
  function RoleFactor(bonus: bool): real {
    if bonus then 2.0 else 1.0
  }

  // ---------------------------------------------------------------------------
  // Character damage and healing

  /** Enemy AI, another team, or traitors involved on either side. */
  predicate IsEnemy(target: Character, attacker: Character, traitors: TraitorFacts) {
    target.controlledByEnemyAI || target.teamId != attacker.teamId
    || traitors.targetIsTraitor || traitors.attackerIsTraitorWithTargetAsEnemy
  }

  /** One affliction's share; an affliction with no KarmaChangeOnApplied is skipped. */
  function AfflictionTerm(a: Affliction): real {
    if a.karmaChangeOnApplied == 0.0 then 0.0 else a.karmaChangeOnApplied * a.strength
  }

  /**
    The total reduction of the damage by the applied afflictions, added up in order;
    afflictions whose prefab declares no karma change reduce nothing.
  */
  function AfflictionKarmaOffset(afflictions: seq<Affliction>): (r: real)
    ensures (forall i :: 0 <= i < |afflictions| ==> afflictions[i].karmaChangeOnApplied == 0.0) ==> r == 0.0
    decreases |afflictions|
  {
    if afflictions == [] then 0.0
    else AfflictionKarmaOffset(afflictions[..|afflictions| - 1]) + AfflictionTerm(afflictions[|afflictions| - 1])
  }

  /** The offset of two batches of afflictions is the sum of their offsets. */
  lemma {:induction false} AfflictionOffsetConcat(xs: seq<Affliction>, ys: seq<Affliction>)
    ensures AfflictionKarmaOffset(xs + ys) == AfflictionKarmaOffset(xs) + AfflictionKarmaOffset(ys)
    decreases |ys|
  {
    if ys == [] {
      assert xs + ys == xs;
    } else {
      var zs := xs + ys;
      assert zs[..|zs| - 1] == xs + ys[..|ys| - 1];
      assert zs[|zs| - 1] == ys[|ys| - 1];
      AfflictionOffsetConcat(xs, ys[..|ys| - 1]);
    }
  }

  /**
    The damage the karma rules see: the same halving as AdjustKarma's for a clown
    target, then reduced by the afflictions; with only neutral afflictions it is
    just the halved damage.
  */
  function EffectiveDamage(target: Character, damage: real, afflictions: seq<Affliction>): (r: real)
    ensures r + AfflictionKarmaOffset(afflictions) == Halve(damage, IsClown(target))
    ensures (forall i :: 0 <= i < |afflictions| ==> afflictions[i].karmaChangeOnApplied == 0.0) ==>
              r == Halve(damage, IsClown(target))
  {
    (if IsClown(target) then damage * 0.5 else damage) - AfflictionKarmaOffset(afflictions)
  }

  /** Whatever the afflictions, the clown items take exactly half the raw damage off the effective damage. */
  lemma ClownDamageGap(t: Character, damage: real, afflictions: seq<Affliction>)
    ensures EffectiveDamage(t.(wearsClownMask := false), damage, afflictions)
            - EffectiveDamage(t.(wearsClownMask := true, wearsClownCostume := true), damage, afflictions) == damage * 0.5
  {
  }

  /** OnCharacterHealthChanged: the AdjustKarma call on the attacker, if any. */
  function CharacterHealthDelta(cfg: Config, target: Option<Character>, attacker: Option<Character>, damage: real,
                                afflictions: seq<Affliction>, traitors: TraitorFacts): (r: Option<KarmaDelta>)
    ensures r.None? <==>
              target.None? || attacker.None? || target.value.id == attacker.value.id
              || target.value.isDead || target.value.removed
              || (IsEnemy(target.value, attacker.value, traitors) && EffectiveDamage(target.value, damage, afflictions) <= 0.0)
  {
    if target.None? || attacker.None? then None
    else if target.value.id == attacker.value.id then None
    else if target.value.isDead || target.value.removed then None
    else
      var t, a := target.value, attacker.value;
      var d := EffectiveDamage(t, damage, afflictions);
      if IsEnemy(t, a, traitors) then
        if d > 0.0 then Some(KarmaDelta(d * cfg.damageEnemyKarmaIncrease * RoleFactor(a.job == SecurityOfficer), DamagedEnemy))
        else None
      else if d > 0.0 then Some(KarmaDelta(-d * cfg.damageFriendlyKarmaDecrease, DamagedFriendly))
      else Some(KarmaDelta(-d * cfg.healFriendlyKarmaIncrease * RoleFactor(a.job == MedicalDoctor), HealedFriendly))
  }

  /** The three kinds of outcome, by the classification of the target and the sign of the damage. */
  lemma CharacterHealthKinds(cfg: Config, t: Character, a: Character, damage: real,
                             afflictions: seq<Affliction>, traitors: TraitorFacts)
    requires t.id != a.id && !t.isDead && !t.removed
    ensures var r := CharacterHealthDelta(cfg, Some(t), Some(a), damage, afflictions, traitors);
            var d := EffectiveDamage(t, damage, afflictions);
            (IsEnemy(t, a, traitors) && d > 0.0 ==>
               r.Some? && r.value.reason == DamagedEnemy &&
               r.value.amount == d * cfg.damageEnemyKarmaIncrease * RoleFactor(a.job == SecurityOfficer)) &&
            (!IsEnemy(t, a, traitors) && d > 0.0 ==>
               r.Some? && r.value.reason == DamagedFriendly && r.value.amount == -d * cfg.damageFriendlyKarmaDecrease) &&
            (!IsEnemy(t, a, traitors) && d <= 0.0 ==>
               r.Some? && r.value.reason == HealedFriendly &&
               r.value.amount == -d * cfg.healFriendlyKarmaIncrease * RoleFactor(a.job == MedicalDoctor))
  {
  }

  /**
    The enemy test: positive damage counts as damaging an enemy exactly when the
    target is under enemy AI, on another team, a traitor, or an enemy of a traitor
    attacker's objective; otherwise it counts as damaging a friend.
  */
  lemma EnemyClassification(cfg: Config, t: Character, a: Character, damage: real,
                            afflictions: seq<Affliction>, traitors: TraitorFacts)
    requires t.id != a.id && !t.isDead && !t.removed
    requires EffectiveDamage(t, damage, afflictions) > 0.0
    ensures var r := CharacterHealthDelta(cfg, Some(t), Some(a), damage, afflictions, traitors);
            r.Some? && (r.value.reason == DamagedEnemy || r.value.reason == DamagedFriendly) &&
            (r.value.reason == DamagedEnemy <==>
               t.controlledByEnemyAI || t.teamId != a.teamId
               || traitors.targetIsTraitor || traitors.attackerIsTraitorWithTargetAsEnemy)
  {
  }

  /** With non-negative rates, damaging enemies and healing friends never cost karma, hurting friends never earns it. */
  lemma CharacterHealthSigns(cfg: Config, t: Character, a: Character, damage: real,
                             afflictions: seq<Affliction>, traitors: TraitorFacts)
    requires cfg.damageEnemyKarmaIncrease >= 0.0 && cfg.damageFriendlyKarmaDecrease >= 0.0
    requires cfg.healFriendlyKarmaIncrease >= 0.0
    ensures var r := CharacterHealthDelta(cfg, Some(t), Some(a), damage, afflictions, traitors);
            r.Some? ==> (r.value.reason == DamagedFriendly ==> r.value.amount <= 0.0) &&
                        (r.value.reason != DamagedFriendly ==> r.value.amount >= 0.0)
  {
    var r := CharacterHealthDelta(cfg, Some(t), Some(a), damage, afflictions, traitors);
    if r.Some? {
      var d := EffectiveDamage(t, damage, afflictions);
      if IsEnemy(t, a, traitors) {
        assert d * cfg.damageEnemyKarmaIncrease >= 0.0;
      } else if d > 0.0 {
        assert d * cfg.damageFriendlyKarmaDecrease >= 0.0;
      } else {
        assert -d * cfg.healFriendlyKarmaIncrease >= 0.0;
      }
    }
  }

  /** A security officer earns twice what any other job earns for the same damage to an enemy. */
  lemma SecurityOfficerDoubles(cfg: Config, t: Character, a: Character, damage: real,
                               afflictions: seq<Affliction>, traitors: TraitorFacts)
    requires a.job != SecurityOfficer
    requires CharacterHealthDelta(cfg, Some(t), Some(a), damage, afflictions, traitors).Some?
    requires IsEnemy(t, a, traitors)
    ensures var plain := CharacterHealthDelta(cfg, Some(t), Some(a), damage, afflictions, traitors);
            var officer := CharacterHealthDelta(cfg, Some(t), Some(a.(job := SecurityOfficer)), damage, afflictions, traitors);
            officer.Some? && officer.value.amount == 2.0 * plain.value.amount
  {
  }

  /** A medical doctor earns twice what any other job earns for the same healing of a friend. */
  lemma MedicalDoctorDoubles(cfg: Config, t: Character, a: Character, damage: real,
                             afflictions: seq<Affliction>, traitors: TraitorFacts)
    requires a.job != MedicalDoctor
    requires !IsEnemy(t, a, traitors) && t.id != a.id && !t.isDead && !t.removed
    requires EffectiveDamage(t, damage, afflictions) <= 0.0
    ensures var plain := CharacterHealthDelta(cfg, Some(t), Some(a), damage, afflictions, traitors);
            var doctor := CharacterHealthDelta(cfg, Some(t), Some(a.(job := MedicalDoctor)), damage, afflictions, traitors);
            plain.Some? && doctor.Some? && doctor.value.amount == 2.0 * plain.value.amount
  {
  }

  /**
    Without karma-changing afflictions, a clown-costumed target halves the karma
    effect of the same damage or healing, whatever its sign.
  */
  lemma ClownTargetHalves(cfg: Config, t: Character, a: Character, damage: real,
                          afflictions: seq<Affliction>, traitors: TraitorFacts)
    requires forall i :: 0 <= i < |afflictions| ==> afflictions[i].karmaChangeOnApplied == 0.0
    requires a.id != t.id
    ensures var plain := CharacterHealthDelta(cfg, Some(t.(wearsClownMask := false)), Some(a), damage, afflictions, traitors);
            var clown := CharacterHealthDelta(cfg, Some(t.(wearsClownMask := true, wearsClownCostume := true)), Some(a),
                                              damage, afflictions, traitors);
            (plain.None? <==> clown.None?) &&
            (plain.Some? ==> clown.value.amount * 2.0 == plain.value.amount && clown.value.reason == plain.value.reason)
  {
    var plainT := t.(wearsClownMask := false);
    var clownT := t.(wearsClownMask := true, wearsClownCostume := true);
    assert EffectiveDamage(plainT, damage, afflictions) == damage;
    assert EffectiveDamage(clownT, damage, afflictions) == damage * 0.5;
    assert IsEnemy(plainT, a, traitors) == IsEnemy(clownT, a, traitors);
  }

  // ---------------------------------------------------------------------------
  // Structure damage and repair

  /** The most structure damage per second that may still be charged. */
  function StructureDamageCap(cfg: Config): real
    requires cfg.structureDamageKarmaDecrease > 0.0
  {
    cfg.maxStructureDamageKarmaDecreasePerSecond / cfg.structureDamageKarmaDecrease
  }

  /** The accumulator update and the damage charged for one positive hit on an own-team structure. */
  datatype StructureCharge = StructureCharge(memory: ClientMemory, charged: Option<real>)

  /**
    The capped charge: the damage counts in full while the second's per-second
    figure, taken before this hit, plus the hit stays under the cap; otherwise only
    the room left under the cap counts, and nothing once there is none.
  */
  function ChargeStructureDamage(cfg: Config, mem: ClientMemory, damage: real): (r: StructureCharge)
    requires cfg.structureDamageKarmaDecrease > 0.0 && damage > 0.0
    ensures r.memory == mem.(structureDamageAccumulator := mem.structureDamageAccumulator + damage)
    ensures r.charged.Some? ==> 0.0 < r.charged.value <= damage
    ensures r.charged.Some? ==> mem.StructureDamagePerSecond() + r.charged.value <= StructureDamageCap(cfg)
    ensures mem.StructureDamagePerSecond() + damage < StructureDamageCap(cfg) ==> r.charged == Some(damage)
    ensures mem.StructureDamagePerSecond() < StructureDamageCap(cfg) <= mem.StructureDamagePerSecond() + damage ==>
              r.charged == Some(StructureDamageCap(cfg) - mem.StructureDamagePerSecond())
    ensures r.charged.None? <==> mem.StructureDamagePerSecond() >= StructureDamageCap(cfg)
  {
    var cap := StructureDamageCap(cfg);
    var perSecond := mem.StructureDamagePerSecond();
    var m := mem.(structureDamageAccumulator := mem.structureDamageAccumulator + damage);
    if perSecond + damage >= cap then
      var room := cap - perSecond;
      StructureCharge(m, if room <= 0.0 then None else Some(room))
    else
      StructureCharge(m, Some(damage))
  }

  /**
    The cap as the source computes it: the per-second figure is read after this
    hit is added to the accumulator, and the excess is formed as
    damage - (cap - perSecond).
  */
  function ChargeStructureDamageAsWritten(cfg: Config, mem: ClientMemory, damage: real): (r: StructureCharge)
    requires cfg.structureDamageKarmaDecrease > 0.0 && damage > 0.0
    ensures r.memory == mem.(structureDamageAccumulator := mem.structureDamageAccumulator + damage)
  {
    var cap := StructureDamageCap(cfg);
    var m := mem.(structureDamageAccumulator := mem.structureDamageAccumulator + damage);
    var perSecond := m.StructureDamagePerSecond();
    if perSecond + damage >= cap then
      var left := damage - (cap - perSecond);
      StructureCharge(m, if left <= 0.0 then None else Some(left))
    else
      StructureCharge(m, Some(damage))
  }

  /** As written, once the second's total passes the cap a hit is charged more than its own damage. */
  lemma AsWrittenOvercharges(cfg: Config, mem: ClientMemory, damage: real)
    requires cfg.structureDamageKarmaDecrease > 0.0 && damage > 0.0
    requires mem.structureDamageAccumulator + damage > StructureDamageCap(cfg)
    ensures var r := ChargeStructureDamageAsWritten(cfg, mem, damage);
            r.charged.Some? && r.charged.value > damage
  {
    var m := ChargeStructureDamageAsWritten(cfg, mem, damage).memory;
    assert m.StructureDamagePerSecond() >= mem.structureDamageAccumulator + damage;
  }

  /** A configuration in which the cap is 10 damage per second. */
  function CapTenConfig(): (cfg: Config)
    ensures cfg.structureDamageKarmaDecrease == 1.0 && cfg.maxStructureDamageKarmaDecreasePerSecond == 10.0
  {
    Config(0.0, 50.0, 0.0, 50.0, 0.0, 1.0, 10.0, 0.0, 0.0, 0.0, 0.0, 0.0, 0.0, 0.0, 0.0, 0.0, 0.0, 0.0, 5.0, 0, 0.0)
  }

  /**
    The input that shows it: on fresh memory, with a cap of 10, one hit of 20 is
    charged 30 as written, and 10 by the capped charge.
  */
  lemma AsWrittenTriplesOneHit()
    ensures ChargeStructureDamageAsWritten(CapTenConfig(), NewMemory(50.0), 20.0).charged == Some(30.0)
    ensures ChargeStructureDamage(CapTenConfig(), NewMemory(50.0), 20.0).charged == Some(10.0)
  {
    var cfg := CapTenConfig();
    assert StructureDamageCap(cfg) == 10.0;
  }

  /** The total damage charged for a run of hits with no rollover in between. */
  function ChargedTotal(cfg: Config, mem: ClientMemory, hits: seq<real>): real
    requires cfg.structureDamageKarmaDecrease > 0.0
    requires forall i :: 0 <= i < |hits| ==> hits[i] > 0.0
    decreases |hits|
  {
    if hits == [] then 0.0
    else
      var c := ChargeStructureDamage(cfg, mem, hits[0]);
      (if c.charged.Some? then c.charged.value else 0.0) + ChargedTotal(cfg, c.memory, hits[1..])
  }

  function Sum(xs: seq<real>): real
    decreases |xs|
  {
    if xs == [] then 0.0 else xs[0] + Sum(xs[1..])
  }

  /** The invariant behind the cap: what has been charged stays within both the damage done and the cap. */
  lemma {:induction false} ChargedTotalBounded(cfg: Config, mem: ClientMemory, hits: seq<real>, already: real)
    requires cfg.structureDamageKarmaDecrease > 0.0
    requires forall i :: 0 <= i < |hits| ==> hits[i] > 0.0
    requires already <= mem.structureDamageAccumulator && already <= StructureDamageCap(cfg)
    ensures already + ChargedTotal(cfg, mem, hits) <= StructureDamageCap(cfg)
    ensures already + ChargedTotal(cfg, mem, hits) <= mem.structureDamageAccumulator + Sum(hits)
    decreases |hits|
  {
    if hits != [] {
      var c := ChargeStructureDamage(cfg, mem, hits[0]);
      var now := if c.charged.Some? then c.charged.value else 0.0;
      var before := mem.StructureDamagePerSecond();
      if c.charged.Some? && before + hits[0] >= StructureDamageCap(cfg) {
        assert now == StructureDamageCap(cfg) - before;
      }
      ChargedTotalBounded(cfg, c.memory, hits[1..], already + now);
    }
  }

  /**
    Within one second after a rollover, however a burst of own-team structure
    damage is split into hits, the karma it costs (before clown halving) is at most
    MaxStructureDamageKarmaDecreasePerSecond.
  */
  lemma StructureLossPerSecondCapped(cfg: Config, mem: ClientMemory, hits: seq<real>, total: real)
    requires cfg.structureDamageKarmaDecrease > 0.0 && cfg.maxStructureDamageKarmaDecreasePerSecond >= 0.0
    requires forall i :: 0 <= i < |hits| ==> hits[i] > 0.0
    requires mem.structureDamageAccumulator == 0.0
    requires total == ChargedTotal(cfg, mem, hits)
    ensures total * cfg.structureDamageKarmaDecrease <= cfg.maxStructureDamageKarmaDecreasePerSecond
  {
    CapNonNegative(cfg);
    ChargedTotalBounded(cfg, mem, hits, 0.0);
    WithinCapScaled(cfg, total);
  }

  /** Over the same burst, the damage charged is never more than the damage done. */
  lemma StructureChargeWithinDamage(cfg: Config, mem: ClientMemory, hits: seq<real>)
    requires cfg.structureDamageKarmaDecrease > 0.0 && cfg.maxStructureDamageKarmaDecreasePerSecond >= 0.0
    requires forall i :: 0 <= i < |hits| ==> hits[i] > 0.0
    requires mem.structureDamageAccumulator == 0.0
    ensures ChargedTotal(cfg, mem, hits) <= Sum(hits)
  {
    CapNonNegative(cfg);
    ChargedTotalBounded(cfg, mem, hits, 0.0);
  }

  lemma CapNonNegative(cfg: Config)
    requires cfg.structureDamageKarmaDecrease > 0.0 && cfg.maxStructureDamageKarmaDecreasePerSecond >= 0.0
    ensures StructureDamageCap(cfg) >= 0.0
  {
  }

  /** An amount within the structure-damage cap costs at most the per-second maximum. */
  lemma WithinCapScaled(cfg: Config, x: real)
    requires cfg.structureDamageKarmaDecrease > 0.0 && x <= StructureDamageCap(cfg)
    ensures x * cfg.structureDamageKarmaDecrease <= cfg.maxStructureDamageKarmaDecreasePerSecond
  {
    var m, d := cfg.maxStructureDamageKarmaDecreasePerSecond, cfg.structureDamageKarmaDecrease;
    assert (m / d) * d == m;
  }

  /** OnStructureHealthChanged for a repair (non-positive damage): uncapped, doubled for mechanics. */
  function StructureRepairDelta(cfg: Config, attacker: Character, damageAmount: real): (r: real)
    ensures damageAmount <= 0.0 && cfg.structureRepairKarmaIncrease >= 0.0 ==> r >= 0.0
  {
    -damageAmount * cfg.structureRepairKarmaIncrease * RoleFactor(attacker.job == Mechanic)
  }

  /** A mechanic earns twice what any other job earns for the same repair. */
  lemma MechanicDoubles(cfg: Config, attacker: Character, damageAmount: real)
    requires attacker.job != Mechanic
    ensures StructureRepairDelta(cfg, attacker.(job := Mechanic), damageAmount)
            == 2.0 * StructureRepairDelta(cfg, attacker, damageAmount)
  {
  }

  // ---------------------------------------------------------------------------
  // Item repair, reactor and fire

  /** OnItemRepaired: proportional to the repair, twice as much with the item's required skills. */
  function ItemRepairDelta(cfg: Config, repairAmount: real, hasRequiredSkills: bool): (r: real)
    ensures repairAmount >= 0.0 && cfg.itemRepairKarmaIncrease >= 0.0 ==> r >= 0.0
  {
    repairAmount * cfg.itemRepairKarmaIncrease * RoleFactor(hasRequiredSkills)
  }

  /** Meeting the item's skill requirements doubles the reward for the same repair. */
  lemma RequiredSkillsDouble(cfg: Config, repairAmount: real)
    ensures ItemRepairDelta(cfg, repairAmount, true) == 2.0 * ItemRepairDelta(cfg, repairAmount, false)
  {
  }

  /** OnReactorOverHeating: a loss proportional to the time the reactor overheats. */
  function ReactorOverheatDelta(cfg: Config, deltaTime: real): (r: real)
    ensures deltaTime >= 0.0 && cfg.reactorOverheatKarmaDecrease >= 0.0 ==> r <= 0.0
    ensures deltaTime == 0.0 ==> r == 0.0
  {
    -cfg.reactorOverheatKarmaDecrease * deltaTime
  }

  /** OnExtinguishingFire: a gain proportional to the time spent extinguishing. */
  function ExtinguishFireDelta(cfg: Config, deltaTime: real): (r: real)
    ensures deltaTime >= 0.0 && cfg.extinguishFireKarmaIncrease >= 0.0 ==> r >= 0.0
    ensures deltaTime == 0.0 ==> r == 0.0
  {
    cfg.extinguishFireKarmaIncrease * deltaTime
  }
}
