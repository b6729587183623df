/**
  The pure rules of the server's karma (player-trust) bookkeeping in Barotrauma:
  the per-client memory record, the configuration values, and the signed karma
  changes that the event handlers and the per-tick update compute.  Karma and all
  rates are `real`; the game world enters only as plain values (a `Character`
  snapshot, team identifiers, job, equipment flags, traitor facts).
*/
module KarmaRules {

  datatype Option<T> = None | Some(value: T)

  type CharacterId = nat
  type WireId = nat
  type ConnectionId = nat

  /** The tunable values of the karma manager, set from the server configuration. */
  datatype Config = Config(
    karmaDecay: real,
    karmaDecayThreshold: real,
    karmaIncrease: real,
    karmaIncreaseThreshold: real,
    structureRepairKarmaIncrease: real,
    structureDamageKarmaDecrease: real,
    maxStructureDamageKarmaDecreasePerSecond: real,
    damageEnemyKarmaIncrease: real,
    damageFriendlyKarmaDecrease: real,
    healFriendlyKarmaIncrease: real,
    itemRepairKarmaIncrease: real,
    reactorOverheatKarmaDecrease: real,
    reactorMeltdownKarmaDecrease: real,
    extinguishFireKarmaIncrease: real,
    wireDisconnectionKarmaDecrease: real,
    steerSubKarmaIncrease: real,
    spamFilterKarmaDecrease: real,
    kickBanThreshold: real,
    karmaNotificationInterval: real,
    // the configured float after the (int) cast the manager applies to it
    allowedWireDisconnectionsPerMinute: nat,
    // the server setting AutoBanTime, in seconds
    autoBanTime: real)

  /** The job identifiers the rules single out; `NoJob` is a character without info. */
  datatype Job = Captain | Engineer | Mechanic | SecurityOfficer | MedicalDoctor | OtherJob | NoJob

  /** What the rules read of a character from the game simulation. */
  datatype Character = Character(
    id: CharacterId,
    teamId: int,
    job: Job,
    wearsClownMask: bool,
    wearsClownCostume: bool,
    isDead: bool,
    removed: bool,
    controlledByEnemyAI: bool,
    // the selected construction has a Steering component
    operatingSteering: bool)

  /** Both clown items equipped: the condition under which karma effects are halved. */
  predicate IsClown(c: Character) {
    c.wearsClownMask && c.wearsClownCostume
  }

  /** What the traitor manager says about one attack (all false when there are no traitors). */
  datatype TraitorFacts = TraitorFacts(targetIsTraitor: bool, attackerIsTraitorWithTargetAsEnemy: bool)

  /** An affliction applied by an attack, with its prefab's KarmaChangeOnApplied. */
  datatype Affliction = Affliction(karmaChangeOnApplied: real, strength: real)

  /** The reason a karma change is reported with in test mode (NoReason: the empty reason). */
  datatype Reason =
    | NoReason | DisconnectedWires | SteeringSub | DamagedEnemy | DamagedFriendly | HealedFriendly
    | DamagedStructures | RepairedStructures | RepairedItem | ReactorOverheat | ReactorMeltdown
    | ExtinguishedFire | SpamFilter

  /** The direct chat messages the manager sends; the localized texts are external. */
  datatype MessageKind =
    | TestKarmaChanged(decreased: bool, karma: real, reason: Reason)
    | BanWarning
    | DecreasedUnknownAmount
    | IncreasedUnknownAmount
    | NotReallyBanned

  /** What the per-client rules ask the server to do for that client. */
  datatype Notice = Message(kind: MessageKind) | CureInvertControls

  function MessageNotices(m: Option<MessageKind>): (r: seq<Notice>)
    ensures |r| <= 1
    ensures r == [] <==> m.None?
  {
    if m.Some? then [Message(m.value)] else []
  }

  function Abs(x: real): real {
    if x < 0.0 then -x else x
  }

  function Lookup<K, V>(m: map<K, V>, k: K): Option<V> {
    if k in m then Some(m[k]) else None
  }

  // ---------------------------------------------------------------------------
  // Per-client memory

  datatype WireEvent = WireEvent(wire: WireId, time: real)

  /**
    The manager's memory of one client.  `structureDamageRate` is the private
    backing field of the StructureDamagePerSecond property.
  */
  datatype ClientMemory = ClientMemory(
    wireDisconnectTime: seq<WireEvent>,
    previousNotifiedKarma: real,
    structureDamageAccumulator: real,
    structureDamageRate: real)
  {
    /** The property getter: the larger of this second's total and the last second's rate. */
    function StructureDamagePerSecond(): (r: real)
      ensures r >= structureDamageAccumulator && r >= structureDamageRate
      ensures r == structureDamageAccumulator || r == structureDamageRate
    {
      if structureDamageAccumulator >= structureDamageRate then structureDamageAccumulator
      else structureDamageRate
    }
  }

  /** The memory GetClientMemory creates: last notified karma is the current karma. */
  function NewMemory(karma: real): ClientMemory {
    ClientMemory([], karma, 0.0, 0.0)
  }

  /** The memory OnWireDisconnected creates: every field at its default, so 0. */
  function DefaultMemory(): ClientMemory {
    ClientMemory([], 0.0, 0.0, 0.0)
  }

  /** GetClientMemory: the stored memory, or a new one for the client's current karma. */
  function MemoryOrNew(mem: Option<ClientMemory>, karma: real): (r: ClientMemory)
    ensures mem.Some? ==> r == mem.value
    ensures mem.None? ==> r.previousNotifiedKarma == karma && r.wireDisconnectTime == []
                          && r.structureDamageAccumulator == 0.0 && r.structureDamageRate == 0.0
  {
    if mem.Some? then mem.value else NewMemory(karma)
  }

  /** The once-per-second rollover: the rate becomes this second's total, the total restarts. */
  function Rollover(m: ClientMemory): (r: ClientMemory)
    ensures r.structureDamageAccumulator == 0.0
    ensures m.structureDamageAccumulator >= 0.0 ==> r.StructureDamagePerSecond() == m.structureDamageAccumulator
    ensures r.wireDisconnectTime == m.wireDisconnectTime
    ensures r.previousNotifiedKarma == m.previousNotifiedKarma
  {
    m.(structureDamageRate := m.structureDamageAccumulator, structureDamageAccumulator := 0.0)
  }

  // ---------------------------------------------------------------------------
  // Clown halving (AdjustKarma)

  /** The amount AdjustKarma adds: halved when the target wears both clown items. */
  function Halve(amount: real, clown: bool): (r: real)
    ensures clown ==> r + r == amount
    ensures !clown ==> r == amount
    ensures (r > 0.0 <==> amount > 0.0) && (r < 0.0 <==> amount < 0.0)
    ensures Abs(r) <= Abs(amount)
  {
    if clown then amount * 0.5 else amount
  }

  lemma HalveIsOdd(amount: real, clown: bool)
    ensures Halve(-amount, clown) == -Halve(amount, clown)
  {
  }

  // ---------------------------------------------------------------------------
  // Decay and recovery toward the neutral band

  /**
    One tick of passive drift for a present, non-removed character: inside the
    neutral band karma stays put; with non-negative steps it only moves toward the
    band, and a step no wider than the band never carries it past the far edge.
  */
  function DecayedKarma(cfg: Config, karma: real, deltaTime: real): (r: real)
    ensures cfg.karmaIncreaseThreshold <= karma <= cfg.karmaDecayThreshold ==> r == karma
    ensures cfg.karmaDecay * deltaTime >= 0.0 && cfg.karmaIncrease * deltaTime >= 0.0 ==>
              (karma > cfg.karmaDecayThreshold ==> r <= karma) && (karma <= cfg.karmaDecayThreshold ==> r >= karma)
    ensures (0.0 <= cfg.karmaDecay * deltaTime <= cfg.karmaDecayThreshold - cfg.karmaIncreaseThreshold
             && karma >= cfg.karmaIncreaseThreshold) ==> r >= cfg.karmaIncreaseThreshold
    ensures (0.0 <= cfg.karmaIncrease * deltaTime <= cfg.karmaDecayThreshold - cfg.karmaIncreaseThreshold
             && karma <= cfg.karmaDecayThreshold) ==> r <= cfg.karmaDecayThreshold
  {
    if karma > cfg.karmaDecayThreshold then karma - cfg.karmaDecay * deltaTime
    else if karma < cfg.karmaIncreaseThreshold then karma + cfg.karmaIncrease * deltaTime
    else karma
  }

  /** Each branch of the drift, by the comparisons that select it. */
  lemma DecayTowardNeutral(cfg: Config, karma: real, deltaTime: real)
    ensures karma > cfg.karmaDecayThreshold ==>
              DecayedKarma(cfg, karma, deltaTime) == karma - cfg.karmaDecay * deltaTime
    ensures karma <= cfg.karmaDecayThreshold && karma < cfg.karmaIncreaseThreshold ==>
              DecayedKarma(cfg, karma, deltaTime) == karma + cfg.karmaIncrease * deltaTime
  {
  }

  /** Karma after `n` ticks of length `deltaTime` with no events. */
  function DriftTicks(cfg: Config, karma: real, deltaTime: real, n: nat): real
    decreases n
  {
    if n == 0 then karma else DriftTicks(cfg, DecayedKarma(cfg, karma, deltaTime), deltaTime, n - 1)
  }

  /**
    Without events, karma at or above the increase threshold never rises and never
    falls below that threshold, as long as one decay step is no wider than the
    neutral band; and it loses a full step on every tick it stays above the decay
    threshold, so it reaches the band.
  */
  lemma {:induction false} DriftFromAbove(cfg: Config, karma: real, deltaTime: real, n: nat)
    requires 0.0 <= cfg.karmaDecay * deltaTime <= cfg.karmaDecayThreshold - cfg.karmaIncreaseThreshold
    requires karma >= cfg.karmaIncreaseThreshold
    ensures cfg.karmaIncreaseThreshold <= DriftTicks(cfg, karma, deltaTime, n) <= karma
    ensures DriftTicks(cfg, karma, deltaTime, n) <= cfg.karmaDecayThreshold
            || DriftTicks(cfg, karma, deltaTime, n) == karma - (n as real) * (cfg.karmaDecay * deltaTime)
    ensures (n as real) * (cfg.karmaDecay * deltaTime) >= karma - cfg.karmaDecayThreshold ==>
              DriftTicks(cfg, karma, deltaTime, n) <= cfg.karmaDecayThreshold
    decreases n
  {
    if n > 0 {
      var next := DecayedKarma(cfg, karma, deltaTime);
      var step := cfg.karmaDecay * deltaTime;
      DriftFromAbove(cfg, next, deltaTime, n - 1);
      if karma > cfg.karmaDecayThreshold {
        assert next == karma - step;
        assert next - ((n - 1) as real) * step == karma - (n as real) * step;
      } else {
        assert next == karma;
        DriftStaysPut(cfg, karma, deltaTime, n - 1);
      }
    }
  }

  /** The mirror image: at or below the decay threshold karma never falls and never leaves the band upward. */
  lemma {:induction false} DriftFromBelow(cfg: Config, karma: real, deltaTime: real, n: nat)
    requires 0.0 <= cfg.karmaIncrease * deltaTime <= cfg.karmaDecayThreshold - cfg.karmaIncreaseThreshold
    requires karma <= cfg.karmaDecayThreshold
    ensures karma <= DriftTicks(cfg, karma, deltaTime, n) <= cfg.karmaDecayThreshold
    ensures DriftTicks(cfg, karma, deltaTime, n) >= cfg.karmaIncreaseThreshold
            || DriftTicks(cfg, karma, deltaTime, n) == karma + (n as real) * (cfg.karmaIncrease * deltaTime)
    ensures (n as real) * (cfg.karmaIncrease * deltaTime) >= cfg.karmaIncreaseThreshold - karma ==>
              DriftTicks(cfg, karma, deltaTime, n) >= cfg.karmaIncreaseThreshold
    decreases n
  {
    if n > 0 {
      var next := DecayedKarma(cfg, karma, deltaTime);
      var step := cfg.karmaIncrease * deltaTime;
      DriftFromBelow(cfg, next, deltaTime, n - 1);
      if karma < cfg.karmaIncreaseThreshold {
        assert next == karma + step;
        assert next + ((n - 1) as real) * step == karma + (n as real) * step;
      } else {
        assert next == karma;
        DriftStaysPut(cfg, karma, deltaTime, n - 1);
      }
    }
  }

  /** Inside the neutral band karma does not drift at all. */
  lemma {:induction false} DriftStaysPut(cfg: Config, karma: real, deltaTime: real, n: nat)
    requires cfg.karmaIncreaseThreshold <= karma <= cfg.karmaDecayThreshold
    ensures DriftTicks(cfg, karma, deltaTime, n) == karma
    decreases n
  {
    if n > 0 {
      assert DecayedKarma(cfg, karma, deltaTime) == karma;
      DriftStaysPut(cfg, karma, deltaTime, n - 1);
    }
  }

  // ---------------------------------------------------------------------------
  // Space herpes bands

  /** The affliction strength chosen by karma band rather than linearly. */
  function HerpesStrength(karma: real): (s: real)
    ensures s == 0.0 || s == 30.0 || s == 60.0 || s == 100.0
    ensures s == 100.0 <==> karma < 20.0
    ensures s == 60.0 <==> 20.0 <= karma < 30.0
    ensures s == 30.0 <==> 30.0 <= karma < 40.0
    ensures s == 0.0 <==> karma >= 40.0
  {
    if karma < 20.0 then 100.0
    else if karma < 30.0 then 60.0
    else if karma < 40.0 then 30.0
    else 0.0
  }

  /** More karma never means a stronger affliction. */
  lemma HerpesNonIncreasing(lower: real, higher: real)
    requires lower <= higher
    ensures HerpesStrength(higher) <= HerpesStrength(lower)
  {
  }

  /** The character's herpes affliction after the update, and whether invertcontrols is reduced. */
  datatype HerpesChange = HerpesChange(affliction: Option<real>, cureInvertControls: bool)

  function HerpesUpdate(existing: Option<real>, strength: real): (r: HerpesChange)
    ensures r.affliction.None? <==> existing.None? && strength <= 0.0
    ensures r.affliction.Some? ==> r.affliction.value == strength
    ensures r.cureInvertControls <==> existing.Some? && strength <= 0.0
  {
    if existing.None? && strength > 0.0 then HerpesChange(Some(strength), false)
    else if existing.Some? then HerpesChange(Some(strength), strength <= 0.0)
    else HerpesChange(None, false)
  }

  // ---------------------------------------------------------------------------
  // Wire-disconnection window

  /** The list after RemoveAll(w => w.First == wire). */
  function WithoutWire(ws: seq<WireEvent>, w: WireId): (r: seq<WireEvent>)
    ensures |r| <= |ws|
    ensures forall e :: e in r <==> e in ws && e.wire != w
    decreases |ws|
  {
    if ws == [] then []
    else (if ws[0].wire == w then [] else [ws[0]]) + WithoutWire(ws[1..], w)
  }

  /** Removing one wire's entries keeps the order of the rest: it distributes over concatenation. */
  lemma {:induction false} WithoutWireConcat(a: seq<WireEvent>, b: seq<WireEvent>, w: WireId)
    ensures WithoutWire(a + b, w) == WithoutWire(a, w) + WithoutWire(b, w)
    decreases |a|
  {
    if a == [] {
      assert a + b == b;
    } else {
      assert (a + b)[0] == a[0];
      assert (a + b)[1..] == a[1..] + b;
      WithoutWireConcat(a[1..], b, w);
    }
  }

  /** A list without that wire is left as it is. */
  lemma {:induction false} WithoutAbsentWire(ws: seq<WireEvent>, w: WireId)
    requires forall i :: 0 <= i < |ws| ==> ws[i].wire != w
    ensures WithoutWire(ws, w) == ws
    decreases |ws|
  {
    if ws != [] {
      WithoutAbsentWire(ws[1..], w);
    }
  }

  /** A list that holds the wire gets strictly shorter. */
  lemma {:induction false} WithoutPresentWire(ws: seq<WireEvent>, w: WireId, k: nat)
    requires k < |ws| && ws[k].wire == w
    ensures |WithoutWire(ws, w)| < |ws|
    decreases |ws|
  {
    if k > 0 {
      WithoutPresentWire(ws[1..], w, k - 1);
    }
  }

  /** OnWireDisconnected's list update: drop the wire's entries, then append it with the current time. */
  function RecordWire(ws: seq<WireEvent>, w: WireId, now: real): (r: seq<WireEvent>)
    ensures |r| >= 1 && r[|r| - 1] == WireEvent(w, now)
    ensures forall i :: 0 <= i < |r| - 1 ==> r[i].wire != w
    ensures forall e :: e in r[..|r| - 1] <==> e in ws && e.wire != w
    ensures |r| <= |ws| + 1
  {
    var rest := WithoutWire(ws, w);
    assert (rest + [WireEvent(w, now)])[..|rest|] == rest;
    assert forall i :: 0 <= i < |rest| ==> rest[i] in rest;
    rest + [WireEvent(w, now)]
  }

  /** Recording a wire already in the list does not lengthen it. */
  lemma RecordKnownWire(ws: seq<WireEvent>, w: WireId, now: real, k: nat)
    requires k < |ws| && ws[k].wire == w
    ensures |RecordWire(ws, w, now)| <= |ws|
  {
    WithoutPresentWire(ws, w, k);
  }

  /** Recording a wire keeps every other entry, in its order, ahead of the new one. */
  lemma RecordWireKeepsOrder(a: seq<WireEvent>, b: seq<WireEvent>, w: WireId, now: real)
    requires forall i :: 0 <= i < |a| ==> a[i].wire != w
    requires forall i :: 0 <= i < |b| ==> b[i].wire != w
    ensures RecordWire(a + b, w, now) == a + b + [WireEvent(w, now)]
  {
    WithoutWireConcat(a, b, w);
    WithoutAbsentWire(a, w);
    WithoutAbsentWire(b, w);
  }

  /**
    Disconnecting a wire again moves its single entry to the end with the new time,
    and every other entry keeps its place in order.
  */
  lemma RecordWireReplaces(a: seq<WireEvent>, b: seq<WireEvent>, w: WireId, earlier: real, now: real)
    requires forall i :: 0 <= i < |a| ==> a[i].wire != w
    requires forall i :: 0 <= i < |b| ==> b[i].wire != w
    ensures RecordWire(a + [WireEvent(w, earlier)] + b, w, now) == a + b + [WireEvent(w, now)]
  {
    var e := WireEvent(w, earlier);
    WithoutWireConcat(a, [e], w);
    WithoutDroppedWire(e, w);
    WithoutAbsentWire(a, w);
    assert WithoutWire(a + [e], w) == a;
    WithoutWireConcat(a + [e], b, w);
    WithoutAbsentWire(b, w);
    assert WithoutWire(a + [e] + b, w) == a + b;
  }

  /** A single entry of the wire being removed leaves nothing. */
  lemma WithoutDroppedWire(e: WireEvent, w: WireId)
    requires e.wire == w
    ensures WithoutWire([e], w) == []
  {
    assert [e][1..] == [];
  }

  /** Every entry of the list is younger than 60 seconds at time `now`. */
  predicate AllRecent(ws: seq<WireEvent>, now: real) {
    forall i :: 0 <= i < |ws| ==> now - ws[i].time < 60.0
  }

  /** The penalty for excessive disconnection: halved for engineers. */
  function WirePenalty(cfg: Config, job: Job): (r: real)
    ensures job == Engineer ==> r + r == -cfg.wireDisconnectionKarmaDecrease
    ensures job != Engineer ==> r == -cfg.wireDisconnectionKarmaDecrease
  {
    var karmaDecrease := -cfg.wireDisconnectionKarmaDecrease;
    if job == Engineer then karmaDecrease * 0.5 else karmaDecrease
  }

  datatype WireCheck = WireCheck(retained: seq<WireEvent>, penalty: Option<real>)

  /** The trim-and-penalise step of UpdateClient for a client's wire list. */
  function CheckWireDisconnections(cfg: Config, ws: seq<WireEvent>, now: real, job: Job): (r: WireCheck)
    ensures |r.retained| <= cfg.allowedWireDisconnectionsPerMinute
    ensures |ws| <= cfg.allowedWireDisconnectionsPerMinute ==> r == WireCheck(ws, None)
    ensures |ws| > cfg.allowedWireDisconnectionsPerMinute ==>
              |r.retained| == cfg.allowedWireDisconnectionsPerMinute &&
              ws == ws[..|ws| - |r.retained|] + r.retained
    ensures r.penalty.Some? <==> |ws| > cfg.allowedWireDisconnectionsPerMinute && AllRecent(r.retained, now)
    ensures r.penalty.Some? ==> r.penalty.value == WirePenalty(cfg, job)
  {
    var allowed := cfg.allowedWireDisconnectionsPerMinute;
    if |ws| > allowed then
      var kept := ws[|ws| - allowed..];
      assert ws == ws[..|ws| - allowed] + kept;
      WireCheck(kept, if AllRecent(kept, now) then Some(WirePenalty(cfg, job)) else None)
    else
      WireCheck(ws, None)
  }

  /**
    One more disconnection than allowed, all within the last minute, is penalised;
    if the oldest retained one is a minute old or more, nothing is.
  */
  lemma WireWindowScenario(cfg: Config, ws: seq<WireEvent>, now: real, job: Job)
    requires |ws| == cfg.allowedWireDisconnectionsPerMinute + 1
    ensures (forall i :: 0 <= i < |ws| ==> now - ws[i].time < 60.0) ==>
              CheckWireDisconnections(cfg, ws, now, job).penalty == Some(WirePenalty(cfg, job))
    ensures |ws| >= 2 && now - ws[1].time >= 60.0 ==>
              CheckWireDisconnections(cfg, ws, now, job).penalty == None
  {
    var r := CheckWireDisconnections(cfg, ws, now, job);
    assert forall i :: 0 <= i < |r.retained| ==> r.retained[i] == ws[i + 1];
    if |ws| >= 2 && now - ws[1].time >= 60.0 {
      assert now - r.retained[0].time >= 60.0;
    }
  }

  // ---------------------------------------------------------------------------
  // Notifications

  /** Which message SendKarmaNotifications sends, if any. */
  function NotifyDecision(cfg: Config, testMode: bool, karma: real, previous: real, reason: Reason): (r: Option<MessageKind>)
    ensures r.Some? <==> Abs(karma - previous) > cfg.karmaNotificationInterval
                         || (testMode && Abs(karma - previous) > 2.0)
    ensures r.Some? && testMode ==> r.value == TestKarmaChanged(karma - previous < 0.0, karma, reason)
    ensures r == Some(BanWarning) <==>
              r.Some? && !testMode && Abs(cfg.kickBanThreshold - karma) < cfg.karmaNotificationInterval
    ensures r.Some? && !testMode && r.value != BanWarning ==>
              r.value == (if karma - previous < 0.0 then DecreasedUnknownAmount else IncreasedUnknownAmount)
  {
    var karmaChange := karma - previous;
    if Abs(karmaChange) > cfg.karmaNotificationInterval || (testMode && Abs(karmaChange) > 2.0) then
      if testMode then Some(TestKarmaChanged(karmaChange < 0.0, karma, reason))
      else if Abs(cfg.kickBanThreshold - karma) < cfg.karmaNotificationInterval then Some(BanWarning)
      else Some(if karmaChange < 0.0 then DecreasedUnknownAmount else IncreasedUnknownAmount)
    else None
  }

  datatype NotifyResult = NotifyResult(memory: ClientMemory, message: Option<MessageKind>)

  /** SendKarmaNotifications on a client's (possibly absent) memory. */
  function NotifyStep(cfg: Config, testMode: bool, mem: Option<ClientMemory>, karma: real, reason: Reason): (r: NotifyResult)
    ensures r.message == NotifyDecision(cfg, testMode, karma, MemoryOrNew(mem, karma).previousNotifiedKarma, reason)
    ensures r.message.Some? ==> r.memory.previousNotifiedKarma == karma
    ensures r.message.None? ==> r.memory == MemoryOrNew(mem, karma)
    ensures r.memory == MemoryOrNew(mem, karma).(previousNotifiedKarma := r.memory.previousNotifiedKarma)
  {
    var m := MemoryOrNew(mem, karma);
    var msg := NotifyDecision(cfg, testMode, karma, m.previousNotifiedKarma, reason);
    NotifyResult(if msg.Some? then m.(previousNotifiedKarma := karma) else m, msg)
  }

  /** A notification resets the reference point: the same karma again sends nothing. */
  lemma NotifyTwiceSilent(cfg: Config, testMode: bool, mem: Option<ClientMemory>, karma: real, r1: Reason, r2: Reason)
    requires cfg.karmaNotificationInterval >= 0.0
    ensures var first := NotifyStep(cfg, testMode, mem, karma, r1);
            first.memory.previousNotifiedKarma == karma ||
            first.memory.previousNotifiedKarma == MemoryOrNew(mem, karma).previousNotifiedKarma
    ensures var first := NotifyStep(cfg, testMode, mem, karma, r1);
            first.message.Some? ==>
              NotifyStep(cfg, testMode, Some(first.memory), karma, r2) == NotifyResult(first.memory, None)
  {
  }

  /** Memory created on demand starts at the current karma, so it never notifies at once. */
  lemma NewMemorySilent(cfg: Config, testMode: bool, karma: real, reason: Reason)
    requires cfg.karmaNotificationInterval >= 0.0
    ensures NotifyStep(cfg, testMode, None, karma, reason) == NotifyResult(NewMemory(karma), None)
  {
  }

  /** Memory created by a wire disconnection starts at 0, so any karma beyond the interval notifies. */
  lemma DefaultMemoryNotifies(cfg: Config, karma: real, reason: Reason)
    requires Abs(karma) > cfg.karmaNotificationInterval
    ensures NotifyStep(cfg, false, Some(DefaultMemory()), karma, reason).message.Some?
  {
  }

  // ---------------------------------------------------------------------------
  // Applying a karma change to a tracked client

  datatype KarmaApplied = KarmaApplied(karma: real, memory: Option<ClientMemory>, message: Option<MessageKind>)

  /** AdjustKarma once the client has been found: halve for clowns, add, notify in test mode. */
  function ApplyKarma(cfg: Config, testMode: bool, clown: bool, karma: real, mem: Option<ClientMemory>,
                      amount: real, reason: Reason): (r: KarmaApplied)
    ensures r.karma - karma == Halve(amount, clown)
    ensures !testMode ==> r.memory == mem && r.message.None?
    ensures testMode ==> r.memory == Some(NotifyStep(cfg, true, mem, r.karma, reason).memory)
                         && r.message == NotifyStep(cfg, true, mem, r.karma, reason).message
  {
    var k := karma + Halve(amount, clown);
    if testMode then
      var n := NotifyStep(cfg, true, mem, k, reason);
      KarmaApplied(k, Some(n.memory), n.message)
    else KarmaApplied(k, mem, None)
  }

  // ---------------------------------------------------------------------------
  // The per-client step of the tick

  datatype TickOutcome = TickOutcome(
    karma: real,
    herpes: Option<real>,
    memory: ClientMemory,
    notices: seq<Notice>,
    banned: bool)

  /** The ban check ending UpdateClient: queue the client, or in test mode reset karma to 50. */
  function BanCheck(cfg: Config, testMode: bool, isOwner: bool, o: TickOutcome): (r: TickOutcome)
    ensures r.banned <==> o.banned || (o.karma < cfg.kickBanThreshold && !isOwner && !testMode)
    ensures o.karma < cfg.kickBanThreshold && !isOwner && testMode ==>
              r.karma == 50.0 && r.notices == o.notices + [Message(NotReallyBanned)]
    ensures !(o.karma < cfg.kickBanThreshold && !isOwner && testMode) ==>
              r.karma == o.karma && r.notices == o.notices
    ensures r.memory == o.memory && r.herpes == o.herpes
  {
    if o.karma < cfg.kickBanThreshold && !isOwner then
      if testMode then o.(karma := 50.0, notices := o.notices + [Message(NotReallyBanned)])
      else o.(banned := true)
    else o
  }

  /** The wire phase of UpdateClient: trim the list, and apply the penalty if the window is full. */
  function WireStep(cfg: Config, testMode: bool, c: Character, karma: real, mem: ClientMemory, now: real): (r: KarmaApplied)
    ensures var wc := CheckWireDisconnections(cfg, mem.wireDisconnectTime, now, c.job);
            r.karma == karma + (if wc.penalty.Some? then Halve(wc.penalty.value, IsClown(c)) else 0.0)
    ensures r.memory.Some?
    ensures var wc := CheckWireDisconnections(cfg, mem.wireDisconnectTime, now, c.job);
            r.memory.value == mem.(wireDisconnectTime := wc.retained, previousNotifiedKarma := r.memory.value.previousNotifiedKarma)
    ensures !testMode ==> r.message.None? && r.memory.value.previousNotifiedKarma == mem.previousNotifiedKarma
  {
    var wc := CheckWireDisconnections(cfg, mem.wireDisconnectTime, now, c.job);
    var m1 := mem.(wireDisconnectTime := wc.retained);
    if wc.penalty.Some? then ApplyKarma(cfg, testMode, IsClown(c), karma, Some(m1), wc.penalty.value, DisconnectedWires)
    else KarmaApplied(karma, Some(m1), None)
  }

  /** The steering phase of UpdateClient: a captain at the helm earns the per-second bonus. */
  function SteerStep(cfg: Config, testMode: bool, c: Character, karma: real, mem: ClientMemory, deltaTime: real): (r: KarmaApplied)
    ensures r.karma == karma + (if c.job == Captain && c.operatingSteering
                                then Halve(cfg.steerSubKarmaIncrease * deltaTime, IsClown(c)) else 0.0)
    ensures r.memory.Some?
    ensures r.memory.value == mem.(previousNotifiedKarma := r.memory.value.previousNotifiedKarma)
    ensures !testMode ==> r.message.None? && r.memory == Some(mem)
  {
    if c.job == Captain && c.operatingSteering
    then ApplyKarma(cfg, testMode, IsClown(c), karma, Some(mem), cfg.steerSubKarmaIncrease * deltaTime, SteeringSub)
    else KarmaApplied(karma, Some(mem), None)
  }

  /** Everything UpdateClient does before the ban check, for a client whose memory exists. */
  function DriftAndPenalties(cfg: Config, testMode: bool, character: Option<Character>, karma: real,
                             herpes: Option<real>, mem: ClientMemory, deltaTime: real, now: real): (r: TickOutcome)
    ensures !r.banned
    ensures character.None? || character.value.removed ==> r == TickOutcome(karma, herpes, mem, [], false)
  {
    if character.Some? && !character.value.removed then
      var c := character.value;
      var k1 := DecayedKarma(cfg, karma, deltaTime);
      var hc := HerpesUpdate(herpes, HerpesStrength(k1));
      var cure := if hc.cureInvertControls then [CureInvertControls] else [];
      var a := WireStep(cfg, testMode, c, k1, mem, now);
      var b := SteerStep(cfg, testMode, c, a.karma, a.memory.value, deltaTime);
      TickOutcome(b.karma, hc.affliction, b.memory.value, cure + MessageNotices(a.message) + MessageNotices(b.message), false)
    else
      TickOutcome(karma, herpes, mem, [], false)
  }

  /** The live-character tick, phase by phase: drift, herpes, wires, steering. */
  lemma LiveTickSteps(cfg: Config, testMode: bool, c: Character, karma: real,
                       herpes: Option<real>, mem: ClientMemory, deltaTime: real, now: real)
    requires !c.removed
    ensures var r := DriftAndPenalties(cfg, testMode, Some(c), karma, herpes, mem, deltaTime, now);
            var hc := HerpesUpdate(herpes, HerpesStrength(DecayedKarma(cfg, karma, deltaTime)));
            var a := WireStep(cfg, testMode, c, DecayedKarma(cfg, karma, deltaTime), mem, now);
            var b := SteerStep(cfg, testMode, c, a.karma, a.memory.value, deltaTime);
            r.karma == b.karma && r.herpes == hc.affliction && r.memory == b.memory.value &&
            r.notices == (if hc.cureInvertControls then [CureInvertControls] else [])
                         + MessageNotices(a.message) + MessageNotices(b.message)
  {
  }

  /**
    The live-character tick in closed form: the drifted karma plus the (clown-halved)
    wire penalty when the window is full and the captain's steering bonus; herpes at
    the band of the drifted karma; the wire list trimmed, the structure figures kept;
    outside test mode the only notice is the invertcontrols reduction, and the last
    notified karma is untouched.
  */
  lemma LiveTickPhases(cfg: Config, testMode: bool, c: Character, karma: real,
                       herpes: Option<real>, mem: ClientMemory, deltaTime: real, now: real)
    requires !c.removed
    ensures var r := DriftAndPenalties(cfg, testMode, Some(c), karma, herpes, mem, deltaTime, now);
            var k1 := DecayedKarma(cfg, karma, deltaTime);
            var wc := CheckWireDisconnections(cfg, mem.wireDisconnectTime, now, c.job);
            r.karma == k1 + (if wc.penalty.Some? then Halve(wc.penalty.value, IsClown(c)) else 0.0)
                          + (if c.job == Captain && c.operatingSteering
                             then Halve(cfg.steerSubKarmaIncrease * deltaTime, IsClown(c)) else 0.0)
    ensures var r := DriftAndPenalties(cfg, testMode, Some(c), karma, herpes, mem, deltaTime, now);
            var hc := HerpesUpdate(herpes, HerpesStrength(DecayedKarma(cfg, karma, deltaTime)));
            var wc := CheckWireDisconnections(cfg, mem.wireDisconnectTime, now, c.job);
            r.herpes == hc.affliction &&
            r.memory == mem.(wireDisconnectTime := wc.retained, previousNotifiedKarma := r.memory.previousNotifiedKarma) &&
            (!testMode ==> r.memory.previousNotifiedKarma == mem.previousNotifiedKarma &&
                           r.notices == (if hc.cureInvertControls then [CureInvertControls] else []))
  {
    LiveTickSteps(cfg, testMode, c, karma, herpes, mem, deltaTime, now);
    var k1 := DecayedKarma(cfg, karma, deltaTime);
    var a := WireStep(cfg, testMode, c, k1, mem, now);
    var b := SteerStep(cfg, testMode, c, a.karma, a.memory.value, deltaTime);
    assert !testMode ==> a.message.None? && b.message.None?;
  }

  /** UpdateClient for a client whose memory exists. */
  function UpdateClientOutcome(cfg: Config, testMode: bool, character: Option<Character>, isOwner: bool, karma: real,
                               herpes: Option<real>, mem: ClientMemory, deltaTime: real, now: real): (r: TickOutcome)
    ensures var pre := DriftAndPenalties(cfg, testMode, character, karma, herpes, mem, deltaTime, now);
            r.memory == pre.memory && r.herpes == pre.herpes && pre.notices <= r.notices &&
            (r.karma == pre.karma || r.karma == 50.0)
  {
    BanCheck(cfg, testMode, isOwner, DriftAndPenalties(cfg, testMode, character, karma, herpes, mem, deltaTime, now))
  }

  /**
    The ban decision of the tick: the client is queued exactly when the karma left by
    drift and penalties is below the threshold, the connection is not the owner's and
    test mode is off; in test mode it is reset to 50 instead and never queued.
  */
  lemma BanDecision(cfg: Config, testMode: bool, character: Option<Character>, isOwner: bool, karma: real,
                    herpes: Option<real>, mem: ClientMemory, deltaTime: real, now: real)
    ensures var pre := DriftAndPenalties(cfg, testMode, character, karma, herpes, mem, deltaTime, now);
            var o := UpdateClientOutcome(cfg, testMode, character, isOwner, karma, herpes, mem, deltaTime, now);
            (o.banned <==> pre.karma < cfg.kickBanThreshold && !isOwner && !testMode) &&
            (testMode && pre.karma < cfg.kickBanThreshold && !isOwner ==> o.karma == 50.0 && !o.banned)
  {
  }

  /** A client with no live character only faces the ban check: karma, herpes and memory stay. */
  lemma AbsentCharacterTick(cfg: Config, testMode: bool, character: Option<Character>, isOwner: bool, karma: real,
                            herpes: Option<real>, mem: ClientMemory, deltaTime: real, now: real)
    requires character.None? || character.value.removed
    requires karma >= cfg.kickBanThreshold || isOwner
    ensures UpdateClientOutcome(cfg, testMode, character, isOwner, karma, herpes, mem, deltaTime, now)
            == TickOutcome(karma, herpes, mem, [], false)
  {
  }

  /** After the tick a live character's wire list respects the cap. */
  lemma TickBoundsWireList(cfg: Config, testMode: bool, character: Option<Character>, isOwner: bool, karma: real,
                           herpes: Option<real>, mem: ClientMemory, deltaTime: real, now: real)
    requires character.Some? && !character.value.removed
    ensures var o := UpdateClientOutcome(cfg, testMode, character, isOwner, karma, herpes, mem, deltaTime, now);
            |o.memory.wireDisconnectTime| <= cfg.allowedWireDisconnectionsPerMinute
  {
  }

  /** The herpes strength a live character ends the tick with is the band of its drifted karma. */
  lemma TickHerpesBand(cfg: Config, testMode: bool, character: Option<Character>, isOwner: bool, karma: real,
                       herpes: Option<real>, mem: ClientMemory, deltaTime: real, now: real)
    requires character.Some? && !character.value.removed
    ensures var o := UpdateClientOutcome(cfg, testMode, character, isOwner, karma, herpes, mem, deltaTime, now);
            var s := HerpesStrength(DecayedKarma(cfg, karma, deltaTime));
            (o.herpes.Some? ==> o.herpes.value == s) && (o.herpes.None? <==> herpes.None? && s == 0.0)
  {
  }

  /** C#'s (int) cast of a float: truncation toward zero. */
  function TruncateTowardZero(x: real): (i: int)
    ensures Abs(i as real) <= Abs(x) < Abs(i as real) + 1.0
    ensures (i >= 0 <==> x > -1.0) && (i <= 0 <==> x < 1.0)
  {
    if x >= 0.0 then x.Floor else -((-x).Floor)
  }
}
