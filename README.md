# Barotrauma server karma manager, in Dafny

Barotrauma's dedicated server keeps a *karma* score per connected client, a
measure of how much the player can be trusted. The `KarmaManager` turns
game events into karma changes:

- damaging enemies earns karma, and hurting a friend costs it;
- healing a friend earns karma, and so does repairing one's own submarine;
- overheating the reactor costs karma, and so does a meltdown;
- extinguishing a fire earns karma;
- tripping the chat spam filter costs karma;
- disconnecting too many wires within a minute costs karma;
- steering as captain earns karma.

On every server tick the manager does the following:

1. It drifts each player's karma back toward a neutral band.
2. It sets the strength of the "space herpes" affliction in coarse bands, so a low-karma player feels it without learning the exact score.
3. It rolls the per-second structure-damage figure over.
4. Now and then it tells players that their karma has moved.
5. It queues a ban for every non-owner client whose karma fell under the kick/ban threshold, and issues the bans once the tick is over.

The manager keeps a small *memory* per client:

- the recent wire disconnections;
- the karma last reported to the player;
- the structure damage done this second and in the last one.

A memory is created on first use, and it is dropped when the client
disconnects.

The model has three modules:

- `KarmaRules` (`karma_rules.dfy`) holds the pure parts:
  - the tunable values (`Config`), the client memory, and the wire list;
  - the drift, the herpes bands, the wire check and the notification decision;
  - applying an amount to a found client, and the per-client tick as a function (`UpdateClientOutcome`).
- `KarmaEvents` (`karma_events.dfy`) holds the karma amount of every game event, as a function, with the structure-damage cap among them.
- `KarmaServer` (`karma_manager.dfy`) holds the stateful part:
  - a `Client` class (its karma and the herpes strength on its character change in place);
  - the `KarmaManager` class, whose fields are those of the source (the memory dictionary, the ban list, the two clocks, the test-mode flag) plus an `outbox` of the requests made to the server;
  - every public entry point and the per-tick driver, as methods proved against the functions of the other two modules.

The game engine is not modelled. The connected-client list, the game state,
the clocks and the traitor manager's answers come in as parameters. The
engine calls the manager makes (chat messages, bans, reducing an
affliction) are appended to `outbox` as `Directive` values, in the order
the source makes them. Karma and all rates are `real`. Finding a
character's client follows `ConnectedClients.Find`: the first client in
list order that controls the character (`FindClient`).

## Model

| member | source | states |
|---|---|---|
| KarmaRules.ClientMemory.StructureDamagePerSecond | Barotrauma/BarotraumaServer/Source/Networking/KarmaManager.cs:21-25 | The getter is the larger of this second's accumulator and last second's rate: at least both, and equal to one of them. |
| KarmaRules.MemoryOrNew | Barotrauma/BarotraumaServer/Source/Networking/KarmaManager.cs:313-323 | A stored memory is returned as it is. A missing one is created with the client's current karma as last notified and an empty wire list. |
| KarmaRules.Rollover | Barotrauma/BarotraumaServer/Source/Networking/KarmaManager.cs:47-51 | The accumulator restarts at 0. For a non-negative total the per-second figure becomes that total. The wire list and the last notified karma are kept. |
| KarmaRules.Halve | Barotrauma/BarotraumaServer/Source/Networking/KarmaManager.cs:341-346 | With both clown items the amount is exactly halved, otherwise unchanged. The sign is kept and the magnitude never grows. |
| KarmaRules.HalveIsOdd | Barotrauma/BarotraumaServer/Source/Networking/KarmaManager.cs:341-346 | Halving treats a penalty and the matching reward symmetrically: halving −x gives −(halving x). |
| KarmaRules.DecayedKarma | Barotrauma/BarotraumaServer/Source/Networking/KarmaManager.cs:105-112 | Inside the neutral band karma stays. With non-negative steps it moves only toward the band. A step no wider than the band never carries it past the far threshold. |
| KarmaRules.DecayTowardNeutral | Barotrauma/BarotraumaServer/Source/Networking/KarmaManager.cs:105-112 | Above the decay threshold karma falls by decay·dt. Below the increase threshold, and not above the decay threshold, it rises by increase·dt. |
| KarmaRules.DriftFromAbove | Barotrauma/BarotraumaServer/Source/Networking/KarmaManager.cs:105-108 | After any number of event-free ticks, karma starting at or above the increase threshold never rises and never falls below that threshold, given steps no wider than the band. While it is above the decay threshold it falls by exactly n·decay·dt, so once n·decay·dt covers the distance to the decay threshold it is at or below it. |
| KarmaRules.DriftFromBelow | Barotrauma/BarotraumaServer/Source/Networking/KarmaManager.cs:109-112 | The mirror image: karma starting at or below the decay threshold never falls and never exceeds it. While it is below the increase threshold it rises by exactly n·increase·dt, so once n·increase·dt covers the distance it is at or above the increase threshold. |
| KarmaRules.DriftStaysPut | Barotrauma/BarotraumaServer/Source/Networking/KarmaManager.cs:105-112 | Karma inside the neutral band does not drift at all, over any number of ticks. |
| KarmaRules.HerpesStrength | Barotrauma/BarotraumaServer/Source/Networking/KarmaManager.cs:116-122 | The strength is 0, 30, 60 or 100. Each value is chosen exactly on its karma band: below 20, [20,30), [30,40), at least 40. |
| KarmaRules.HerpesNonIncreasing | Barotrauma/BarotraumaServer/Source/Networking/KarmaManager.cs:116-122 | More karma never gives a stronger affliction. |
| KarmaRules.HerpesUpdate | Barotrauma/BarotraumaServer/Source/Networking/KarmaManager.cs:124-136 | The character ends without the affliction exactly when it had none and the strength is 0. Otherwise the affliction has the new strength. invertcontrols is reduced exactly when an existing affliction is set to 0. |
| KarmaRules.WithoutWire | Barotrauma/BarotraumaServer/Source/Networking/KarmaManager.cs:309 | RemoveAll by wire: exactly the entries of other wires stay, and the list never grows. |
| KarmaRules.WithoutWireConcat | Barotrauma/BarotraumaServer/Source/Networking/KarmaManager.cs:309 | The removal distributes over concatenation, so the order of the kept entries is preserved. |
| KarmaRules.WithoutAbsentWire | Barotrauma/BarotraumaServer/Source/Networking/KarmaManager.cs:309 | A list without the wire is left unchanged. |
| KarmaRules.WithoutPresentWire | Barotrauma/BarotraumaServer/Source/Networking/KarmaManager.cs:309 | A list holding the wire gets strictly shorter. |
| KarmaRules.RecordWire | Barotrauma/BarotraumaServer/Source/Networking/KarmaManager.cs:309-310 | After the update the wire appears once, last, with the current time. Before it are exactly the other wires' old entries. The list grows by at most one. |
| KarmaRules.RecordKnownWire | Barotrauma/BarotraumaServer/Source/Networking/KarmaManager.cs:309-310 | Disconnecting a wire already in the list does not lengthen the list. |
| KarmaRules.RecordWireKeepsOrder | Barotrauma/BarotraumaServer/Source/Networking/KarmaManager.cs:309-310 | Other wires' entries keep their order, and the new entry is appended after them. |
| KarmaRules.RecordWireReplaces | Barotrauma/BarotraumaServer/Source/Networking/KarmaManager.cs:309-310 | Disconnecting a wire already in the list removes its old entry and appends one with the current time. The other entries keep their order. |
| KarmaRules.WirePenalty | Barotrauma/BarotraumaServer/Source/Networking/KarmaManager.cs:145-147 | The penalty is −WireDisconnectionKarmaDecrease, and half of that for an engineer. |
| KarmaRules.CheckWireDisconnections | Barotrauma/BarotraumaServer/Source/Networking/KarmaManager.cs:140-150 | The kept list never exceeds the allowance. A list within the allowance is untouched and unpenalised. A longer one keeps only its newest entries, as many as allowed. It is penalised exactly when it was over the allowance and every kept entry is less than 60 s old, and the penalty is the job's. |
| KarmaRules.WireWindowScenario | Barotrauma/BarotraumaServer/Source/Networking/KarmaManager.cs:140-149 | One disconnection over the allowance is penalised when all are recent. It is not penalised when the oldest kept entry is 60 s or older. |
| KarmaRules.NotifyDecision | Barotrauma/BarotraumaServer/Source/Networking/KarmaManager.cs:76-96 | A message is sent exactly when the change since the last notice exceeds the interval, or exceeds 2 in test mode. In test mode it is the test message; otherwise it is the ban warning exactly when karma is within the interval of the threshold, and the decreased/increased message by the change's sign in every other case. |
| KarmaRules.NotifyStep | Barotrauma/BarotraumaServer/Source/Networking/KarmaManager.cs:73-98 | The message is the decision taken on the change since the stored last-notified karma, with a memory made on demand. When a message goes out the last-notified karma becomes the current karma. Otherwise the memory is unchanged, and nothing else in it ever changes. |
| KarmaRules.NotifyTwiceSilent | Barotrauma/BarotraumaServer/Source/Networking/KarmaManager.cs:76-98 | A notice resets the reference point to the current karma, so the same karma right after sends nothing and leaves the memory as it is. |
| KarmaRules.NewMemorySilent | Barotrauma/BarotraumaServer/Source/Networking/KarmaManager.cs:313-323 | A memory created on demand starts at the client's karma, so the first check does not notify. |
| KarmaRules.DefaultMemoryNotifies | Barotrauma/BarotraumaServer/Source/Networking/KarmaManager.cs:307 | A memory created by a wire disconnection has 0 as last notified karma, so any karma further than the interval from 0 is notified. |
| KarmaRules.ApplyKarma | Barotrauma/BarotraumaServer/Source/Networking/KarmaManager.cs:341-352 | The karma grows by the clown-halved amount. Outside test mode the memory is untouched and nothing is sent. In test mode the notification check runs on the new karma. |
| KarmaRules.BanCheck | Barotrauma/BarotraumaServer/Source/Networking/KarmaManager.cs:161-172 | A non-owner under the threshold is queued for a ban, or in test mode reset to 50 and sent the not-really-banned notice. Nothing else changes, and memory and herpes are kept. |
| KarmaRules.WireStep | Barotrauma/BarotraumaServer/Source/Networking/KarmaManager.cs:138-150 | The karma grows by the clown-halved job penalty exactly when the check penalises. The memory takes the trimmed list. Outside test mode nothing is sent and the last-notified karma is kept. |
| KarmaRules.SteerStep | Barotrauma/BarotraumaServer/Source/Networking/KarmaManager.cs:152-158 | A captain at the helm gains the clown-halved steering bonus for the tick, and nobody else gains anything. Only the last-notified karma may change, and outside test mode nothing changes or is sent. |
| KarmaRules.DriftAndPenalties | Barotrauma/BarotraumaServer/Source/Networking/KarmaManager.cs:103-158 | The phases before the ban check never queue a ban. A client without a live character keeps its karma, herpes and memory and gets no notice. |
| KarmaRules.LiveTickPhases | Barotrauma/BarotraumaServer/Source/Networking/KarmaManager.cs:103-158 | For a live character the new karma is the drifted karma plus the clown-halved wire penalty (when the window is full and recent) plus the clown-halved steering bonus (captain at the helm). Herpes takes the band of the drifted karma. The wire list is trimmed and the structure figures are kept. Outside test mode the only notice is the invertcontrols reduction and the last-notified karma is kept. |
| KarmaRules.UpdateClientOutcome | Barotrauma/BarotraumaServer/Source/Networking/KarmaManager.cs:101-173 | The ban check changes neither the memory nor the herpes of the phases before it and only appends notices. The karma is either the phases' karma or the test-mode reset to 50. |
| KarmaRules.BanDecision | Barotrauma/BarotraumaServer/Source/Networking/KarmaManager.cs:161-172 | A client is queued exactly when the karma left by the earlier phases is under the threshold, it is not the owner and test mode is off. In test mode such a client ends at 50, not queued. |
| KarmaRules.AbsentCharacterTick | Barotrauma/BarotraumaServer/Source/Networking/KarmaManager.cs:103-172 | A client without a live character who is not under the threshold (or is the owner) comes out of the tick unchanged. |
| KarmaRules.TickBoundsWireList | Barotrauma/BarotraumaServer/Source/Networking/KarmaManager.cs:140-142 | After a live character's tick its wire list holds at most the allowed number of entries, whatever it held before. |
| KarmaRules.TickHerpesBand | Barotrauma/BarotraumaServer/Source/Networking/KarmaManager.cs:114-136 | A live character ends the tick with the band strength of its drifted karma, and without the affliction exactly when it had none and that band is 0. |
| KarmaRules.TruncateTowardZero | Barotrauma/BarotraumaServer/Source/Networking/KarmaManager.cs:69 | The `(int)` cast of the threshold truncates toward zero: the result is within 1 of the value, no larger in magnitude, with the sign the cast gives. |
| KarmaEvents.EnemyClassification | Barotrauma/BarotraumaServer/Source/Networking/KarmaManager.cs:188-201 | Positive effective damage to a live other character counts as damaging an enemy exactly when the target is under enemy AI, on another team, a traitor, or an enemy of the traitor attacker's objective. Otherwise it counts as damaging a friend. |
| KarmaEvents.AfflictionKarmaOffset | Barotrauma/BarotraumaServer/Source/Networking/KarmaManager.cs:210-217 | Afflictions whose prefab declares no karma change reduce the damage by nothing. |
| KarmaEvents.AfflictionOffsetConcat | Barotrauma/BarotraumaServer/Source/Networking/KarmaManager.cs:210-217 | The afflictions are summed term by term: the reduction by two batches is the sum of their reductions. |
| KarmaEvents.EffectiveDamage | Barotrauma/BarotraumaServer/Source/Networking/KarmaManager.cs:203-217 | The damage is halved by the same rule as AdjustKarma on a target in the full clown outfit, then reduced by the afflictions. With neutral afflictions it is just the halved damage. |
| KarmaEvents.ClownDamageGap | Barotrauma/BarotraumaServer/Source/Networking/KarmaManager.cs:203-208 | Whatever the afflictions, the clown outfit takes exactly half the raw damage off the effective damage. |
| KarmaEvents.CharacterHealthDelta | Barotrauma/BarotraumaServer/Source/Networking/KarmaManager.cs:180-241 | There is no karma change exactly when the target or attacker is missing, the two are the same character, the target is dead or removed, or an enemy was healed or left undamaged. |
| KarmaEvents.CharacterHealthKinds | Barotrauma/BarotraumaServer/Source/Networking/KarmaManager.cs:219-240 | Positive damage to an enemy is the reward, doubled for a security officer. Positive damage to a friend is the penalty. Anything else done to a friend is the healing reward, doubled for a medical doctor. Each comes with its reason. |
| KarmaEvents.CharacterHealthSigns | Barotrauma/BarotraumaServer/Source/Networking/KarmaManager.cs:219-240 | With non-negative rates, damaging enemies and healing friends never cost karma, and hurting friends never earns it. |
| KarmaEvents.SecurityOfficerDoubles | Barotrauma/BarotraumaServer/Source/Networking/KarmaManager.cs:223-225 | The same damage to an enemy earns a security officer exactly twice what another job earns. |
| KarmaEvents.MedicalDoctorDoubles | Barotrauma/BarotraumaServer/Source/Networking/KarmaManager.cs:236-238 | The same healing of a friend earns a medical doctor exactly twice what another job earns. |
| KarmaEvents.ClownTargetHalves | Barotrauma/BarotraumaServer/Source/Networking/KarmaManager.cs:203-208 | When every applied affliction declares no karma change, hitting or healing a target in the full clown outfit changes karma by exactly half as much as the same act on that target without the mask. |
| KarmaEvents.ChargeStructureDamage | Barotrauma/BarotraumaServer/Source/Networking/KarmaManager.cs:259-266 | The corrected cap. The hit is added to the accumulator. The charge is the full hit while the per-second figure plus the hit stays under the cap, and otherwise exactly the room left under the cap (cap minus the figure), so it is never more than the hit and the figure plus the charge never passes the cap. Nothing is charged exactly when the figure already reaches the cap. |
| KarmaEvents.ChargeStructureDamageAsWritten | Barotrauma/BarotraumaServer/Source/Networking/KarmaManager.cs:260-266 | The cap as the source computes it, with the per-second figure read after the hit is accumulated. The accumulator grows by the hit. |
| KarmaEvents.AsWrittenOvercharges | Barotrauma/BarotraumaServer/Source/Networking/KarmaManager.cs:261-265 | As written, once the second's total passes the cap, a hit is charged more than its own damage. |
| KarmaEvents.AsWrittenTriplesOneHit | Barotrauma/BarotraumaServer/Source/Networking/KarmaManager.cs:261-265 | On fresh memory with a cap of 10, one hit of 20 is charged 30 as written, and 10 by the corrected cap. |
| KarmaEvents.ChargedTotalBounded | Barotrauma/BarotraumaServer/Source/Networking/KarmaManager.cs:259-266 | Over any run of hits within one second, what is charged stays within the cap and within the damage done. |
| KarmaEvents.StructureLossPerSecondCapped | Barotrauma/BarotraumaServer/Source/Networking/KarmaManager.cs:259-268 | Starting a fresh second, however the damage is split across hits, the karma lost to structure damage is at most MaxStructureDamageKarmaDecreasePerSecond. |
| KarmaEvents.StructureChargeWithinDamage | Barotrauma/BarotraumaServer/Source/Networking/KarmaManager.cs:259-268 | Over the same burst the damage charged never exceeds the damage done. |
| KarmaEvents.StructureRepairDelta | Barotrauma/BarotraumaServer/Source/Networking/KarmaManager.cs:270-276 | With a non-negative rate, repairing (non-positive damage) never costs karma. |
| KarmaEvents.MechanicDoubles | Barotrauma/BarotraumaServer/Source/Networking/KarmaManager.cs:272-274 | The same repair earns a mechanic exactly twice what another job earns. |
| KarmaEvents.ItemRepairDelta | Barotrauma/BarotraumaServer/Source/Networking/KarmaManager.cs:279-284 | With non-negative inputs, repairing an item never costs karma. |
| KarmaEvents.RequiredSkillsDouble | Barotrauma/BarotraumaServer/Source/Networking/KarmaManager.cs:281-282 | Having the item's required skills exactly doubles the reward for the same repair. |
| KarmaEvents.ReactorOverheatDelta | Barotrauma/BarotraumaServer/Source/Networking/KarmaManager.cs:286-289 | Overheating never earns karma, and no time overheated costs nothing. |
| KarmaEvents.ExtinguishFireDelta | Barotrauma/BarotraumaServer/Source/Networking/KarmaManager.cs:296-299 | Extinguishing never costs karma, and no time spent earns nothing. |
| KarmaServer.FindClient | Barotrauma/BarotraumaServer/Source/Networking/KarmaManager.cs:338 | No client is found exactly when none controls the character. Otherwise the result is the first client in list order that does. |
| KarmaServer.FindsItself | Barotrauma/BarotraumaServer/Source/Networking/KarmaManager.cs:338 | In a list where no character has two clients, looking up a client's character finds that client. |
| KarmaServer.BannedOfExact | Barotrauma/BarotraumaServer/Source/Networking/KarmaManager.cs:161-172 | A client is on the tick's ban list exactly when its own update queued it. |
| KarmaServer.BanDirectives | Barotrauma/BarotraumaServer/Source/Networking/KarmaManager.cs:67-70 | There is one ban per queued client, in queue order, each with the truncated threshold and the auto-ban time. |
| KarmaServer.OutcomeAt | Barotrauma/BarotraumaServer/Source/Networking/KarmaManager.cs:42-52 | The i-th client's result in the tick loop is its own UpdateClient outcome, with the memory rolled over when the second is over. |
| KarmaServer.OutcomeBanned | Barotrauma/BarotraumaServer/Source/Networking/KarmaManager.cs:161-172 | The loop queues the i-th client exactly when the karma its update leaves before the ban check is under the threshold, it is not the owner, and test mode is off. |
| KarmaServer.ReduceByAfflictions | Barotrauma/BarotraumaServer/Source/Networking/KarmaManager.cs:210-217 | The loop leaves the damage minus the total karma offset of the applied afflictions. |
| KarmaServer.KarmaDamage | Barotrauma/BarotraumaServer/Source/Networking/KarmaManager.cs:203-217 | The damage weighed is halved for a clown target and then reduced by the afflictions, as `EffectiveDamage` defines. |
| KarmaServer.KarmaManager.constructor | Barotrauma/BarotraumaServer/Source/Networking/KarmaManager.cs:28-35 | The manager starts out of test mode, with no memories, no bans, both clocks at their minimum and nothing sent. |
| KarmaServer.KarmaManager.GetClientMemory | Barotrauma/BarotraumaServer/Source/Networking/KarmaManager.cs:313-323 | The client's memory is returned, created at its current karma if missing. Only that entry may change. |
| KarmaServer.KarmaManager.OnClientDisconnected | Barotrauma/BarotraumaServer/Source/Networking/KarmaManager.cs:175-178 | Exactly the client's memory is removed. |
| KarmaServer.KarmaManager.SendKarmaNotifications | Barotrauma/BarotraumaServer/Source/Networking/KarmaManager.cs:73-99 | The memory becomes the notification step's, and the outbox grows by exactly the message it decides on. |
| KarmaServer.KarmaManager.AdjustClientKarma | Barotrauma/BarotraumaServer/Source/Networking/KarmaManager.cs:341-352 | The client's karma, memory and outbox end as `ApplyKarma` computes from their values before the call. |
| KarmaServer.KarmaManager.AdjustKarma | Barotrauma/BarotraumaServer/Source/Networking/KarmaManager.cs:334-353 | With no character or no controlling client nothing changes. Otherwise the first controlling client is adjusted as `ApplyKarma` says. Herpes is never touched. |
| KarmaServer.KarmaManager.OnSpamFilterTriggered | Barotrauma/BarotraumaServer/Source/Networking/KarmaManager.cs:325-332 | A missing client changes nothing. Otherwise the karma falls by the flat spam-filter amount, with no clown halving, and the notification check runs with the spam-filter reason. |
| KarmaServer.KarmaManager.OnCharacterHealthChanged | Barotrauma/BarotraumaServer/Source/Networking/KarmaManager.cs:180-241 | When `CharacterHealthDelta` gives nothing, the attacker's karma and every memory stay. Otherwise the attacker's client is adjusted by exactly that delta, with its reason. |
| KarmaServer.KarmaManager.DamageEnemy | Barotrauma/BarotraumaServer/Source/Networking/KarmaManager.cs:221-226 | The attacker is adjusted by damage·rate, doubled for a security officer, under "damaged enemy". |
| KarmaServer.KarmaManager.DamageFriend | Barotrauma/BarotraumaServer/Source/Networking/KarmaManager.cs:230-233 | The attacker is adjusted by −damage·rate under "damaged friendly". |
| KarmaServer.KarmaManager.HealFriend | Barotrauma/BarotraumaServer/Source/Networking/KarmaManager.cs:234-239 | The attacker is adjusted by −damage·rate, doubled for a medical doctor, under "healed friendly". |
| KarmaServer.KarmaManager.OnStructureHealthChanged | Barotrauma/BarotraumaServer/Source/Networking/KarmaManager.cs:244-277 | Nothing changes with no attacker, for a structure of no or another team's submarine, or for damage when the decrease rate is not positive. Repair adjusts by the uncapped reward. Damage adds to the attacker's client's accumulator, then charges that client's karma by the capped amount, or by nothing when at the cap. |
| KarmaServer.KarmaManager.DamageStructure | Barotrauma/BarotraumaServer/Source/Networking/KarmaManager.cs:253-269 | Without a controlling client nothing changes. Otherwise the accumulator grows by the hit and the karma falls by the capped charge times the rate. |
| KarmaServer.KarmaManager.RepairStructure | Barotrauma/BarotraumaServer/Source/Networking/KarmaManager.cs:270-276 | The attacker is adjusted by the repair reward, doubled for a mechanic. |
| KarmaServer.KarmaManager.ChargeStructureDamageFor | Barotrauma/BarotraumaServer/Source/Networking/KarmaManager.cs:259-266 | The client's memory becomes the accumulated one and the returned charge is the capped charge, both from the memory before the hit. |
| KarmaServer.KarmaManager.ChargeStructureHit | Barotrauma/BarotraumaServer/Source/Networking/KarmaManager.cs:256-268 | The capped charge is applied to the found client, and nothing further happens when no damage is left to charge. |
| KarmaServer.KarmaManager.OnItemRepaired | Barotrauma/BarotraumaServer/Source/Networking/KarmaManager.cs:279-284 | The repairer is adjusted by `ItemRepairDelta` under "repaired item". |
| KarmaServer.KarmaManager.OnReactorOverHeating | Barotrauma/BarotraumaServer/Source/Networking/KarmaManager.cs:286-289 | The character is adjusted by `ReactorOverheatDelta`. |
| KarmaServer.KarmaManager.OnReactorMeltdown | Barotrauma/BarotraumaServer/Source/Networking/KarmaManager.cs:291-294 | The character is adjusted by −ReactorMeltdownKarmaDecrease. |
| KarmaServer.KarmaManager.OnExtinguishingFire | Barotrauma/BarotraumaServer/Source/Networking/KarmaManager.cs:296-299 | The character is adjusted by `ExtinguishFireDelta`. |
| KarmaServer.KarmaManager.OnWireDisconnected | Barotrauma/BarotraumaServer/Source/Networking/KarmaManager.cs:301-311 | With no character, no wire or no controlling client nothing changes. Otherwise that client's wire list — taken from a fresh default memory if it had none — becomes `RecordWire` of it and the current time, and nothing else changes. |
| KarmaServer.KarmaManager.DriftAndHerpes | Barotrauma/BarotraumaServer/Source/Networking/KarmaManager.cs:103-136 | Karma becomes the one-tick drift. Herpes becomes the band of the drifted karma. The outbox gets the invertcontrols reduction exactly when `HerpesUpdate` calls for it. |
| KarmaServer.KarmaManager.PenaliseWires | Barotrauma/BarotraumaServer/Source/Networking/KarmaManager.cs:138-150 | Karma, memory and outbox become `WireStep`'s: the wire list is trimmed, and the penalty goes through AdjustKarma when the window is full. |
| KarmaServer.KarmaManager.SteeringBonus | Barotrauma/BarotraumaServer/Source/Networking/KarmaManager.cs:152-158 | Karma, memory and outbox become `SteerStep`'s: a captain at a helm earns the per-second bonus through AdjustKarma. |
| KarmaServer.KarmaManager.WiresThenSteering | Barotrauma/BarotraumaServer/Source/Networking/KarmaManager.cs:138-158 | The wire phase, then the steering phase on its result. |
| KarmaServer.KarmaManager.LivePhases | Barotrauma/BarotraumaServer/Source/Networking/KarmaManager.cs:103-158 | For a live character, the drift, herpes, wire and steering phases, in that order. |
| KarmaServer.KarmaManager.DriftAndPenalise | Barotrauma/BarotraumaServer/Source/Networking/KarmaManager.cs:101-159 | The client ends as `DriftAndPenalties` computes; a client without a live character is left as it was. |
| KarmaServer.KarmaManager.UpdateClient | Barotrauma/BarotraumaServer/Source/Networking/KarmaManager.cs:101-173 | The client's karma, herpes, memory, outbox and ban-list entry end exactly as `UpdateClientOutcome` computes. |
| KarmaServer.KarmaManager.TickOne | Barotrauma/BarotraumaServer/Source/Networking/KarmaManager.cs:44-51 | One pass of the loop leaves the client as its tick outcome says, with only its own memory changed. |
| KarmaServer.KarmaManager.TickInner | Barotrauma/BarotraumaServer/Source/Networking/KarmaManager.cs:44-51 | The memory lookup, UpdateClient, then the rollover of that client's memory when due. |
| KarmaServer.KarmaManager.TickStep | Barotrauma/BarotraumaServer/Source/Networking/KarmaManager.cs:42-52 | One pass keeps the loop invariant: the first i+1 clients have their outcomes, the rest their old state, and the outbox and ban list have grown in list order. |
| KarmaServer.KarmaManager.TickLoop | Barotrauma/BarotraumaServer/Source/Networking/KarmaManager.cs:41-52 | Once the ban list is cleared, every client ends with the outcome computed from the state before the loop. |
| KarmaServer.KarmaManager.TickClients | Barotrauma/BarotraumaServer/Source/Networking/KarmaManager.cs:41-52 | After the loop each client holds its outcome. Other clients' memories are untouched. The outbox has the clients' notices in list order, and the ban list is exactly the queued clients. |
| KarmaServer.KarmaManager.NotifyClients | Barotrauma/BarotraumaServer/Source/Networking/KarmaManager.cs:58-63 | Every listed client's memory becomes its notification step's, the others' are untouched, and the messages are appended client by client in list order. |
| KarmaServer.KarmaManager.NotifyAt | Barotrauma/BarotraumaServer/Source/Networking/KarmaManager.cs:60-63 | One round of the sweep keeps its invariant: one more client notified, in order. |
| KarmaServer.KarmaManager.SweepAfterTick | Barotrauma/BarotraumaServer/Source/Networking/KarmaManager.cs:58-65 | The sweep right after the loop, stated from the loop's outcomes. |
| KarmaServer.KarmaManager.IssueBans | Barotrauma/BarotraumaServer/Source/Networking/KarmaManager.cs:67-70 | The outbox grows by exactly one ban per queued client, in order. |
| KarmaServer.KarmaManager.UpdateClients | Barotrauma/BarotraumaServer/Source/Networking/KarmaManager.cs:37-71 | Before the game has started nothing changes. Otherwise it states the whole new state: each client's ticked outcome; the memories after the optional sweep; the outbox of tick notices, sweep messages and bans, in that order; the ban list; the per-second clock moved one second past now when due; the notification time moved when swept. |
| KarmaServer.KarmaManager.RunUpdate | Barotrauma/BarotraumaServer/Source/Networking/KarmaManager.cs:41-70 | The same whole-state result once the round has started. |
| KarmaServer.KarmaManager.AfterTick | Barotrauma/BarotraumaServer/Source/Networking/KarmaManager.cs:53-70 | The clock, then the sweep when in test mode or past the notification time, then the queued bans. |

## Left out

- The floating-point arithmetic of the source is modelled with exact reals. `float` rounding, and the `float`/`double` mix in `Timing.TotalTime`, are not modelled.
- `MathUtils.NearlyEqual(x, 0)` (line 214) is modelled as `x == 0`, with no tolerance.
- `DateTime.Now` is read once per `UpdateClients` call (the `now` parameter), and `Timing.TotalTime` is the `totalTime` parameter. The source reads the clock again at each use, and two readings within one call could differ. The one-second `TimeSpan` is `now + 1.0`.
- Localized texts and the test-mode strings are `MessageKind` values. `TextManager` and the string formatting are not part of this model.
- The server's own calls are requests appended to `outbox`, and their effects are not modelled. These are `SendDirectChatMessage`, `BanClient` and `CharacterHealth.ReduceAffliction`.
- The affliction engine is not modelled. The space herpes strength of a client's character is the field `Client.herpes`. Applying the affliction creates it with the band strength.
- Game-world facts come in as plain inputs: a `Character` value (id, team, job, dead/removed, clown items, AI-controlled, helm selected), `TraitorFacts`, the structure's submarine team and `Repairable.HasRequiredSkills`. Their computation by the engine is not part of this model.
- A client's character is fixed for the lifetime of a `Client` object. In the game it can change between calls, but not during one.
- Reference equality of characters (`target == attacker`, `c.Character == character`) is compared by character id.
- Inside `UpdateClient`, `AdjustKarma` searches the list being ticked for the character's client. The source searches `ConnectedClients`. The two are the same list whenever the server passes its connected clients.
- `allowedWireDisconnectionsPerMinute` is a `nat`: the source's `(int)` cast of a negative value would make `RemoveRange` throw, which the model does not reproduce.
- Configuration loading through `ISerializableEntity` is not modelled. The tunable values are the `Config` datatype.
- KarmaServer.KarmaManager.UpdateClients: requires the client list to hold distinct clients, with no character controlled by two of them. The server's connection list guarantees this. Without it the order in which two clients sharing a character are updated would matter, and the whole-state postcondition would not hold as stated.
- KarmaServer.KarmaManager.TickClients: requires the same distinct, uniquely controlled client list, for the same reason.
- In test mode a karma change of more than 2 is also notified (line 77). The model includes this threshold.

## Findings

| source | as written | input that shows it | evidently intended | confidence | as-written member | corrected member |
|---|---|---|---|---|---|---|
| Barotrauma/BarotraumaServer/Source/Networking/KarmaManager.cs:260-266 | The hit is added to the accumulator first. The per-second figure is then read and already includes it. On reaching the cap, the charge is `damage - (cap - perSecond)`, which grows with the damage. | Fresh memory with MaxStructureDamageKarmaDecreasePerSecond / StructureDamageKarmaDecrease = 10, and one hit of 20: the source charges 30, three times the cap and more than the hit itself (`AsWrittenTriplesOneHit`). In general, any hit that takes the second's total past the cap is charged more than its damage (`AsWrittenOvercharges`). | Charge only the room left under the cap, measured before this hit, so that one second's structure damage never costs more than MaxStructureDamageKarmaDecreasePerSecond karma, however it is split. This is the comment at line 259. | not executed | KarmaEvents.ChargeStructureDamageAsWritten | KarmaEvents.ChargeStructureDamage |

The corrected charge is the one the manager uses (`ChargeStructureDamageFor`, `OnStructureHealthChanged`). Its promise is proved in `KarmaEvents.ChargedTotalBounded`, `KarmaEvents.StructureLossPerSecondCapped` and `KarmaEvents.StructureChargeWithinDamage`: starting from a fresh second, what is charged stays within the cap and within the damage done.
