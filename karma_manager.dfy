/**
  The karma manager of the Barotrauma server: the lazily created per-client
  memory store, the per-tick driver (drift toward the neutral band, herpes bands,
  wire-disconnection window, per-second rollover, notification sweep, batched
  bans) and the event handlers that turn game events into karma changes.

  The server side is abstracted: the connected clients are passed in, the clocks
  are parameters, and what the manager asks the server to do (chat messages,
  bans, reducing an affliction) is appended to `outbox` in order.
*/
module KarmaServer {
  import opened KarmaRules
  import opened KarmaEvents

  /** A connected client: its karma, and the herpes strength on its character. */
  class Client {
    const connection: ConnectionId
    // the character the client controls; the model keeps it fixed per client object
    const character: Option<Character>
    var karma: real
    // strength of the space herpes affliction of the client's character, if it has one
    var herpes: Option<real>

    constructor (connection: ConnectionId, character: Option<Character>, karma: real)
      ensures this.connection == connection && this.character == character
      ensures this.karma == karma && this.herpes == None
    {
      this.connection := connection;
      this.character := character;
      this.karma := karma;
      this.herpes := None;
    }
  }

  /** A request to the server: a notice for one client, or a ban. */
  datatype Directive =
    | Send(to: Client, notice: Notice)
    | Ban(client: Client, banThreshold: int, duration: real)

  predicate Controls(c: Client, id: CharacterId) {
    c.character.Some? && c.character.value.id == id
  }

  /** ConnectedClients.Find(c => c.Character == character): the first client controlling it. */
  function FindClient(connected: seq<Client>, id: CharacterId): (r: Option<Client>)
    ensures r.None? <==> forall i :: 0 <= i < |connected| ==> !Controls(connected[i], id)
    ensures r.Some? ==> exists i :: 0 <= i < |connected| && connected[i] == r.value && Controls(r.value, id)
                         && forall j :: 0 <= j < i ==> !Controls(connected[j], id)
    decreases |connected|
  {
    if connected == [] then None
    else if Controls(connected[0], id) then Some(connected[0])
    else
      var r := FindClient(connected[1..], id);
      assert r.Some? ==> exists i :: 1 <= i < |connected| && connected[i] == r.value && Controls(r.value, id)
                                     && forall j :: 0 <= j < i ==> !Controls(connected[j], id) by {
        if r.Some? {
          var k :| 0 <= k < |connected[1..]| && connected[1..][k] == r.value && Controls(r.value, id)
                   && forall j :: 0 <= j < k ==> !Controls(connected[1..][j], id);
          assert connected[k + 1] == r.value;
          assert forall j :: 0 <= j < k + 1 ==> !Controls(connected[j], id) by {
            forall j | 0 <= j < k + 1 ensures !Controls(connected[j], id) {
              if j > 0 { assert connected[j] == connected[1..][j - 1]; }
            }
          }
        }
      }
      r
  }

  /** The client AdjustKarma affects for a (possibly null) character. */
  function TargetClient(connected: seq<Client>, target: Option<Character>): Option<Client> {
    if target.None? then None else FindClient(connected, target.value.id)
  }

  function TargetSet(connected: seq<Client>, target: Option<Character>): set<Client> {
    var t := TargetClient(connected, target);
    if t.Some? then {t.value} else {}
  }

  function TargetKarma(connected: seq<Client>, target: Option<Character>): real
    reads TargetSet(connected, target)
  {
    var t := TargetClient(connected, target);
    if t.Some? then t.value.karma else 0.0
  }

  /** The server's client list: distinct clients, no character controlled by two of them. */
  predicate UniquelyControlled(clients: seq<Client>) {
    forall i, j :: 0 <= i < j < |clients| ==>
      clients[i] != clients[j] &&
      (clients[i].character.Some? && clients[j].character.Some? ==>
         clients[i].character.value.id != clients[j].character.value.id)
  }

  /** In such a list, looking up a client's character finds that client. */
  lemma FindsItself(clients: seq<Client>, i: nat)
    requires UniquelyControlled(clients) && i < |clients| && clients[i].character.Some?
    ensures FindClient(clients, clients[i].character.value.id) == Some(clients[i])
  {
    var id := clients[i].character.value.id;
    var r := FindClient(clients, id);
    assert Controls(clients[i], id);
    var k :| 0 <= k < |clients| && clients[k] == r.value && Controls(r.value, id)
             && forall j :: 0 <= j < k ==> !Controls(clients[j], id);
    assert forall j :: 0 <= j < |clients| && j != i ==> !Controls(clients[j], id);
  }

  /** What the tick needs of the i-th client: no other entry is that client, and its character's lookup finds it. */
  predicate ControlledWell(clients: seq<Client>, i: nat)
    requires i < |clients|
  {
    (forall j :: 0 <= j < |clients| && j != i ==> clients[j] != clients[i]) &&
    (clients[i].character.Some? ==> FindClient(clients, clients[i].character.value.id) == Some(clients[i]))
  }

  lemma ControlledEverywhere(clients: seq<Client>)
    requires UniquelyControlled(clients)
    ensures forall i :: 0 <= i < |clients| ==> ControlledWell(clients, i)
  {
    forall i | 0 <= i < |clients|
      ensures ControlledWell(clients, i)
    {
      if clients[i].character.Some? {
        FindsItself(clients, i);
      }
    }
  }

  lemma MapUpdateTwice<K, V>(m: map<K, V>, k: K, a: V, b: V)
    ensures m[k := a][k := b] == m[k := b]
  {
  }

  lemma MapUpdateSame<K, V>(m: map<K, V>, k: K)
    requires k in m
    ensures m[k := m[k]] == m
  {
  }

  lemma AppendAssociates<T>(a: seq<T>, b: seq<T>, c: seq<T>)
    ensures a + b + c == a + (b + c)
  {
  }

  predicate Distinct(cs: seq<Client>) {
    forall i, j :: 0 <= i < j < |cs| ==> cs[i] != cs[j]
  }

  /** The memory map after writing ms[k] under cs[k] for the first n clients, in list order. */
  function Overwrite(m: map<Client, ClientMemory>, cs: seq<Client>, ms: seq<ClientMemory>, n: nat): map<Client, ClientMemory>
    requires n <= |cs| == |ms|
  {
    if n == 0 then m else Overwrite(m, cs, ms, n - 1)[cs[n - 1] := ms[n - 1]]
  }

  /** Writing other clients' memories leaves this one's lookup as it was. */
  lemma {:induction false} OverwriteOutside(m: map<Client, ClientMemory>, cs: seq<Client>, ms: seq<ClientMemory>, n: nat,
                                            c: Client)
    requires n <= |cs| == |ms|
    requires forall k :: 0 <= k < n ==> cs[k] != c
    ensures Lookup(Overwrite(m, cs, ms, n), c) == Lookup(m, c)
  {
    if n > 0 {
      OverwriteOutside(m, cs, ms, n - 1, c);
    }
  }

  /** With distinct clients every written memory is found under its client, and nothing else moves. */
  lemma {:induction false} OverwriteDistinct(m: map<Client, ClientMemory>, cs: seq<Client>, ms: seq<ClientMemory>, n: nat)
    requires n <= |cs| == |ms| && Distinct(cs)
    ensures var r := Overwrite(m, cs, ms, n);
            (forall i :: 0 <= i < n ==> cs[i] in r && r[cs[i]] == ms[i]) &&
            (forall c :: c in r <==> c in m || exists k :: 0 <= k < n && cs[k] == c) &&
            (forall c :: c in m && (forall k :: 0 <= k < n ==> cs[k] != c) ==> r[c] == m[c])
  {
    if n > 0 {
      OverwriteDistinct(m, cs, ms, n - 1);
    }
  }

  /** Overwriting every client of a duplicate-free list: each gets its own entry, nobody else changes. */
  lemma OverwriteAll(m: map<Client, ClientMemory>, cs: seq<Client>, ms: seq<ClientMemory>)
    requires |cs| == |ms| && Distinct(cs)
    ensures var r := Overwrite(m, cs, ms, |cs|);
            (forall i :: 0 <= i < |cs| ==> cs[i] in r && r[cs[i]] == ms[i]) &&
            (forall c :: c in r <==> c in m || c in cs) &&
            (forall c :: c in m && c !in cs ==> r[c] == m[c])
  {
    OverwriteDistinct(m, cs, ms, |cs|);
    var r := Overwrite(m, cs, ms, |cs|);
    forall c | c in cs
      ensures exists k :: 0 <= k < |cs| && cs[k] == c
    {
      var k :| 0 <= k < |cs| && cs[k] == c;
    }
  }

  /** The memories of a sequence of tick outcomes. */
  function MemoriesOf(outs: seq<TickOutcome>): (r: seq<ClientMemory>)
    ensures |r| == |outs| && forall i :: 0 <= i < |outs| ==> r[i] == outs[i].memory
  {
    seq(|outs|, i requires 0 <= i < |outs| => outs[i].memory)
  }

  /** The notices for one client, as directives. */
  function Sends(c: Client, notices: seq<Notice>): (r: seq<Directive>)
    ensures |r| == |notices| && forall i :: 0 <= i < |r| ==> r[i] == Send(c, notices[i])
  {
    seq(|notices|, i requires 0 <= i < |notices| => Send(c, notices[i]))
  }

  lemma SendsConcat(c: Client, a: seq<Notice>, b: seq<Notice>)
    ensures Sends(c, a + b) == Sends(c, a) + Sends(c, b)
  {
  }

  /** The notices of the tick loop for the first n clients, client by client in list order. */
  function TickDirectives(clients: seq<Client>, outs: seq<TickOutcome>, n: nat): seq<Directive>
    requires n <= |clients| == |outs|
  {
    if n == 0 then [] else TickDirectives(clients, outs, n - 1) + Sends(clients[n - 1], outs[n - 1].notices)
  }

  /** The clients the tick loop queues for a ban among the first n, in list order. */
  function BannedOf(clients: seq<Client>, outs: seq<TickOutcome>, n: nat): (r: seq<Client>)
    requires n <= |clients| == |outs|
    ensures |r| <= n
  {
    if n == 0 then [] else BannedOf(clients, outs, n - 1) + (if outs[n - 1].banned then [clients[n - 1]] else [])
  }

  /** A client is in the ban list exactly when its tick outcome queued it. */
  lemma {:induction false} BannedOfExact(clients: seq<Client>, outs: seq<TickOutcome>, n: nat, c: Client)
    requires n <= |clients| == |outs|
    ensures c in BannedOf(clients, outs, n) <==> exists i :: 0 <= i < n && clients[i] == c && outs[i].banned
  {
    if n > 0 {
      BannedOfExact(clients, outs, n - 1, c);
    }
  }

  /** One BanClient call per queued client, in order, with the truncated threshold and the ban time. */
  function BanDirectives(banned: seq<Client>, threshold: int, duration: real): (r: seq<Directive>)
    ensures |r| == |banned|
    ensures forall i :: 0 <= i < |r| ==> r[i] == Ban(banned[i], threshold, duration)
    decreases |banned|
  {
    if banned == [] then []
    else BanDirectives(banned[..|banned| - 1], threshold, duration) + [Ban(banned[|banned| - 1], threshold, duration)]
  }

  /** What the notification sweep reads of one client. */
  datatype SweepInput = SweepInput(karma: real, memory: Option<ClientMemory>)

  /** The messages of the notification sweep for the first n clients, client by client in list order. */
  function SweepDirectives(cfg: Config, testMode: bool, clients: seq<Client>, ins: seq<SweepInput>, n: nat): seq<Directive>
    requires n <= |clients| == |ins|
  {
    if n == 0 then []
    else
      SweepDirectives(cfg, testMode, clients, ins, n - 1)
      + Sends(clients[n - 1], MessageNotices(NotifyStep(cfg, testMode, ins[n - 1].memory, ins[n - 1].karma, NoReason).message))
  }

  /** The memories the notification sweep leaves. */
  function SweptMemories(cfg: Config, testMode: bool, ins: seq<SweepInput>): (r: seq<ClientMemory>)
    ensures |r| == |ins|
    ensures forall i :: 0 <= i < |ins| ==> r[i] == NotifyStep(cfg, testMode, ins[i].memory, ins[i].karma, NoReason).memory
  {
    seq(|ins|, i requires 0 <= i < |ins| => NotifyStep(cfg, testMode, ins[i].memory, ins[i].karma, NoReason).memory)
  }

  /** The sweep's view of the clients after the tick loop. */
  function SweepOf(outs: seq<TickOutcome>): (r: seq<SweepInput>)
    ensures |r| == |outs| && forall i :: 0 <= i < |outs| ==> r[i] == SweepInput(outs[i].karma, Some(outs[i].memory))
  {
    seq(|outs|, i requires 0 <= i < |outs| => SweepInput(outs[i].karma, Some(outs[i].memory)))
  }

  /** A client's memory at the end of UpdateClients. */
  function FinalMemory(cfg: Config, testMode: bool, sweep: bool, o: TickOutcome): ClientMemory {
    if sweep then NotifyStep(cfg, testMode, Some(o.memory), o.karma, NoReason).memory else o.memory
  }

  /** One client's pass of UpdateClients' loop: UpdateClient on its memory, then the rollover when due. */
  function ClientTick(cfg: Config, testMode: bool, character: Option<Character>, isOwner: bool, karma: real,
                      herpes: Option<real>, mem: Option<ClientMemory>, deltaTime: real, now: real, rollover: bool): TickOutcome
  {
    var o := UpdateClientOutcome(cfg, testMode, character, isOwner, karma, herpes, MemoryOrNew(mem, karma), deltaTime, now);
    if rollover then o.(memory := Rollover(o.memory)) else o
  }

  /** ClientTick field by field: the tick's outcome, with the memory rolled over when due. */
  lemma ClientTickFields(cfg: Config, testMode: bool, character: Option<Character>, isOwner: bool, karma: real,
                         herpes: Option<real>, mem: Option<ClientMemory>, deltaTime: real, now: real, rollover: bool)
    ensures var o := ClientTick(cfg, testMode, character, isOwner, karma, herpes, mem, deltaTime, now, rollover);
            var u := UpdateClientOutcome(cfg, testMode, character, isOwner, karma, herpes, MemoryOrNew(mem, karma),
                                         deltaTime, now);
            o.karma == u.karma && o.herpes == u.herpes && o.notices == u.notices && o.banned == u.banned &&
            o.memory == (if rollover then Rollover(u.memory) else u.memory)
  {
  }

  /** A client's fields and memory, as one value. */
  datatype ClientState = ClientState(character: Option<Character>, connection: ConnectionId, karma: real,
                                     herpes: Option<real>, memory: Option<ClientMemory>)

  /** Each client's pass of the loop, from the clients' states before it. */
  function OutcomesFrom(cfg: Config, testMode: bool, states: seq<ClientState>, deltaTime: real, now: real,
                        owner: Option<ConnectionId>, rollover: bool): (r: seq<TickOutcome>)
    ensures |r| == |states|
    decreases |states|
  {
    if states == [] then []
    else
      var n := |states| - 1;
      OutcomesFrom(cfg, testMode, states[..n], deltaTime, now, owner, rollover)
      + [ClientTick(cfg, testMode, states[n].character, owner == Some(states[n].connection), states[n].karma,
                    states[n].herpes, states[n].memory, deltaTime, now, rollover)]
  }

  /** The i-th outcome is the i-th client's tick, field by field. */
  lemma {:induction false} OutcomeAt(cfg: Config, testMode: bool, states: seq<ClientState>, deltaTime: real, now: real,
                                     owner: Option<ConnectionId>, rollover: bool, i: nat)
    requires i < |states|
    ensures var o := OutcomesFrom(cfg, testMode, states, deltaTime, now, owner, rollover)[i];
            var s := states[i];
            var u := UpdateClientOutcome(cfg, testMode, s.character, owner == Some(s.connection), s.karma, s.herpes,
                                         MemoryOrNew(s.memory, s.karma), deltaTime, now);
            o.karma == u.karma && o.herpes == u.herpes && o.notices == u.notices && o.banned == u.banned &&
            o.memory == (if rollover then Rollover(u.memory) else u.memory)
    decreases |states|
  {
    var n := |states| - 1;
    if i < n {
      OutcomeAt(cfg, testMode, states[..n], deltaTime, now, owner, rollover, i);
      assert states[..n][i] == states[i];
    } else {
      var s := states[n];
      ClientTickFields(cfg, testMode, s.character, owner == Some(s.connection), s.karma, s.herpes, s.memory,
                       deltaTime, now, rollover);
    }
  }

  /** `o` is what the loop makes of a client in state `s`: its update, with the memory rolled over when due. */
  predicate IsTickOf(cfg: Config, testMode: bool, s: ClientState, deltaTime: real, now: real,
                     owner: Option<ConnectionId>, rollover: bool, o: TickOutcome)
  {
    var u := UpdateClientOutcome(cfg, testMode, s.character, owner == Some(s.connection), s.karma, s.herpes,
                                 MemoryOrNew(s.memory, s.karma), deltaTime, now);
    o.karma == u.karma && o.herpes == u.herpes && o.notices == u.notices && o.banned == u.banned &&
    o.memory == (if rollover then Rollover(u.memory) else u.memory)
  }

  /** Every outcome of OutcomesFrom is its client's tick. */
  lemma OutcomesAreTicks(cfg: Config, testMode: bool, states: seq<ClientState>, deltaTime: real, now: real,
                         owner: Option<ConnectionId>, rollover: bool, outs: seq<TickOutcome>)
    requires outs == OutcomesFrom(cfg, testMode, states, deltaTime, now, owner, rollover)
    ensures |outs| == |states|
    ensures forall j {:trigger IsTickOf(cfg, testMode, states[j], deltaTime, now, owner, rollover, outs[j])} ::
              0 <= j < |states| ==> IsTickOf(cfg, testMode, states[j], deltaTime, now, owner, rollover, outs[j])
  {
    forall j | 0 <= j < |states|
      ensures IsTickOf(cfg, testMode, states[j], deltaTime, now, owner, rollover, outs[j])
    {
      OutcomeAt(cfg, testMode, states, deltaTime, now, owner, rollover, j);
    }
  }

  /**
    The loop queues the i-th client for a ban exactly when the karma its update
    leaves before the ban check is under the threshold, its connection is not the
    owner's, and test mode is off.
  */
  lemma OutcomeBanned(cfg: Config, testMode: bool, states: seq<ClientState>, deltaTime: real, now: real,
                      owner: Option<ConnectionId>, rollover: bool, i: nat)
    requires i < |states|
    ensures var s := states[i];
            var pre := DriftAndPenalties(cfg, testMode, s.character, s.karma, s.herpes, MemoryOrNew(s.memory, s.karma),
                                         deltaTime, now);
            OutcomesFrom(cfg, testMode, states, deltaTime, now, owner, rollover)[i].banned <==>
              pre.karma < cfg.kickBanThreshold && owner != Some(s.connection) && !testMode
  {
    var s := states[i];
    OutcomeAt(cfg, testMode, states, deltaTime, now, owner, rollover, i);
    BanDecision(cfg, testMode, s.character, owner == Some(s.connection), s.karma, s.herpes,
                MemoryOrNew(s.memory, s.karma), deltaTime, now);
  }

  /** The damage left after the applied afflictions: the loop of OnCharacterHealthChanged. */
  method ReduceByAfflictions(damage: real, afflictions: seq<Affliction>) returns (d: real)
    ensures d == damage - AfflictionKarmaOffset(afflictions)
  {
    d := damage;
    for i := 0 to |afflictions|
      invariant d == damage - AfflictionKarmaOffset(afflictions[..i])
    {
      assert afflictions[..i + 1][..i] == afflictions[..i];
      var affliction := afflictions[i];
      if affliction.karmaChangeOnApplied != 0.0 {
        d := d - affliction.karmaChangeOnApplied * affliction.strength;
      }
    }
    assert afflictions[..|afflictions|] == afflictions;
  }

  /** The damage OnCharacterHealthChanged weighs: halved on a clown, then reduced by the afflictions. */
  method KarmaDamage(target: Character, damage: real, afflictions: seq<Affliction>) returns (d: real)
    ensures d == EffectiveDamage(target, damage, afflictions)
  {
    d := damage;
    if IsClown(target) {
      d := d * 0.5;
    }
    d := ReduceByAfflictions(d, afflictions);
  }

  class KarmaManager {
    const cfg: Config
    var testMode: bool
    var clientMemories: map<Client, ClientMemory>
    var bannedClients: seq<Client>
    // DateTime.Now readings in seconds, DateTime.MinValue being 0
    var perSecondUpdate: real
    // Timing.TotalTime readings in seconds
    var karmaNotificationTime: real
    // everything the manager has asked the server to do, in order
    var outbox: seq<Directive>

    constructor (cfg: Config)
      ensures this.cfg == cfg && !testMode && clientMemories == map[] && bannedClients == []
      ensures perSecondUpdate == 0.0 && karmaNotificationTime == 0.0 && outbox == []
    {
      this.cfg := cfg;
      testMode := false;
      clientMemories := map[];
      bannedClients := [];
      perSecondUpdate := 0.0;
      karmaNotificationTime := 0.0;
      outbox := [];
    }

    function MemoryOf(c: Client): Option<ClientMemory>
      reads this`clientMemories
    {
      Lookup(clientMemories, c)
    }

    /** GetClientMemory: creates the memory on first use, with the client's current karma as last notified. */
    method GetClientMemory(c: Client) returns (m: ClientMemory)
      modifies this`clientMemories
      ensures m == MemoryOrNew(old(MemoryOf(c)), c.karma)
      ensures clientMemories == old(clientMemories)[c := m]
    {
      if c !in clientMemories {
        clientMemories := clientMemories[c := ClientMemory([], c.karma, 0.0, 0.0)];
      }
      m := clientMemories[c];
    }

    /** OnClientDisconnected: the client's memory is dropped. */
    method OnClientDisconnected(c: Client)
      modifies this`clientMemories
      ensures clientMemories == old(clientMemories) - {c}
      ensures MemoryOf(c).None?
    {
      clientMemories := clientMemories - {c};
    }

    /** SendKarmaNotifications: message the client when its karma moved far enough since the last one. */
    method SendKarmaNotifications(c: Client, reason: Reason)
      modifies this`clientMemories, this`outbox
      ensures var n := NotifyStep(cfg, testMode, old(MemoryOf(c)), c.karma, reason);
              clientMemories == old(clientMemories)[c := n.memory] &&
              outbox == old(outbox) + Sends(c, MessageNotices(n.message))
    {
      var m := GetClientMemory(c);
      var karmaChange := c.karma - m.previousNotifiedKarma;
      if Abs(karmaChange) > cfg.karmaNotificationInterval || (testMode && Abs(karmaChange) > 2.0) {
        var kind: MessageKind;
        if testMode {
          kind := TestKarmaChanged(karmaChange < 0.0, c.karma, reason);
        } else if Abs(cfg.kickBanThreshold - c.karma) < cfg.karmaNotificationInterval {
          kind := BanWarning;
        } else {
          kind := if karmaChange < 0.0 then DecreasedUnknownAmount else IncreasedUnknownAmount;
        }
        assert Some(kind) == NotifyDecision(cfg, testMode, c.karma, m.previousNotifiedKarma, reason);
        assert Sends(c, MessageNotices(Some(kind))) == [Send(c, Message(kind))];
        outbox := outbox + [Send(c, Message(kind))];
        clientMemories := clientMemories[c := m.(previousNotifiedKarma := c.karma)];
      }
    }

    /** The state AdjustKarma leaves for client `c`, from its karma, the memories and the outbox before. */
    ghost predicate AppliedFrom(c: Client, clown: bool, amount: real, reason: Reason,
                                karma0: real, mems0: map<Client, ClientMemory>, out0: seq<Directive>)
      reads this, c
    {
      var a := ApplyKarma(cfg, testMode, clown, karma0, Lookup(mems0, c), amount, reason);
      c.karma == a.karma &&
      clientMemories == (if a.memory.Some? then mems0[c := a.memory.value] else mems0) &&
      outbox == out0 + Sends(c, MessageNotices(a.message))
    }

    /** The state AdjustKarma leaves: nothing for an untracked character, else AppliedFrom its client. */
    ghost predicate Adjusted(connected: seq<Client>, target: Option<Character>, amount: real, reason: Reason,
                             karma0: real, mems0: map<Client, ClientMemory>, out0: seq<Directive>)
      reads this, TargetSet(connected, target)
    {
      var t := TargetClient(connected, target);
      if t.None? then clientMemories == mems0 && outbox == out0
      else AppliedFrom(t.value, IsClown(target.value), amount, reason, karma0, mems0, out0)
    }

    /** The part of AdjustKarma after the client has been found. */
    method AdjustClientKarma(c: Client, clown: bool, amount: real, reason: Reason)
      modifies this`clientMemories, this`outbox, c`karma
      ensures AppliedFrom(c, clown, amount, reason, old(c.karma), old(clientMemories), old(outbox))
    {
      var a := amount;
      if clown {
        a := a * 0.5;
      }
      c.karma := c.karma + a;
      if testMode {
        SendKarmaNotifications(c, reason);
      }
    }

    /** AdjustKarma: add the (clown-halved) amount to the karma of the character's client, if it has one. */
    method AdjustKarma(connected: seq<Client>, target: Option<Character>, amount: real, reason: Reason)
      modifies this`clientMemories, this`outbox, TargetSet(connected, target)
      ensures Adjusted(connected, target, amount, reason, old(TargetKarma(connected, target)), old(clientMemories), old(outbox))
      ensures forall c :: c in TargetSet(connected, target) ==> c.herpes == old(c.herpes)
    {
      if target.None? {
        return;
      }
      var client := FindClient(connected, target.value.id);
      if client.None? {
        return;
      }
      AdjustClientKarma(client.value, IsClown(target.value), amount, reason);
    }

    /** OnSpamFilterTriggered: a flat decrease, without clown halving, then the notification check. */
    method OnSpamFilterTriggered(client: Option<Client>)
      modifies this`clientMemories, this`outbox, if client.Some? then {client.value} else {}
      ensures client.None? ==> clientMemories == old(clientMemories) && outbox == old(outbox)
      ensures client.Some? ==>
                var c := client.value;
                var n := NotifyStep(cfg, testMode, old(MemoryOf(c)), c.karma, SpamFilter);
                c.karma == old(c.karma) - cfg.spamFilterKarmaDecrease && c.herpes == old(c.herpes) &&
                clientMemories == old(clientMemories)[c := n.memory] &&
                outbox == old(outbox) + Sends(c, MessageNotices(n.message))
    {
      if client.Some? {
        var c := client.value;
        c.karma := c.karma - cfg.spamFilterKarmaDecrease;
        SendKarmaNotifications(c, SpamFilter);
      }
    }

    /** OnCharacterHealthChanged: reward damaging enemies and healing friends, penalise hurting friends. */
    method OnCharacterHealthChanged(connected: seq<Client>, target: Option<Character>, attacker: Option<Character>,
                                    damage: real, afflictions: seq<Affliction>, traitors: TraitorFacts)
      modifies this`clientMemories, this`outbox, TargetSet(connected, attacker)
      ensures var r := CharacterHealthDelta(cfg, target, attacker, damage, afflictions, traitors);
              r.None? ==> clientMemories == old(clientMemories) && outbox == old(outbox) &&
                          forall c :: c in TargetSet(connected, attacker) ==> c.karma == old(c.karma)
      ensures var r := CharacterHealthDelta(cfg, target, attacker, damage, afflictions, traitors);
              r.Some? ==> Adjusted(connected, attacker, r.value.amount, r.value.reason,
                                   old(TargetKarma(connected, attacker)), old(clientMemories), old(outbox))
      ensures forall c :: c in TargetSet(connected, attacker) ==> c.herpes == old(c.herpes)
    {
      if target.None? || attacker.None? {
        return;
      }
      if target.value.id == attacker.value.id {
        return;
      }
      if target.value.isDead || target.value.removed {
        return;
      }
      var t, a := target.value, attacker.value;
      var isEnemy := t.controlledByEnemyAI || t.teamId != a.teamId;
      if traitors.targetIsTraitor {
        isEnemy := true;
      }
      if traitors.attackerIsTraitorWithTargetAsEnemy {
        isEnemy := true;
      }
      var d := KarmaDamage(t, damage, afflictions);
      ghost var r := CharacterHealthDelta(cfg, target, attacker, damage, afflictions, traitors);
      CharacterHealthKinds(cfg, t, a, damage, afflictions, traitors);
      assert isEnemy == IsEnemy(t, a, traitors);
      if isEnemy {
        if d > 0.0 {
          DamageEnemy(connected, attacker, d, r.value);
        }
      } else if d > 0.0 {
        DamageFriend(connected, attacker, d, r.value);
      } else {
        HealFriend(connected, attacker, d, r.value);
      }
    }

    /** OnCharacterHealthChanged, enemy damaged: the reward, doubled for a security officer. */
    method DamageEnemy(connected: seq<Client>, attacker: Option<Character>, d: real, ghost delta: KarmaDelta)
      requires attacker.Some?
      requires delta == KarmaDelta(d * cfg.damageEnemyKarmaIncrease * RoleFactor(attacker.value.job == SecurityOfficer), DamagedEnemy)
      modifies this`clientMemories, this`outbox, TargetSet(connected, attacker)
      ensures Adjusted(connected, attacker, delta.amount, delta.reason,
                       old(TargetKarma(connected, attacker)), old(clientMemories), old(outbox))
      ensures forall c :: c in TargetSet(connected, attacker) ==> c.herpes == old(c.herpes)
    {
      var karmaIncrease := d * cfg.damageEnemyKarmaIncrease;
      if attacker.value.job == SecurityOfficer {
        karmaIncrease := karmaIncrease * 2.0;
      }
      assert karmaIncrease == delta.amount;
      AdjustKarma(connected, attacker, karmaIncrease, DamagedEnemy);
    }

    /** OnCharacterHealthChanged, friend damaged: the penalty. */
    method DamageFriend(connected: seq<Client>, attacker: Option<Character>, d: real, ghost delta: KarmaDelta)
      requires delta == KarmaDelta(-d * cfg.damageFriendlyKarmaDecrease, DamagedFriendly)
      modifies this`clientMemories, this`outbox, TargetSet(connected, attacker)
      ensures Adjusted(connected, attacker, delta.amount, delta.reason,
                       old(TargetKarma(connected, attacker)), old(clientMemories), old(outbox))
      ensures forall c :: c in TargetSet(connected, attacker) ==> c.herpes == old(c.herpes)
    {
      AdjustKarma(connected, attacker, -d * cfg.damageFriendlyKarmaDecrease, DamagedFriendly);
    }

    /** OnCharacterHealthChanged, friend healed: the reward, doubled for a medical doctor. */
    method HealFriend(connected: seq<Client>, attacker: Option<Character>, d: real, ghost delta: KarmaDelta)
      requires attacker.Some?
      requires delta == KarmaDelta(-d * cfg.healFriendlyKarmaIncrease * RoleFactor(attacker.value.job == MedicalDoctor), HealedFriendly)
      modifies this`clientMemories, this`outbox, TargetSet(connected, attacker)
      ensures Adjusted(connected, attacker, delta.amount, delta.reason,
                       old(TargetKarma(connected, attacker)), old(clientMemories), old(outbox))
      ensures forall c :: c in TargetSet(connected, attacker) ==> c.herpes == old(c.herpes)
    {
      var karmaIncrease := -d * cfg.healFriendlyKarmaIncrease;
      if attacker.value.job == MedicalDoctor {
        karmaIncrease := karmaIncrease * 2.0;
      }
      assert karmaIncrease == delta.amount;
      AdjustKarma(connected, attacker, karmaIncrease, HealedFriendly);
    }

    /**
      OnStructureHealthChanged: only structures of the attacker's own team count;
      damage is added to the attacker's per-second accumulator and charged up to the
      per-second cap, repair is rewarded without a cap.
    */
    method OnStructureHealthChanged(connected: seq<Client>, structureTeam: Option<int>, attacker: Option<Character>,
                                    damageAmount: real)
      modifies this`clientMemories, this`outbox, TargetSet(connected, attacker)
      ensures attacker.None? || structureTeam.None? || structureTeam.value != attacker.value.teamId
              || (damageAmount > 0.0 && cfg.structureDamageKarmaDecrease <= 0.0) ==>
                clientMemories == old(clientMemories) && outbox == old(outbox) &&
                forall c :: c in TargetSet(connected, attacker) ==> c.karma == old(c.karma)
      ensures attacker.Some? && structureTeam == Some(attacker.value.teamId) && damageAmount <= 0.0 ==>
                Adjusted(connected, attacker, StructureRepairDelta(cfg, attacker.value, damageAmount), RepairedStructures,
                         old(TargetKarma(connected, attacker)), old(clientMemories), old(outbox))
      ensures attacker.Some? && structureTeam == Some(attacker.value.teamId) && damageAmount > 0.0
              && cfg.structureDamageKarmaDecrease > 0.0 && TargetClient(connected, attacker).None? ==>
                clientMemories == old(clientMemories) && outbox == old(outbox)
      ensures attacker.Some? && structureTeam == Some(attacker.value.teamId) && damageAmount > 0.0
              && cfg.structureDamageKarmaDecrease > 0.0 && TargetClient(connected, attacker).Some? ==>
                var c := TargetClient(connected, attacker).value;
                var charge := ChargeStructureDamage(cfg, MemoryOrNew(old(MemoryOf(c)), old(c.karma)), damageAmount);
                var mems1 := old(clientMemories)[c := charge.memory];
                if charge.charged.None? then
                  clientMemories == mems1 && outbox == old(outbox) && c.karma == old(c.karma)
                else
                  AppliedFrom(c, IsClown(attacker.value), -charge.charged.value * cfg.structureDamageKarmaDecrease,
                              DamagedStructures, old(c.karma), mems1, old(outbox))
      ensures forall c :: c in TargetSet(connected, attacker) ==> c.herpes == old(c.herpes)
    {
      if attacker.None? {
        return;
      }
      if structureTeam.None? || structureTeam.value != attacker.value.teamId {
        return;
      }
      if damageAmount > 0.0 {
        if cfg.structureDamageKarmaDecrease <= 0.0 {
          return;
        }
        DamageStructure(connected, attacker, damageAmount);
      } else {
        RepairStructure(connected, attacker, damageAmount);
      }
    }

    /** The damage branch of OnStructureHealthChanged: the attacker's client, if any, is charged. */
    method DamageStructure(connected: seq<Client>, attacker: Option<Character>, damageAmount: real)
      requires attacker.Some? && cfg.structureDamageKarmaDecrease > 0.0 && damageAmount > 0.0
      modifies this`clientMemories, this`outbox, TargetSet(connected, attacker)
      ensures TargetClient(connected, attacker).None? ==> clientMemories == old(clientMemories) && outbox == old(outbox)
      ensures TargetClient(connected, attacker).Some? ==>
                var c := TargetClient(connected, attacker).value;
                var charge := ChargeStructureDamage(cfg, MemoryOrNew(old(MemoryOf(c)), old(c.karma)), damageAmount);
                var mems1 := old(clientMemories)[c := charge.memory];
                if charge.charged.None? then
                  clientMemories == mems1 && outbox == old(outbox) && c.karma == old(c.karma)
                else
                  AppliedFrom(c, IsClown(attacker.value), -charge.charged.value * cfg.structureDamageKarmaDecrease,
                              DamagedStructures, old(c.karma), mems1, old(outbox))
      ensures forall c :: c in TargetSet(connected, attacker) ==> c.herpes == old(c.herpes)
    {
      var client := FindClient(connected, attacker.value.id);
      if client.Some? {
        ChargeStructureHit(client.value, IsClown(attacker.value), damageAmount);
      }
    }

    /** The repair branch of OnStructureHealthChanged: a reward with no cap, doubled for a mechanic. */
    method RepairStructure(connected: seq<Client>, attacker: Option<Character>, damageAmount: real)
      requires attacker.Some? && damageAmount <= 0.0
      modifies this`clientMemories, this`outbox, TargetSet(connected, attacker)
      ensures Adjusted(connected, attacker, StructureRepairDelta(cfg, attacker.value, damageAmount), RepairedStructures,
                       old(TargetKarma(connected, attacker)), old(clientMemories), old(outbox))
      ensures forall c :: c in TargetSet(connected, attacker) ==> c.herpes == old(c.herpes)
    {
      var karmaIncrease := -damageAmount * cfg.structureRepairKarmaIncrease;
      if attacker.value.job == Mechanic {
        karmaIncrease := karmaIncrease * 2.0;
      }
      assert karmaIncrease == StructureRepairDelta(cfg, attacker.value, damageAmount);
      AdjustKarma(connected, attacker, karmaIncrease, RepairedStructures);
    }

    /**
      The accumulator and the per-second cap of OnStructureHealthChanged: the hit is
      added to the accumulator, and the part of it under the cap is what gets charged.
    */
    method ChargeStructureDamageFor(c: Client, damageAmount: real) returns (charged: Option<real>)
      requires cfg.structureDamageKarmaDecrease > 0.0 && damageAmount > 0.0
      modifies this`clientMemories
      ensures var charge := ChargeStructureDamage(cfg, MemoryOrNew(old(MemoryOf(c)), c.karma), damageAmount);
              charged == charge.charged && clientMemories == old(clientMemories)[c := charge.memory]
    {
      var d := damageAmount;
      var m := GetClientMemory(c);
      var cap := cfg.maxStructureDamageKarmaDecreasePerSecond / cfg.structureDamageKarmaDecrease;
      var perSecond := m.StructureDamagePerSecond();
      ghost var charge := ChargeStructureDamage(cfg, m, damageAmount);
      clientMemories := clientMemories[c := m.(structureDamageAccumulator := m.structureDamageAccumulator + d)];
      MapUpdateTwice(old(clientMemories), c, m, charge.memory);
      if perSecond + d >= cap {
        d := d - ((perSecond + d) - cap);
        if d <= 0.0 {
          return None;
        }
      }
      return Some(d);
    }

    /** The damage branch of OnStructureHealthChanged, once the attacker's client is found. */
    method ChargeStructureHit(c: Client, clown: bool, damageAmount: real)
      requires cfg.structureDamageKarmaDecrease > 0.0 && damageAmount > 0.0
      modifies this`clientMemories, this`outbox, c`karma
      ensures var charge := ChargeStructureDamage(cfg, MemoryOrNew(old(MemoryOf(c)), old(c.karma)), damageAmount);
              var mems1 := old(clientMemories)[c := charge.memory];
              if charge.charged.None? then
                clientMemories == mems1 && outbox == old(outbox) && c.karma == old(c.karma)
              else
                AppliedFrom(c, clown, -charge.charged.value * cfg.structureDamageKarmaDecrease,
                            DamagedStructures, old(c.karma), mems1, old(outbox))
    {
      var charged := ChargeStructureDamageFor(c, damageAmount);
      if charged.Some? {
        AdjustClientKarma(c, clown, -charged.value * cfg.structureDamageKarmaDecrease, DamagedStructures);
      }
    }

    /** OnItemRepaired: proportional to the repair, doubled with the item's required skills. */
    method OnItemRepaired(connected: seq<Client>, character: Option<Character>, hasRequiredSkills: bool, repairAmount: real)
      modifies this`clientMemories, this`outbox, TargetSet(connected, character)
      ensures Adjusted(connected, character, ItemRepairDelta(cfg, repairAmount, hasRequiredSkills), RepairedItem,
                       old(TargetKarma(connected, character)), old(clientMemories), old(outbox))
      ensures forall c :: c in TargetSet(connected, character) ==> c.herpes == old(c.herpes)
    {
      var karmaIncrease := repairAmount * cfg.itemRepairKarmaIncrease;
      if hasRequiredSkills {
        karmaIncrease := karmaIncrease * 2.0;
      }
      assert karmaIncrease == ItemRepairDelta(cfg, repairAmount, hasRequiredSkills);
      AdjustKarma(connected, character, karmaIncrease, RepairedItem);
    }

    /** OnReactorOverHeating: a loss proportional to the elapsed time. */
    method OnReactorOverHeating(connected: seq<Client>, character: Option<Character>, deltaTime: real)
      modifies this`clientMemories, this`outbox, TargetSet(connected, character)
      ensures Adjusted(connected, character, ReactorOverheatDelta(cfg, deltaTime), ReactorOverheat,
                       old(TargetKarma(connected, character)), old(clientMemories), old(outbox))
      ensures forall c :: c in TargetSet(connected, character) ==> c.herpes == old(c.herpes)
    {
      var karmaDecrease := -cfg.reactorOverheatKarmaDecrease * deltaTime;
      assert karmaDecrease == ReactorOverheatDelta(cfg, deltaTime);
      AdjustKarma(connected, character, karmaDecrease, ReactorOverheat);
    }

    /** OnReactorMeltdown: a one-off loss. */
    method OnReactorMeltdown(connected: seq<Client>, character: Option<Character>)
      modifies this`clientMemories, this`outbox, TargetSet(connected, character)
      ensures Adjusted(connected, character, -cfg.reactorMeltdownKarmaDecrease, ReactorMeltdown,
                       old(TargetKarma(connected, character)), old(clientMemories), old(outbox))
      ensures forall c :: c in TargetSet(connected, character) ==> c.herpes == old(c.herpes)
    {
      AdjustKarma(connected, character, -cfg.reactorMeltdownKarmaDecrease, ReactorMeltdown);
    }

    /** OnExtinguishingFire: a gain proportional to the elapsed time. */
    method OnExtinguishingFire(connected: seq<Client>, character: Option<Character>, deltaTime: real)
      modifies this`clientMemories, this`outbox, TargetSet(connected, character)
      ensures Adjusted(connected, character, ExtinguishFireDelta(cfg, deltaTime), ExtinguishedFire,
                       old(TargetKarma(connected, character)), old(clientMemories), old(outbox))
      ensures forall c :: c in TargetSet(connected, character) ==> c.herpes == old(c.herpes)
    {
      var karmaIncrease := cfg.extinguishFireKarmaIncrease * deltaTime;
      assert karmaIncrease == ExtinguishFireDelta(cfg, deltaTime);
      AdjustKarma(connected, character, karmaIncrease, ExtinguishedFire);
    }

    /**
      OnWireDisconnected: the wire's earlier entry, if any, is dropped and the wire
      appended with the current time; memory created here starts with every field
      at its default.
    */
    method OnWireDisconnected(connected: seq<Client>, character: Option<Character>, wire: Option<WireId>, totalTime: real)
      modifies this`clientMemories
      ensures character.None? || wire.None? || TargetClient(connected, character).None? ==>
                clientMemories == old(clientMemories)
      ensures character.Some? && wire.Some? && TargetClient(connected, character).Some? ==>
                var c := TargetClient(connected, character).value;
                var m := if c in old(clientMemories) then old(clientMemories)[c] else DefaultMemory();
                clientMemories == old(clientMemories)[c := m.(wireDisconnectTime := RecordWire(m.wireDisconnectTime, wire.value, totalTime))]
    {
      if character.None? || wire.None? {
        return;
      }
      var client := FindClient(connected, character.value.id);
      if client.None? {
        return;
      }
      var c := client.value;
      if c !in clientMemories {
        clientMemories := clientMemories[c := ClientMemory([], 0.0, 0.0, 0.0)];
      }
      var ws := WithoutWire(clientMemories[c].wireDisconnectTime, wire.value);
      ws := ws + [WireEvent(wire.value, totalTime)];
      clientMemories := clientMemories[c := clientMemories[c].(wireDisconnectTime := ws)];
    }

    /** The first phase of UpdateClient: drift toward the neutral band, then the herpes band. */
    method DriftAndHerpes(c: Client, deltaTime: real)
      modifies c, this`outbox
      ensures c.karma == DecayedKarma(cfg, old(c.karma), deltaTime)
      ensures var hc := HerpesUpdate(old(c.herpes), HerpesStrength(c.karma));
              c.herpes == hc.affliction &&
              outbox == old(outbox) + Sends(c, if hc.cureInvertControls then [CureInvertControls] else [])
    {
      if c.karma > cfg.karmaDecayThreshold {
        c.karma := c.karma - cfg.karmaDecay * deltaTime;
      } else if c.karma < cfg.karmaIncreaseThreshold {
        c.karma := c.karma + cfg.karmaIncrease * deltaTime;
      }
      // the strength moves in steps, so that it does not reveal the exact karma
      var herpesStrength := HerpesStrength(c.karma);
      if c.herpes.None? && herpesStrength > 0.0 {
        c.herpes := Some(herpesStrength);
      } else if c.herpes.Some? {
        c.herpes := Some(herpesStrength);
        if herpesStrength <= 0.0 {
          outbox := outbox + [Send(c, CureInvertControls)];
        }
      }
    }

    /** The wire phase of UpdateClient: trim the list to the allowance, penalise a full recent window. */
    method PenaliseWires(clients: seq<Client>, c: Client, ch: Character, totalTime: real)
      requires c in clientMemories && c.character == Some(ch)
      requires FindClient(clients, ch.id) == Some(c)
      modifies this`clientMemories, this`outbox, c
      ensures c.herpes == old(c.herpes)
      ensures var a := WireStep(cfg, testMode, ch, old(c.karma), old(clientMemories[c]), totalTime);
              c.karma == a.karma && clientMemories == old(clientMemories)[c := a.memory.value] &&
              outbox == old(outbox) + Sends(c, MessageNotices(a.message))
    {
      ghost var m0 := clientMemories;
      var m := GetClientMemory(c);
      MapUpdateSame(m0, c);
      if |m.wireDisconnectTime| > cfg.allowedWireDisconnectionsPerMinute {
        var kept := m.wireDisconnectTime[|m.wireDisconnectTime| - cfg.allowedWireDisconnectionsPerMinute..];
        clientMemories := clientMemories[c := m.(wireDisconnectTime := kept)];
        if AllRecent(kept, totalTime) {
          var karmaDecrease := -cfg.wireDisconnectionKarmaDecrease;
          if ch.job == Engineer {
            karmaDecrease := karmaDecrease * 0.5;
          }
          assert karmaDecrease == WirePenalty(cfg, ch.job);
          AdjustKarma(clients, c.character, karmaDecrease, DisconnectedWires);
        }
        ghost var a := WireStep(cfg, testMode, ch, old(c.karma), m0[c], totalTime);
        MapUpdateTwice(m0, c, m.(wireDisconnectTime := kept), a.memory.value);
      }
    }

    /** The captain's bonus for every second spent at the helm. */
    method SteeringBonus(clients: seq<Client>, c: Client, ch: Character, deltaTime: real)
      requires c in clientMemories && c.character == Some(ch)
      requires FindClient(clients, ch.id) == Some(c)
      modifies this`clientMemories, this`outbox, c
      ensures c.herpes == old(c.herpes)
      ensures var b := SteerStep(cfg, testMode, ch, old(c.karma), old(clientMemories[c]), deltaTime);
              c.karma == b.karma && clientMemories == old(clientMemories)[c := b.memory.value] &&
              outbox == old(outbox) + Sends(c, MessageNotices(b.message))
    {
      if ch.job == Captain && ch.operatingSteering {
        AdjustKarma(clients, c.character, cfg.steerSubKarmaIncrease * deltaTime, SteeringSub);
      }
    }

    /** The wire phase, then the steering phase, of UpdateClient. */
    method WiresThenSteering(clients: seq<Client>, c: Client, ch: Character, deltaTime: real, totalTime: real,
                             ghost karma0: real, ghost mem0: ClientMemory)
      requires c in clientMemories && c.character == Some(ch)
      requires FindClient(clients, ch.id) == Some(c)
      requires c.karma == karma0 && clientMemories[c] == mem0
      modifies this`clientMemories, this`outbox, c
      ensures var a := WireStep(cfg, testMode, ch, karma0, mem0, totalTime);
              var b := SteerStep(cfg, testMode, ch, a.karma, a.memory.value, deltaTime);
              c.karma == b.karma && c.herpes == old(c.herpes) &&
              clientMemories == old(clientMemories)[c := b.memory.value] &&
              outbox == old(outbox) + Sends(c, MessageNotices(a.message) + MessageNotices(b.message))
    {
      PenaliseWires(clients, c, ch, totalTime);
      ghost var a := WireStep(cfg, testMode, ch, karma0, mem0, totalTime);
      SteeringBonus(clients, c, ch, deltaTime);
      ghost var b := SteerStep(cfg, testMode, ch, a.karma, a.memory.value, deltaTime);
      MapUpdateTwice(old(clientMemories), c, a.memory.value, b.memory.value);
      SendsConcat(c, MessageNotices(a.message), MessageNotices(b.message));
      AppendAssociates(old(outbox), Sends(c, MessageNotices(a.message)), Sends(c, MessageNotices(b.message)));
    }

    /** The phases of UpdateClient for a live character, one after the other. */
    method LivePhases(clients: seq<Client>, c: Client, ch: Character, deltaTime: real, totalTime: real)
      requires c in clientMemories && c.character == Some(ch)
      requires FindClient(clients, ch.id) == Some(c)
      modifies this`clientMemories, this`outbox, c
      ensures var k1 := DecayedKarma(cfg, old(c.karma), deltaTime);
              var hc := HerpesUpdate(old(c.herpes), HerpesStrength(k1));
              var a := WireStep(cfg, testMode, ch, k1, old(clientMemories[c]), totalTime);
              var b := SteerStep(cfg, testMode, ch, a.karma, a.memory.value, deltaTime);
              c.karma == b.karma && c.herpes == hc.affliction &&
              clientMemories == old(clientMemories)[c := b.memory.value] &&
              outbox == old(outbox) + Sends(c, (if hc.cureInvertControls then [CureInvertControls] else [])
                                               + MessageNotices(a.message) + MessageNotices(b.message))
    {
      DriftAndHerpes(c, deltaTime);
      ghost var hc := HerpesUpdate(old(c.herpes), HerpesStrength(c.karma));
      ghost var cure: seq<Notice> := if hc.cureInvertControls then [CureInvertControls] else [];
      WiresThenSteering(clients, c, ch, deltaTime, totalTime, DecayedKarma(cfg, old(c.karma), deltaTime), old(clientMemories[c]));
      ghost var a := WireStep(cfg, testMode, ch, DecayedKarma(cfg, old(c.karma), deltaTime), old(clientMemories[c]), totalTime);
      ghost var b := SteerStep(cfg, testMode, ch, a.karma, a.memory.value, deltaTime);
      SendsConcat(c, cure, MessageNotices(a.message) + MessageNotices(b.message));
      AppendAssociates(cure, MessageNotices(a.message), MessageNotices(b.message));
      AppendAssociates(old(outbox), Sends(c, cure), Sends(c, MessageNotices(a.message) + MessageNotices(b.message)));
    }

    /** UpdateClient up to the ban check. */
    method DriftAndPenalise(clients: seq<Client>, c: Client, deltaTime: real, totalTime: real)
      requires c in clientMemories
      requires c.character.Some? ==> FindClient(clients, c.character.value.id) == Some(c)
      modifies this`clientMemories, this`outbox, c
      ensures var o := DriftAndPenalties(cfg, testMode, c.character, old(c.karma), old(c.herpes),
                                         old(clientMemories[c]), deltaTime, totalTime);
              c.karma == o.karma && c.herpes == o.herpes &&
              clientMemories == old(clientMemories)[c := o.memory] &&
              outbox == old(outbox) + Sends(c, o.notices)
    {
      if c.character.Some? && !c.character.value.removed {
        LiveTickSteps(cfg, testMode, c.character.value, c.karma, c.herpes, clientMemories[c], deltaTime, totalTime);
        LivePhases(clients, c, c.character.value, deltaTime, totalTime);
      } else {
        assert Sends(c, []) == [];
      }
    }

    /** UpdateClient for a client whose memory exists and whose character lookup finds it. */
    method UpdateClient(clients: seq<Client>, c: Client, deltaTime: real, totalTime: real, isOwner: bool,
                        ghost o: TickOutcome)
      requires c in clientMemories
      requires c.character.Some? ==> FindClient(clients, c.character.value.id) == Some(c)
      requires o == UpdateClientOutcome(cfg, testMode, c.character, isOwner, c.karma, c.herpes, clientMemories[c],
                                        deltaTime, totalTime)
      modifies this`clientMemories, this`outbox, this`bannedClients, c
      ensures c.karma == o.karma && c.herpes == o.herpes
      ensures clientMemories == old(clientMemories)[c := o.memory]
      ensures outbox == old(outbox) + Sends(c, o.notices)
      ensures bannedClients == old(bannedClients) + (if o.banned then [c] else [])
    {
      ghost var pre := DriftAndPenalties(cfg, testMode, c.character, c.karma, c.herpes, clientMemories[c], deltaTime, totalTime);
      DriftAndPenalise(clients, c, deltaTime, totalTime);
      if c.karma < cfg.kickBanThreshold && !isOwner {
        if testMode {
          c.karma := 50.0;
          outbox := outbox + [Send(c, Message(NotReallyBanned))];
          SendsConcat(c, pre.notices, [Message(NotReallyBanned)]);
          AppendAssociates(old(outbox), Sends(c, pre.notices), [Send(c, Message(NotReallyBanned))]);
        } else {
          bannedClients := bannedClients + [c];
        }
      }
    }

    /** What UpdateClients reads of one client. */
    ghost function StateOf(c: Client): ClientState
      reads this`clientMemories, c
    {
      ClientState(c.character, c.connection, c.karma, c.herpes, MemoryOf(c))
    }

    ghost function StatesOf(clients: seq<Client>): (r: seq<ClientState>)
      reads this`clientMemories, clients
      ensures |r| == |clients|
      decreases |clients|
    {
      if clients == [] then [] else StatesOf(clients[..|clients| - 1]) + [StateOf(clients[|clients| - 1])]
    }

    /** The snapshot holds each client's fields and current memory. */
    lemma {:induction false} StatesMatch(clients: seq<Client>)
      ensures forall j :: 0 <= j < |clients| ==>
                var st := StatesOf(clients)[j];
                st.character == clients[j].character && st.connection == clients[j].connection &&
                st.karma == clients[j].karma && st.herpes == clients[j].herpes &&
                st.memory == Lookup(clientMemories, clients[j])
      decreases |clients|
    {
      if clients != [] {
        var n := |clients| - 1;
        StatesMatch(clients[..n]);
        assert forall j :: 0 <= j < n ==> clients[..n][j] == clients[j];
      }
    }

    /** What UpdateClients' loop does to each client, read in the state before the loop. */
    ghost function TickOutcomes(clients: seq<Client>, deltaTime: real, totalTime: real, owner: Option<ConnectionId>,
                                rollover: bool): (r: seq<TickOutcome>)
      reads this`clientMemories, this`testMode, clients
      ensures |r| == |clients|
    {
      OutcomesFrom(cfg, testMode, StatesOf(clients), deltaTime, totalTime, owner, rollover)
    }

    /** One pass of UpdateClients' loop: the memory lookup, UpdateClient, and the rollover when due. */
    method TickOne(clients: seq<Client>, i: nat, deltaTime: real, totalTime: real, owner: Option<ConnectionId>,
                   rollover: bool, ghost snap: seq<ClientState>, ghost outs: seq<TickOutcome>)
      requires i < |clients| == |snap|
      requires clients[i].character.Some? ==> FindClient(clients, clients[i].character.value.id) == Some(clients[i])
      requires clients[i].character == snap[i].character && clients[i].connection == snap[i].connection
      requires clients[i].karma == snap[i].karma && clients[i].herpes == snap[i].herpes
      requires MemoryOf(clients[i]) == snap[i].memory
      requires |outs| == |snap| && forall j {:trigger IsTickOf(cfg, testMode, snap[j], deltaTime, totalTime, owner, rollover, outs[j])} ::
                 0 <= j < |snap| ==> IsTickOf(cfg, testMode, snap[j], deltaTime, totalTime, owner, rollover, outs[j])
      modifies this`clientMemories, this`outbox, this`bannedClients, clients[i]
      ensures clients[i].karma == outs[i].karma && clients[i].herpes == outs[i].herpes
      ensures clientMemories == old(clientMemories)[clients[i] := outs[i].memory]
      ensures outbox == old(outbox) + Sends(clients[i], outs[i].notices)
      ensures bannedClients == old(bannedClients) + (if outs[i].banned then [clients[i]] else [])
    {
      assert IsTickOf(cfg, testMode, snap[i], deltaTime, totalTime, owner, rollover, outs[i]);
      ghost var st := snap[i];
      ghost var u := UpdateClientOutcome(cfg, testMode, st.character, owner == Some(st.connection), st.karma, st.herpes,
                                         MemoryOrNew(st.memory, st.karma), deltaTime, totalTime);
      TickInner(clients, i, deltaTime, totalTime, owner == Some(clients[i].connection), rollover, st, u);
    }

    method TickInner(clients: seq<Client>, i: nat, deltaTime: real, totalTime: real, isOwner: bool, rollover: bool,
                     ghost s: ClientState, ghost u: TickOutcome)
      requires i < |clients|
      requires clients[i].character.Some? ==> FindClient(clients, clients[i].character.value.id) == Some(clients[i])
      requires clients[i].character == s.character && clients[i].karma == s.karma && clients[i].herpes == s.herpes
      requires MemoryOf(clients[i]) == s.memory
      requires u == UpdateClientOutcome(cfg, testMode, s.character, isOwner, s.karma, s.herpes,
                                        MemoryOrNew(s.memory, s.karma), deltaTime, totalTime)
      modifies this`clientMemories, this`outbox, this`bannedClients, clients[i]
      ensures clients[i].karma == u.karma && clients[i].herpes == u.herpes
      ensures clientMemories == old(clientMemories)[clients[i] := if rollover then Rollover(u.memory) else u.memory]
      ensures outbox == old(outbox) + Sends(clients[i], u.notices)
      ensures bannedClients == old(bannedClients) + (if u.banned then [clients[i]] else [])
    {
      var c := clients[i];
      ghost var m0 := clientMemories;
      var clientMemory := GetClientMemory(c);
      UpdateClient(clients, c, deltaTime, totalTime, isOwner, u);
      MapUpdateTwice(m0, c, clientMemory, u.memory);
      if rollover {
        clientMemories := clientMemories[c := Rollover(clientMemories[c])];
        MapUpdateTwice(m0, c, u.memory, Rollover(u.memory));
      }
    }

    /** What the tick loop has done once its first i clients are through. */
    ghost predicate TickedUpTo(clients: seq<Client>, snap: seq<ClientState>, outs: seq<TickOutcome>, i: nat,
                               m0: map<Client, ClientMemory>, outbox0: seq<Directive>, banned0: seq<Client>)
      reads this, clients
      requires i <= |clients| == |snap| == |outs|
    {
      (forall j :: 0 <= j < i ==> clients[j].karma == outs[j].karma && clients[j].herpes == outs[j].herpes) &&
      (forall j :: i <= j < |clients| ==> clients[j].karma == snap[j].karma && clients[j].herpes == snap[j].herpes) &&
      clientMemories == Overwrite(m0, clients, MemoriesOf(outs), i) &&
      outbox == outbox0 + TickDirectives(clients, outs, i) &&
      bannedClients == banned0 + BannedOf(clients, outs, i)
    }

    /** One pass of the tick loop, from the i-th client's state before the loop. */
    method TickStep(clients: seq<Client>, i: nat, deltaTime: real, totalTime: real, owner: Option<ConnectionId>,
                    rollover: bool, ghost snap: seq<ClientState>, ghost outs: seq<TickOutcome>,
                    ghost m0: map<Client, ClientMemory>, ghost outbox0: seq<Directive>, ghost banned0: seq<Client>)
      requires i < |clients| == |snap|
      requires ControlledWell(clients, i)
      requires forall j :: 0 <= j < |clients| ==>
                 snap[j].character == clients[j].character && snap[j].connection == clients[j].connection &&
                 snap[j].memory == Lookup(m0, clients[j])
      requires |outs| == |snap| && forall j {:trigger IsTickOf(cfg, testMode, snap[j], deltaTime, totalTime, owner, rollover, outs[j])} ::
                 0 <= j < |snap| ==> IsTickOf(cfg, testMode, snap[j], deltaTime, totalTime, owner, rollover, outs[j])
      requires TickedUpTo(clients, snap, outs, i, m0, outbox0, banned0)
      modifies this`clientMemories, this`outbox, this`bannedClients, clients[i]
      ensures TickedUpTo(clients, snap, outs, i + 1, m0, outbox0, banned0)
    {
      var c := clients[i];
      OverwriteOutside(m0, clients, MemoriesOf(outs), i, c);
      TickOne(clients, i, deltaTime, totalTime, owner, rollover, snap, outs);
      AppendAssociates(outbox0, TickDirectives(clients, outs, i), Sends(c, outs[i].notices));
      AppendAssociates(banned0, BannedOf(clients, outs, i), if outs[i].banned then [c] else []);
    }

    /** The loop of UpdateClients: each client's update, then the per-second rollover of its memory when due. */
    method TickClients(clients: seq<Client>, deltaTime: real, now: real, totalTime: real, owner: Option<ConnectionId>,
                       ghost outs: seq<TickOutcome>)
      requires UniquelyControlled(clients)
      requires outs == TickOutcomes(clients, deltaTime, totalTime, owner, perSecondUpdate < now)
      modifies this`clientMemories, this`outbox, this`bannedClients, clients
      ensures forall i :: 0 <= i < |clients| ==> clients[i].karma == outs[i].karma && clients[i].herpes == outs[i].herpes
      ensures forall i :: 0 <= i < |clients| ==> clients[i] in clientMemories && clientMemories[clients[i]] == outs[i].memory
      ensures forall c :: c in clientMemories <==> c in old(clientMemories) || c in clients
      ensures forall c :: c in old(clientMemories) && c !in clients ==> clientMemories[c] == old(clientMemories)[c]
      ensures outbox == old(outbox) + TickDirectives(clients, outs, |clients|)
      ensures bannedClients == BannedOf(clients, outs, |clients|)
    {
      ghost var snap := StatesOf(clients);
      var rollover := perSecondUpdate < now;
      StatesMatch(clients);
      ControlledEverywhere(clients);
      OutcomesAreTicks(cfg, testMode, snap, deltaTime, totalTime, owner, rollover, outs);
      TickLoop(clients, deltaTime, totalTime, owner, rollover, snap, outs);
      OverwriteAll(old(clientMemories), clients, MemoriesOf(outs));
    }

    /** The tick loop proper, over a snapshot of the clients taken before it. */
    method TickLoop(clients: seq<Client>, deltaTime: real, totalTime: real, owner: Option<ConnectionId>,
                    rollover: bool, ghost snap: seq<ClientState>, ghost outs: seq<TickOutcome>)
      requires |snap| == |clients| && forall i :: 0 <= i < |clients| ==> ControlledWell(clients, i)
      requires forall j :: 0 <= j < |clients| ==>
                 snap[j].character == clients[j].character && snap[j].connection == clients[j].connection &&
                 snap[j].karma == clients[j].karma && snap[j].herpes == clients[j].herpes &&
                 snap[j].memory == Lookup(clientMemories, clients[j])
      requires |outs| == |snap| && forall j {:trigger IsTickOf(cfg, testMode, snap[j], deltaTime, totalTime, owner, rollover, outs[j])} ::
                 0 <= j < |snap| ==> IsTickOf(cfg, testMode, snap[j], deltaTime, totalTime, owner, rollover, outs[j])
      modifies this`clientMemories, this`outbox, this`bannedClients, clients
      ensures TickedUpTo(clients, snap, outs, |clients|, old(clientMemories), old(outbox), [])
    {
      ghost var m0, outbox0 := clientMemories, outbox;
      bannedClients := [];
      for i := 0 to |clients|
        invariant TickedUpTo(clients, snap, outs, i, m0, outbox0, [])
      {
        TickStep(clients, i, deltaTime, totalTime, owner, rollover, snap, outs, m0, outbox0, []);
      }
    }

    /**
      The notification sweep: SendKarmaNotifications for every client, without a reason;
      `ins` is each client's karma and memory before the sweep.
    */
    method NotifyClients(clients: seq<Client>, ghost ins: seq<SweepInput>)
      requires Distinct(clients) && |ins| == |clients|
      requires forall j :: 0 <= j < |clients| ==> ins[j].karma == clients[j].karma && ins[j].memory == MemoryOf(clients[j])
      modifies this`clientMemories, this`outbox
      ensures forall i :: 0 <= i < |clients| ==>
                clients[i] in clientMemories &&
                clientMemories[clients[i]] == NotifyStep(cfg, testMode, ins[i].memory, ins[i].karma, NoReason).memory
      ensures forall c :: c in clientMemories <==> c in old(clientMemories) || c in clients
      ensures forall c :: c in old(clientMemories) && c !in clients ==> clientMemories[c] == old(clientMemories)[c]
      ensures outbox == old(outbox) + SweepDirectives(cfg, testMode, clients, ins, |clients|)
    {
      ghost var m0, outbox0 := clientMemories, outbox;
      for i := 0 to |clients|
        invariant SweptUpTo(clients, ins, i, m0, outbox0)
      {
        assert forall k :: 0 <= k < i ==> clients[k] != clients[i];
        NotifyAt(clients, i, ins, m0, outbox0);
        assert clientMemories == Overwrite(m0, clients, SweptMemories(cfg, testMode, ins), i + 1);
        assert outbox == outbox0 + SweepDirectives(cfg, testMode, clients, ins, i + 1);
      }
      OverwriteAll(old(clientMemories), clients, SweptMemories(cfg, testMode, ins));
    }

    /** What the sweep has done once its first i clients are through. */
    ghost predicate SweptUpTo(clients: seq<Client>, ins: seq<SweepInput>, i: nat,
                              m0: map<Client, ClientMemory>, outbox0: seq<Directive>)
      reads this
      requires i <= |clients| == |ins|
    {
      clientMemories == Overwrite(m0, clients, SweptMemories(cfg, testMode, ins), i) &&
      outbox == outbox0 + SweepDirectives(cfg, testMode, clients, ins, i)
    }

    /** One round of the sweep: the i-th client's memory joins the overwritten ones, its notices the outbox. */
    method NotifyAt(clients: seq<Client>, i: nat, ghost ins: seq<SweepInput>,
                    ghost m0: map<Client, ClientMemory>, ghost outbox0: seq<Directive>)
      requires i < |clients| == |ins|
      requires forall k :: 0 <= k < i ==> clients[k] != clients[i]
      requires ins[i].karma == clients[i].karma && ins[i].memory == Lookup(m0, clients[i])
      requires SweptUpTo(clients, ins, i, m0, outbox0)
      modifies this`clientMemories, this`outbox
      ensures SweptUpTo(clients, ins, i + 1, m0, outbox0)
    {
      var c := clients[i];
      OverwriteOutside(m0, clients, SweptMemories(cfg, testMode, ins), i, c);
      SendKarmaNotifications(c, NoReason);
      AppendAssociates(outbox0, SweepDirectives(cfg, testMode, clients, ins, i),
                       Sends(c, MessageNotices(NotifyStep(cfg, testMode, ins[i].memory, ins[i].karma, NoReason).message)));
    }

    /** The notification sweep right after the tick loop, read from the loop's outcomes. */
    method SweepAfterTick(clients: seq<Client>, ghost outs: seq<TickOutcome>)
      requires Distinct(clients) && |outs| == |clients|
      requires forall j :: 0 <= j < |clients| ==>
                 clients[j].karma == outs[j].karma && clients[j] in clientMemories && clientMemories[clients[j]] == outs[j].memory
      modifies this`clientMemories, this`outbox
      ensures forall i :: 0 <= i < |clients| ==>
                clients[i] in clientMemories && clientMemories[clients[i]] == FinalMemory(cfg, testMode, true, outs[i])
      ensures forall c :: c in clientMemories <==> c in old(clientMemories) || c in clients
      ensures forall c :: c in old(clientMemories) && c !in clients ==> clientMemories[c] == old(clientMemories)[c]
      ensures outbox == old(outbox) + SweepDirectives(cfg, testMode, clients, SweepOf(outs), |clients|)
    {
      NotifyClients(clients, SweepOf(outs));
    }

    /** The ban loop ending UpdateClients: one ban per queued client, with the truncated threshold. */
    method IssueBans()
      modifies this`outbox
      ensures outbox == old(outbox) + BanDirectives(bannedClients, TruncateTowardZero(cfg.kickBanThreshold), cfg.autoBanTime)
    {
      var threshold := TruncateTowardZero(cfg.kickBanThreshold);
      for i := 0 to |bannedClients|
        invariant outbox == old(outbox) + BanDirectives(bannedClients[..i], threshold, cfg.autoBanTime)
      {
        assert bannedClients[..i + 1][..i] == bannedClients[..i];
        outbox := outbox + [Ban(bannedClients[i], threshold, cfg.autoBanTime)];
      }
      assert bannedClients[..|bannedClients|] == bannedClients;
    }

    /**
      UpdateClients: nothing before the round starts; otherwise the ban list is
      cleared, every client is updated in list order (with the rollover when the
      second is over), the second is restarted, the sweep runs in test mode or
      when the notification time has passed, and the queued bans are issued last.
    */
    method UpdateClients(clients: seq<Client>, deltaTime: real, now: real, totalTime: real,
                         gameStarted: bool, owner: Option<ConnectionId>)
      requires UniquelyControlled(clients)
      modifies this`clientMemories, this`outbox, this`bannedClients, this`perSecondUpdate, this`karmaNotificationTime, clients
      ensures !gameStarted ==>
                clientMemories == old(clientMemories) && outbox == old(outbox) && bannedClients == old(bannedClients) &&
                perSecondUpdate == old(perSecondUpdate) && karmaNotificationTime == old(karmaNotificationTime) &&
                forall i :: 0 <= i < |clients| ==> clients[i].karma == old(clients[i].karma) && clients[i].herpes == old(clients[i].herpes)
      ensures gameStarted ==>
                var outs := old(TickOutcomes(clients, deltaTime, totalTime, owner, perSecondUpdate < now));
                var sweep := testMode || totalTime > old(karmaNotificationTime);
                (forall i :: 0 <= i < |clients| ==> clients[i].karma == outs[i].karma && clients[i].herpes == outs[i].herpes) &&
                (forall i :: 0 <= i < |clients| ==>
                   clients[i] in clientMemories && clientMemories[clients[i]] == FinalMemory(cfg, testMode, sweep, outs[i])) &&
                (forall c :: c in clientMemories <==> c in old(clientMemories) || c in clients) &&
                (forall c :: c in old(clientMemories) && c !in clients ==> clientMemories[c] == old(clientMemories)[c]) &&
                bannedClients == BannedOf(clients, outs, |clients|) &&
                outbox == old(outbox) + TickDirectives(clients, outs, |clients|)
                          + (if sweep then SweepDirectives(cfg, testMode, clients, SweepOf(outs), |clients|) else [])
                          + BanDirectives(bannedClients, TruncateTowardZero(cfg.kickBanThreshold), cfg.autoBanTime) &&
                perSecondUpdate == (if old(perSecondUpdate) < now then now + 1.0 else old(perSecondUpdate)) &&
                karmaNotificationTime == (if sweep then totalTime + cfg.karmaNotificationInterval else old(karmaNotificationTime))
    {
      if !gameStarted {
        return;
      }
      ghost var outs := TickOutcomes(clients, deltaTime, totalTime, owner, perSecondUpdate < now);
      RunUpdate(clients, deltaTime, now, totalTime, owner, outs);
    }

    /** UpdateClients once the round has started: the tick loop, the clock, the sweep when due, the bans. */
    method RunUpdate(clients: seq<Client>, deltaTime: real, now: real, totalTime: real, owner: Option<ConnectionId>,
                     ghost outs: seq<TickOutcome>)
      requires UniquelyControlled(clients)
      requires outs == TickOutcomes(clients, deltaTime, totalTime, owner, perSecondUpdate < now)
      modifies this`clientMemories, this`outbox, this`bannedClients, this`perSecondUpdate, this`karmaNotificationTime, clients
      ensures var sweep := testMode || totalTime > old(karmaNotificationTime);
              (forall i :: 0 <= i < |clients| ==> clients[i].karma == outs[i].karma && clients[i].herpes == outs[i].herpes) &&
              (forall i :: 0 <= i < |clients| ==>
                 clients[i] in clientMemories && clientMemories[clients[i]] == FinalMemory(cfg, testMode, sweep, outs[i])) &&
              (forall c :: c in clientMemories <==> c in old(clientMemories) || c in clients) &&
              (forall c :: c in old(clientMemories) && c !in clients ==> clientMemories[c] == old(clientMemories)[c]) &&
              bannedClients == BannedOf(clients, outs, |clients|) &&
              outbox == old(outbox) + TickDirectives(clients, outs, |clients|)
                        + (if sweep then SweepDirectives(cfg, testMode, clients, SweepOf(outs), |clients|) else [])
                        + BanDirectives(bannedClients, TruncateTowardZero(cfg.kickBanThreshold), cfg.autoBanTime) &&
              perSecondUpdate == (if old(perSecondUpdate) < now then now + 1.0 else old(perSecondUpdate)) &&
              karmaNotificationTime == (if sweep then totalTime + cfg.karmaNotificationInterval else old(karmaNotificationTime))
    {
      TickClients(clients, deltaTime, now, totalTime, owner, outs);
      AfterTick(clients, now, totalTime, outs);
    }

    /** The rest of UpdateClients after its loop: the clock, the notification sweep when due, the queued bans. */
    method AfterTick(clients: seq<Client>, now: real, totalTime: real, ghost outs: seq<TickOutcome>)
      requires Distinct(clients) && |outs| == |clients|
      requires forall j :: 0 <= j < |clients| ==>
                 clients[j].karma == outs[j].karma && clients[j] in clientMemories && clientMemories[clients[j]] == outs[j].memory
      modifies this`clientMemories, this`outbox, this`perSecondUpdate, this`karmaNotificationTime
      ensures var sweep := testMode || totalTime > old(karmaNotificationTime);
              (forall i :: 0 <= i < |clients| ==>
                 clients[i] in clientMemories && clientMemories[clients[i]] == FinalMemory(cfg, testMode, sweep, outs[i])) &&
              (forall c :: c in clientMemories <==> c in old(clientMemories) || c in clients) &&
              (forall c :: c in old(clientMemories) && c !in clients ==> clientMemories[c] == old(clientMemories)[c]) &&
              outbox == old(outbox) + (if sweep then SweepDirectives(cfg, testMode, clients, SweepOf(outs), |clients|) else [])
                        + BanDirectives(bannedClients, TruncateTowardZero(cfg.kickBanThreshold), cfg.autoBanTime) &&
              perSecondUpdate == (if old(perSecondUpdate) < now then now + 1.0 else old(perSecondUpdate)) &&
              karmaNotificationTime == (if sweep then totalTime + cfg.karmaNotificationInterval else old(karmaNotificationTime))
    {
      if perSecondUpdate < now {
        perSecondUpdate := now + 1.0;
      }
      if testMode || totalTime > karmaNotificationTime {
        SweepAfterTick(clients, outs);
        karmaNotificationTime := totalTime + cfg.karmaNotificationInterval;
      }
      IssueBans();
    }
  }
}
