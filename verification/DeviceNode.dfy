/** The device process: recovery, synchronisation and the main loop, over an unreliable connection to the gateway. */
module DeviceNode {
  import opened Primitives
  import opened Numerals
  import opened Models
  import opened Store
  import opened Invariant
  import opened LedgerOperations
  import opened Delivery
  import opened Device
  import opened Outbox
  import opened Protocol
  import opened StoreAndForward
  import opened Api

  /** What becomes of one HTTP exchange: the request or the reply may be lost. */
  datatype Fault = Reached | RequestLost | ReplyLost

  datatype Reply<+T> = NoReply | Got(value: T)

  /** The connection to a gateway: what becomes of each exchange, and what the gateway's clock reads during it. */
  class Channel {
    const app: App
    const faults: nat -> Fault
    const clock: nat -> int
    const sealClock: nat -> (nat -> int)
    var calls: nat

    constructor (app: App, faults: nat -> Fault, clock: nat -> int, sealClock: nat -> (nat -> int))
      ensures this.app == app && this.faults == faults && this.clock == clock && this.sealClock == sealClock && calls == 0
    {
      this.app, this.faults, this.clock, this.sealClock, calls := app, faults, clock, sealClock, 0;
    }

    function Gateway(): Tables
      reads app.ledger.database
    {
      app.State()
    }

    /** Every exchange succeeds. */
    ghost predicate Calm() { forall i :: faults(i) == Reached }

    /** None of the n exchanges from number `first` on was answered. */
    ghost predicate AllLost(first: nat, n: nat) {
      forall i :: first <= i < first + n ==> faults(i) != Reached
    }

    /** Of the exchanges from number `first` on, number k is the first that is answered. */
    ghost predicate FirstAnswer(first: nat, k: nat) {
      first <= k && AllLost(first, k - first) && faults(k) == Reached
    }

    /**
     * Of the health requests from exchange `first` on, at most n of them, all are lost; or the
     * first to be answered is followed by the loss of the enrolment or, after it, of the
     * checkpoint. Exchange `end` is the first that is no longer made.
     */
    ghost predicate ConnectionLost(first: nat, n: nat, end: nat) {
      || (AllLost(first, n) && end == first + n)
      || (exists k: nat :: k < first + n && FirstAnswer(first, k) && EnrolmentLost(k + 1, end))
    }

    /** Of the two exchanges from number `first` on, one is lost; the second is made if the first is answered. */
    predicate EnrolmentLost(first: nat, end: nat) {
      if faults(first) == Reached then faults(first + 1) != Reached && end == first + 2 else end == first + 1
    }

    /** One of at most n health requests from exchange `first` on is answered, and so are the two exchanges after it. */
    ghost predicate Connected(first: nat, n: nat, end: nat) {
      && first + 3 <= end <= first + n + 2 && FirstAnswer(first, end - 3)
      && faults(end - 2) == Reached && faults(end - 1) == Reached
    }

    method Health() returns (ok: bool)
      modifies this`calls
      ensures ok <==> faults(old(calls)) == Reached
      ensures calls == old(calls) + 1
    {
      ok := faults(calls) == Reached;
      calls := calls + 1;
    }

    method PostDevice(id: string, publicKey: Bytes, keyId: string) returns (r: Reply<bool>)
      requires GoodName(id) && |publicKey| == 32
      modifies this`calls, app.ledger.database
      ensures Gateway() == if faults(old(calls)) == RequestLost then old(Gateway()) else AfterEnrolment(old(Gateway()), id, publicKey, keyId, clock(old(calls)))
      ensures r == if faults(old(calls)) == Reached then Got(RegisterDevice(old(Gateway()), id, publicKey, keyId, clock(old(calls))).Ok?) else NoReply
      ensures calls == old(calls) + 1
    {
      var fault, now := faults(calls), clock(calls);
      calls := calls + 1;
      if fault == RequestLost {
        return NoReply;
      }
      var result := app.ledger.RegisterDevice(id, publicKey, keyId, now);
      r := if fault == Reached then Got(result.Ok?) else NoReply;
    }

    method GetCheckpoint(id: string) returns (r: Reply<Option<Checkpoint>>)
      modifies this`calls
      ensures r == if faults(old(calls)) != Reached then NoReply
                   else Got(if id in Gateway().devices then Some(GatewayPoint(Gateway(), id)) else None)
      ensures calls == old(calls) + 1
    {
      var fault := faults(calls);
      calls := calls + 1;
      if fault != Reached {
        return NoReply;
      }
      var database := app.ledger.database;
      if id !in database.devices {
        return Got(None);
      }
      r := Got(Some((database.devices[id].lastSequence, database.devices[id].lastEventHash)));
    }

    /** The reply says whether the gateway answered 202, which takes a successful seal when one is due. */
    method PostEvent(e: SignedEvent) returns (r: Reply<bool>)
      requires app.keys != []
      modifies this`calls, app.ledger.database
      ensures var (u, answer) := Submit(app.ledger.suite, app.Setup(), old(Gateway()), e, clock(old(calls)), sealClock(old(calls)));
              && Gateway() == (if faults(old(calls)) == RequestLost then old(Gateway()) else u)
              && r == if faults(old(calls)) == Reached then Got(answer.Ok?) else NoReply
      ensures calls == old(calls) + 1
    {
      var fault, now, readings := faults(calls), clock(calls), sealClock(calls);
      calls := calls + 1;
      if fault == RequestLost {
        return NoReply;
      }
      var result := app.SubmitEvent(e, now, readings);
      r := if fault == Reached then Got(result.Ok?) else NoReply;
    }
  }

  datatype SyncError =
    | Unreachable | EnrolmentRefused | CheckpointMissing | RetriesExhausted
    | EventRejected(wire: Wire) | GatewayIsAhead | NothingBuffered | OutboxFailed(error: OutboxError) | SamplingFailed

  /** What the sensors read, as deviations from the values they are set to. */
  datatype Reading = Reading(temperature: int, humidity: int, battery: int)

  function SamplePayload(sensorIndex: int, r: Reading): map<string, Value> {
    map["temperature_milli_celsius" := Int(20000 + sensorIndex * 17 + r.temperature),
        "humidity_basis_points" := Int(4500 + r.humidity),
        "battery_millivolts" := Int(3700 + r.battery),
        "quality" := Int(100)]
  }

  /** The event is a reading of the environment, in the units its names say, for the sensor with this number. */
  predicate IsSample(e: SignedEvent, sensorIndex: int, r: Reading, now: int) {
    && e.deviceTimeMs == now && e.eventType == "environment"
    && e.payload.Keys == {"temperature_milli_celsius", "humidity_basis_points", "battery_millivolts", "quality"}
    && e.payload["temperature_milli_celsius"] == Int(20000 + sensorIndex * 17 + r.temperature)
    && e.payload["humidity_basis_points"] == Int(4500 + r.humidity)
    && e.payload["battery_millivolts"] == Int(3700 + r.battery)
    && e.payload["quality"] == Int(100)
  }

  lemma PayloadIsSample(e: SignedEvent, sensorIndex: int, r: Reading, now: int)
    requires e.deviceTimeMs == now && e.eventType == "environment" && e.payload == SamplePayload(sensorIndex, r)
    ensures IsSample(e, sensorIndex, r, now)
  {
  }

  lemma SampleIsSupported(sensorIndex: int, r: Reading)
    ensures Supported(Map(SamplePayload(sensorIndex, r)))
  {
  }

  predicate NetworkError(e: SyncError) { e == Unreachable || e == RetriesExhausted }

  lemma EnrolmentAccepted(s: Suite, cfg: Config, t: Tables, keyId: string, now: int, links: seq<Link>, g: nat)
    requires KeyWorks(s, cfg.key) && GatewayOk(s, cfg, t, links, g)
    ensures RegisterDevice(t, cfg.deviceId, cfg.key.publicKey, keyId, now).Ok?
    ensures cfg.deviceId in AfterEnrolment(t, cfg.deviceId, cfg.key.publicKey, keyId, now).devices
  {
    if cfg.deviceId in t.devices {
      assert DeviceInv(t, cfg.deviceId);
    }
  }

  /** Enrolling leaves a gateway that serves, has the device and is as far with it as before. */
  lemma EnrolledFollows(s: Suite, cfg: Config, server: Server, t: Tables, keyId: string, now: int, history: seq<Wire>, g: nat)
    requires KeyWorks(s, cfg.key) && HistoryOk(s, cfg, history) && g <= |history|
    requires Serves(s, server, t) && GatewayOk(s, cfg, t, LinksOf(s, history), g)
    ensures RegisterDevice(t, cfg.deviceId, cfg.key.publicKey, keyId, now).Ok?
    ensures var u := AfterEnrolment(t, cfg.deviceId, cfg.key.publicKey, keyId, now);
            && Serves(s, server, u) && GatewayOk(s, cfg, u, LinksOf(s, history), g)
            && cfg.deviceId in u.devices && GatewayPoint(u, cfg.deviceId) == Point(history, g)
  {
    hide HistoryOk, GatewayOk, Serves, AfterEnrolment, RegisterDevice, GatewayPoint, Point;
    var u := AfterEnrolment(t, cfg.deviceId, cfg.key.publicKey, keyId, now);
    EnrolmentAccepted(s, cfg, t, keyId, now, LinksOf(s, history), g);
    EnrolledGatewayOk(s, cfg, t, keyId, now, LinksOf(s, history), g);
    StillServes(s, server, t, u);
    GatewayPointIs(s, cfg, u, history, g);
  }

  /** The answer to a request for event j of the history, and what the gateway then has. */
  lemma SubmittedGatewayOk(s: Suite, cfg: Config, server: Server, t: Tables, history: seq<Wire>, j: nat, now: int, clock: nat -> int, g: nat) returns (m: nat)
    requires Lawful(s) && HistoryOk(s, cfg, history) && j <= g <= |history| && j < |history|
    requires Serves(s, server, t) && GatewayOk(s, cfg, t, LinksOf(s, history), g) && cfg.deviceId in t.devices
    ensures var (v, r) := Submit(s, server, t, history[j].event, now, clock);
            && GatewayOk(s, cfg, v, LinksOf(s, history), m) && cfg.deviceId in v.devices
            && (m == g || (m == g + 1 && j == g))
            && (r.Ok? ==> j < m)
            && (r.Err? ==> Clashes(v, LinkOf(s, history[j].event)) || (j < m && SealFails(s, server, v, clock(0))))
  {
    m := AcceptedGatewayOk(s, cfg, t, history, j, now, g);
    SubmitFailsIff(s, server, t, history[j].event, now, clock);
    var (v, r) := Submit(s, server, t, history[j].event, now, clock);
    if Accept(s, t, history[j].event, now).Ok? {
      var u := Accept(s, t, history[j].event, now).value.0;
      if v != u {
        AutoSealedGatewayOk(s, cfg, server, u, v, LinksOf(s, history), m);
      }
    }
  }

  /** The gateway after a request for event j of the history that may have been lost. */
  lemma PostedGatewayOk(s: Suite, cfg: Config, server: Server, t: Tables, history: seq<Wire>, j: nat, now: int, clock: nat -> int, g: nat, lost: bool)
    returns (m: nat)
    requires Lawful(s) && HistoryOk(s, cfg, history) && j <= g <= |history| && j < |history|
    requires Serves(s, server, t) && GatewayOk(s, cfg, t, LinksOf(s, history), g) && cfg.deviceId in t.devices
    ensures var (v, r) := Submit(s, server, t, history[j].event, now, clock);
            var u := if lost then t else v;
            && Serves(s, server, u) && GatewayOk(s, cfg, u, LinksOf(s, history), m) && cfg.deviceId in u.devices && g <= m <= |history|
            && (!lost && r.Ok? ==> j < m)
            && (!lost && r.Err? ==> Clashes(u, LinkOf(s, history[j].event)) || SealFails(s, server, u, clock(0)))
  {
    m := g;
    if !lost {
      m := SubmittedGatewayOk(s, cfg, server, t, history, j, now, clock, g);
      SubmitKeepsServing(s, server, t, history[j].event, now, clock);
    }
  }

  lemma ServedPoint(s: Suite, cfg: Config, t: Tables, history: seq<Wire>)
    requires HistoryOk(s, cfg, history) && cfg.deviceId in t.devices
    requires GatewayOk(s, cfg, t, LinksOf(s, history), |history|)
    ensures GatewayPoint(t, cfg.deviceId) == Point(history, |history|)
  {
    GatewayPointIs(s, cfg, t, history, |history|);
  }

  lemma PointHasDigest(s: Suite, cfg: Config, history: seq<Wire>, k: nat)
    requires HistoryOk(s, cfg, history) && k <= |history|
    ensures |Point(history, k).1| == 32
  {
    if k > 0 {
      assert Genuine(s, cfg, history[k - 1], k - 1, Point(history, k - 1).1);
    }
  }

  lemma RecoveredPoint(history: seq<Wire>, items: seq<Wire>, saved: Checkpoint, a: nat)
    requires Numbered(history) && DurableOk(history, items, saved, a)
    ensures Recovered(saved, items) == Point(history, |history|)
    ensures items != [] ==> items[|items| - 1] == history[|history| - 1]
  {
  }

  class DeviceProcess {
    const cfg: Config
    const keyId: string
    const alphabet: Alphabet
    const channel: Channel
    const outbox: DurableOutbox
    const client: DeviceClient
    var local: Checkpoint
    var saved: Checkpoint
    ghost var history: seq<Wire>

    /** The process as it starts, with what it finds in its state file. */
    constructor (cfg: Config, keyId: string, alphabet: Alphabet, channel: Channel, outbox: DurableOutbox, client: DeviceClient, saved: Checkpoint, ghost history: seq<Wire>)
      ensures this.cfg == cfg && this.keyId == keyId && this.alphabet == alphabet && this.channel == channel && this.outbox == outbox && this.client == client
      ensures this.local == saved && this.saved == saved && this.history == history
    {
      this.cfg, this.keyId, this.alphabet, this.channel, this.outbox, this.client := cfg, keyId, alphabet, channel, outbox, client;
      this.local, this.saved, this.history := saved, saved, history;
    }

    ghost function Node(activity: Activity): Node
      reads this, outbox, client
    {
      Protocol.Node(history, outbox.items, saved, Up(activity, outbox.items, local, (client.sequence, client.previousEventHash)), {}, {})
    }

    /** What does not change: a working key, the names that belong together and the bound of the outbox. */
    ghost predicate Configured() {
      && Lawful(channel.app.ledger.suite) && KeyWorks(channel.app.ledger.suite, cfg.key) && GoodName(cfg.deviceId)
      && client.deviceId == cfg.deviceId && client.key == cfg.key && outbox.maxItems == Some(cfg.capacity)
      && channel.app.keys != []
    }

    ghost predicate SignedHistory()
      reads this`history
    {
      HistoryOk(channel.app.ledger.suite, cfg, history)
    }

    /** The device's side: a events acknowledged, the gateway at g. */
    ghost predicate NodeOk(a: nat, g: nat)
      reads this, outbox, client
    {
      Configured() && SignedHistory() && NodeInv(Node(Idle), a, g)
    }

    ghost predicate FollowsHistory(wires: seq<Wire>, g: nat)
      reads channel.app.ledger.database
    {
      && Serves(channel.app.ledger.suite, channel.app.Setup(), channel.Gateway())
      && GatewayOk(channel.app.ledger.suite, cfg, channel.Gateway(), LinksOf(channel.app.ledger.suite, wires), g)
    }

    /** The gateway's side: its log of the device is the first g events of the history. */
    ghost predicate GatewayFollows(g: nat)
      reads this`history, channel.app.ledger.database
    {
      FollowsHistory(history, g)
    }

    /** The same once the device is enrolled. */
    ghost predicate GatewayServes(g: nat)
      reads this`history, channel.app.ledger.database
    {
      cfg.deviceId in channel.Gateway().devices && GatewayFollows(g)
    }

    /** The gateway has stored a different event with the same hash. */
    predicate HashClashes(w: Wire)
      reads channel.app.ledger.database
    {
      Clashes(channel.Gateway(), LinkOf(channel.app.ledger.suite, w.event))
    }

    /** The last exchange led to a seal that was due and failed, for its batch size or for a clash of the header it hashed. */
    ghost predicate SealFailed()
      reads channel`calls, channel.app.ledger.database
    {
      && channel.app.keys != [] && channel.calls > 0
      && SealFails(channel.app.ledger.suite, channel.app.Setup(), channel.Gateway(), channel.sealClock(channel.calls - 1)(0))
    }

    /** The last `retries` exchanges were all lost. */
    ghost predicate RetriesLost(retries: nat)
      reads channel`calls
    {
      channel.calls >= retries && channel.AllLost(channel.calls - retries, retries)
    }

    /** The last exchanges were an attempt to connect that was lost. */
    ghost predicate ConnectingLost(retries: nat)
      reads channel`calls
    {
      exists first: nat :: channel.ConnectionLost(first, retries, channel.calls)
    }

    /**
     * The only failures: an attempt to connect that was lost, a submission lost as often as it
     * may be made, a clash of an event's hash, or a seal that fails; each in the last exchanges.
     */
    ghost predicate Excused(e: SyncError, retries: nat)
      reads channel`calls, channel.app.ledger.database
    {
      || (e == Unreachable && ConnectingLost(retries))
      || (e == RetriesExhausted && RetriesLost(retries))
      || (e.EventRejected? && (HashClashes(e.wire) || SealFailed()))
    }

    /** What has not been delivered was held up by an excused failure of the last attempt. */
    ghost predicate HeldUp(retries: nat)
      reads channel`calls, channel.app.ledger.database
    {
      exists e :: Excused(e, retries)
    }

    /** On a connection that loses nothing, the network is no excuse. */
    lemma CalmIsNoExcuse(e: SyncError, retries: nat)
      requires channel.Calm() && retries > 0 && Excused(e, retries)
      ensures !NetworkError(e)
    {
      forall first: nat ensures !channel.ConnectionLost(first, retries, channel.calls) {
        assert channel.faults(first) == Reached;
      }
      if channel.calls >= retries {
        assert channel.faults(channel.calls - retries) == Reached;
      }
    }

    /** Recovers from a crash between the write of the outbox and the write of the state file. */
    method Recover(ghost a: nat, ghost g: nat)
      requires Configured() && SignedHistory() && local == saved
      requires a <= g <= |history| && Numbered(history) && DurableOk(history, outbox.items, saved, a)
      modifies this`local, this`saved, client
      ensures NodeOk(a, g) && local == Recovered(old(saved), outbox.items)
    {
      RecoveredPoint(history, outbox.items, saved, a);
      if outbox.items != [] {
        var latest := outbox.items[|outbox.items| - 1];
        if Sequence(latest) > local.0 {
          local := (Sequence(latest), latest.eventHash);
          saved := local;
        }
      }
      PointHasDigest(channel.app.ledger.suite, cfg, history, |history|);
      var error := client.Restore(local.0, local.1);
    }

    /** Asks until a health request is answered or the attempts run out. */
    method WaitForGateway(retries: nat) returns (ok: bool)
      modifies channel`calls
      ensures ok <==> exists i :: old(channel.calls) <= i < old(channel.calls) + retries && channel.faults(i) == Reached
      ensures ok ==> old(channel.calls) < channel.calls <= old(channel.calls) + retries
      ensures ok ==> channel.FirstAnswer(old(channel.calls), channel.calls - 1)
      ensures !ok ==> channel.calls == old(channel.calls) + retries
    {
      for attempt := 0 to retries
        invariant channel.calls == old(channel.calls) + attempt
        invariant forall i :: old(channel.calls) <= i < channel.calls ==> channel.faults(i) != Reached
      {
        ok := channel.Health();
        if ok {
          assert channel.faults(channel.calls - 1) == Reached;
          return;
        }
      }
      ok := false;
    }

    /** Enrols, as often as it likes, and asks how far the gateway is. */
    method Enrol(ghost g: nat) returns (r: Result<Checkpoint, SyncError>)
      requires Configured() && SignedHistory() && GatewayFollows(g) && g <= |history|
      modifies channel`calls, channel.app.ledger.database
      ensures GatewayFollows(g)
      ensures r.Ok? ==> GatewayServes(g) && r.value == Point(history, g)
      ensures r.Err? ==> r.error == Unreachable
      ensures r.Ok? ==> channel.faults(old(channel.calls)) == Reached && channel.faults(old(channel.calls) + 1) == Reached && channel.calls == old(channel.calls) + 2
      ensures r.Err? ==> channel.EnrolmentLost(old(channel.calls), channel.calls)
    {
      hide HistoryOk, GatewayOk, Serves, AfterEnrolment, RegisterDevice, GatewayPoint, Point;
      EnrolledFollows(channel.app.ledger.suite, cfg, channel.app.Setup(), channel.Gateway(), keyId, channel.clock(channel.calls), history, g);
      var enrolment := channel.PostDevice(cfg.deviceId, cfg.key.publicKey, keyId);
      if enrolment.NoReply? {
        return Err(Unreachable);
      }
      if !enrolment.value {
        return Err(EnrolmentRefused);
      }
      var checkpoint := channel.GetCheckpoint(cfg.deviceId);
      if checkpoint.NoReply? {
        return Err(Unreachable);
      }
      if checkpoint.value.None? {
        return Err(CheckpointMissing);
      }
      r := Ok(checkpoint.value.value);
    }

    /** Waits for the gateway and enrols. */
    method Connect(retries: nat, ghost g: nat) returns (r: Result<Checkpoint, SyncError>)
      requires Configured() && SignedHistory() && GatewayFollows(g) && g <= |history|
      modifies channel`calls, channel.app.ledger.database
      ensures GatewayFollows(g)
      ensures r.Ok? ==> GatewayServes(g) && r.value == Point(history, g)
      ensures r.Err? ==> r.error == Unreachable
      ensures r.Ok? ==> channel.Connected(old(channel.calls), retries, channel.calls)
      ensures r.Err? ==> channel.ConnectionLost(old(channel.calls), retries, channel.calls)
    {
      hide HistoryOk, GatewayOk, Serves, Point;
      var up := WaitForGateway(retries);
      if !up {
        return Err(Unreachable);
      }
      ghost var k: nat := channel.calls - 1;
      r := Enrol(g);
      assert channel.FirstAnswer(old(channel.calls), k);
    }

    /** One attempt to submit an event that the gateway has or expects next. */
    method Submit(w: Wire, ghost j: nat, ghost g: nat) returns (reply: Reply<bool>, ghost m: nat)
      requires Configured() && SignedHistory() && GatewayServes(g)
      requires j <= g <= |history| && j < |history| && w == history[j]
      modifies channel`calls, channel.app.ledger.database
      ensures GatewayServes(m) && g <= m <= |history|
      ensures reply == Got(true) ==> j < m
      ensures reply == Got(false) ==> HashClashes(w) || SealFailed()
      ensures reply.Got? <==> channel.faults(old(channel.calls)) == Reached
      ensures channel.calls == old(channel.calls) + 1
    {
      hide HistoryOk, GatewayOk, Serves, SealFails, Clashes, Api.Submit;
      ghost var clock := channel.sealClock(channel.calls);
      m := PostedGatewayOk(channel.app.ledger.suite, cfg, channel.app.Setup(), channel.Gateway(), history, j,
                           channel.clock(channel.calls), clock, g, channel.faults(channel.calls) == RequestLost);
      ghost var answer := Api.Submit(channel.app.ledger.suite, channel.app.Setup(), channel.Gateway(), w.event, channel.clock(channel.calls), clock).1;
      reply := channel.PostEvent(w.event);
      assert reply == Got(false) ==> answer.Err?;
      assert reply == Got(false) && !HashClashes(w) ==> SealFails(channel.app.ledger.suite, channel.app.Setup(), channel.Gateway(), clock(0));
    }

    /** Submits one event until the gateway answers or the attempts run out. */
    method SubmitWithRetry(w: Wire, retries: nat, ghost j: nat, ghost g: nat) returns (r: Result<(), SyncError>, ghost m: nat)
      requires Configured() && SignedHistory() && GatewayServes(g)
      requires j <= g <= |history| && j < |history| && w == history[j]
      modifies channel`calls, channel.app.ledger.database
      ensures GatewayServes(m) && g <= m <= |history|
      ensures r.Ok? ==> j < m
      ensures r.Err? ==> Excused(r.error, retries)
      ensures r == Err(RetriesExhausted) <==> channel.AllLost(old(channel.calls), retries)
      ensures old(channel.calls) <= channel.calls <= old(channel.calls) + retries
      ensures r != Err(RetriesExhausted) ==> old(channel.calls) < channel.calls && channel.FirstAnswer(old(channel.calls), channel.calls - 1)
    {
      hide HistoryOk, GatewayOk, Serves, SealFails, Clashes;
      m := g;
      for attempt := 1 to retries + 1
        invariant GatewayServes(m) && g <= m <= |history|
        invariant channel.calls == old(channel.calls) + attempt - 1 && channel.AllLost(old(channel.calls), attempt - 1)
      {
        var reply;
        reply, m := Submit(w, j, m);
        match reply
        case NoReply =>
        case Got(accepted) =>
          r := if accepted then Ok(()) else Err(EventRejected(w));
          return;
      }
      r := Err(RetriesExhausted);
    }

    /** Adopts what the gateway has: the outbox then begins where the gateway's log ends. */
    method Align(server: Checkpoint, ghost a: nat, ghost g: nat) returns (error: Option<SyncError>)
      requires NodeOk(a, g) && server == Point(history, g)
      modifies this`local, this`saved, client, outbox
      ensures error.None? && NodeOk(g, g) && Buffered(g, g) && local == saved == Point(history, |history|)
      ensures Node(Flushing(outbox.items)) == AfterSettle(AfterReconcile(old(Node(Answered(server))), server), server)
    {
      AlignedNode(Node(Idle), server, a, g);
      hide NodeInv, HistoryOk;
      PointHasDigest(channel.app.ledger.suite, cfg, history, g);
      if server.0 > local.0 {
        return Some(GatewayIsAhead);
      }
      var mismatch := outbox.Reconcile(server.0);
      match mismatch
      case Some(e) => return Some(OutboxFailed(e));
      case None =>
        if local.0 > server.0 && outbox.items == [] {
          return Some(NothingBuffered);
        }
        if local.0 == server.0 {
          local, saved := server, server;
          var invalid := client.Restore(server.0, server.1);
        }
        error := None;
    }

    /** The outbox holds the history from a on, of which the gateway has at least the part before. */
    ghost predicate Buffered(a: nat, g: nat)
      reads this`history, outbox
    {
      Configured() && SignedHistory() && Numbered(history) && a <= g <= |history| && outbox.items == history[a..]
    }

    /** Delivers the oldest buffered event and drops it once the gateway has it. */
    method DeliverOldest(w: Wire, retries: nat, ghost a: nat, ghost g: nat) returns (r: Result<(), SyncError>, ghost h: nat)
      requires Buffered(a, g) && GatewayServes(g)
      requires a < |history| && w == history[a]
      modifies channel`calls, channel.app.ledger.database, outbox
      ensures GatewayServes(h)
      ensures Buffered(if r.Ok? then a + 1 else a, h)
      ensures r.Err? ==> r.error != Unreachable && Excused(r.error, retries)
    {
      hide HistoryOk, GatewayOk, Serves, SealFails, Clashes;
      r, h := SubmitWithRetry(w, retries, a, g);
      if r.Ok? {
        AcknowledgeOldest(w, a, h);
      }
    }

    method AcknowledgeOldest(w: Wire, ghost a: nat, ghost g: nat)
      requires Configured() && SignedHistory() && Numbered(history) && a < g <= |history|
      requires outbox.items == history[a..] && w == history[a]
      modifies outbox
      ensures Buffered(a + 1, g)
    {
      RemainingOfHistory(history, a, a + 1);
      var removed := outbox.Acknowledge(Sequence(w));
    }

    /** Delivers what is buffered, oldest first. */
    method Flush(retries: nat, ghost a: nat, ghost g: nat) returns (r: Result<nat, SyncError>, ghost b: nat, ghost h: nat)
      requires Buffered(a, g) && GatewayServes(g)
      modifies channel`calls, channel.app.ledger.database, outbox
      ensures GatewayServes(h)
      ensures a <= b && Buffered(b, h)
      ensures r.Ok? ==> b == |history| && r.value == b - a
      ensures r.Err? ==> r.error != Unreachable && Excused(r.error, retries)
    {
      hide HistoryOk, GatewayOk, Serves, SealFails, Clashes;
      b, h := a, g;
      var queue, delivered := outbox.items, 0;
      while delivered < |queue|
        invariant 0 <= delivered <= |queue| && b == a + delivered && a <= |history| && queue == history[a..]
        invariant Buffered(b, h) && GatewayServes(h)
      {
        var sent;
        sent, h := DeliverOldest(queue[delivered], retries, b, h);
        if sent.Err? {
          return Err(sent.error), b, h;
        }
        b, delivered := b + 1, delivered + 1;
      }
      r := Ok(delivered);
    }

    /** Delivers what is buffered once the outbox begins where the gateway's log ends. */
    method FlushAligned(retries: nat, ghost g: nat) returns (r: Result<nat, SyncError>, ghost b: nat, ghost h: nat)
      requires NodeOk(g, g) && GatewayServes(g) && Buffered(g, g)
      modifies channel`calls, channel.app.ledger.database, outbox
      ensures NodeOk(b, h) && GatewayServes(h) && h <= |history|
      ensures r.Ok? ==> outbox.items == [] && h == |history|
      ensures r.Err? ==> r.error != Unreachable && Excused(r.error, retries)
    {
      hide HistoryOk, GatewayOk, Serves, SealFails, Clashes;
      ghost var x := Node(Idle);
      r, b, h := Flush(retries, g, g);
      FlushedNode(x, g, b, h);
    }

    /** Enrols, reconciles the outbox with the gateway and delivers what is buffered. */
    method SyncAndFlush(retries: nat, ghost a: nat, ghost g: nat) returns (r: Result<nat, SyncError>, ghost b: nat, ghost h: nat)
      requires NodeOk(a, g) && GatewayFollows(g) && g <= |history|
      modifies this`local, this`saved, client, outbox, channel`calls, channel.app.ledger.database
      ensures NodeOk(b, h) && GatewayFollows(h) && h <= |history|
      ensures r.Ok? ==> outbox.items == [] && h == |history| && GatewayServes(h)
      ensures r.Err? ==> Excused(r.error, retries)
      ensures r == Err(Unreachable) ==> channel.ConnectionLost(old(channel.calls), retries, channel.calls)
      ensures r != Err(Unreachable) ==> exists end :: channel.Connected(old(channel.calls), retries, end)
    {
      hide NodeInv, HistoryOk, GatewayOk, Serves, SealFails, Clashes;
      b, h := a, g;
      var server := Connect(retries, g);
      if server.Err? {
        return Err(server.error), b, h;
      }
      var failure := Align(server.value, a, g);
      match failure
      case Some(e) => return Err(e), b, h;
      case None => r, b, h := FlushAligned(retries, g);
    }

    /** Signs the next event of the chain; buffering it will keep device and gateway consistent. */
    method SignNext(eventType: string, payload: map<string, Value>, now: int, ghost a: nat, ghost g: nat) returns (wire: Wire)
      requires NodeOk(a, g) && GatewayFollows(g)
      requires GoodName(eventType) && Supported(Map(payload)) && |outbox.items| < cfg.capacity
      modifies client
      ensures (client.sequence, client.previousEventHash) == CheckpointOf(wire)
      ensures wire.event.eventType == eventType && wire.event.payload == payload && wire.event.deviceTimeMs == now
      ensures AppendError(outbox.items, Some(cfg.capacity), wire).None? && NodeInv(WithSample(old(Node(Idle)), wire), a, g)
      ensures HistoryOk(channel.app.ledger.suite, cfg, history + [wire]) && FollowsHistory(history + [wire], g)
    {
      hide NodeInv, HistoryOk, GatewayOk, Serves, AppendError;
      ghost var x := Node(Idle);
      var created := client.CreateEvent(channel.app.ledger.suite, eventType, payload, None, now);
      wire := Wire(created.value, EventHash(channel.app.ledger.suite, created.value));
      SampledWorld(channel.app.ledger.suite, cfg, channel.Gateway(), x, wire, eventType, payload, now, a, g);
    }

    /** The id ends in a number, or has no part that should be one: the device knows which sensor it is. */
    predicate HasIndex() { SensorIndex(alphabet, cfg.deviceId).Some? }

    /**
     * Takes one sample: computes it from the number in the device's id, signs it, appends
     * it to the outbox and then records it in the state file. An id that has no number
     * where one is expected raises an error before anything is done.
     */
    method Sample(reading: Reading, now: int, ghost a: nat, ghost g: nat) returns (error: Option<SyncError>)
      requires NodeOk(a, g) && GatewayFollows(g) && |outbox.items| < cfg.capacity
      modifies this`local, this`saved, this`history, client, outbox
      ensures NodeOk(a, g) && GatewayFollows(g)
      ensures error == if HasIndex() then None else Some(SamplingFailed)
      ensures error.Some? ==> history == old(history) && outbox.items == old(outbox.items)
      ensures error.None? ==> exists w :: history == old(history) + [w] && outbox.items == old(outbox.items) + [w]
                                          && IsSample(w.event, SensorIndex(alphabet, cfg.deviceId).value, reading, now)
    {
      hide NodeInv, HistoryOk, GatewayOk, Serves, SamplePayload, IsSample;
      var index := SensorIndex(alphabet, cfg.deviceId);
      if index.None? {
        return Some(SamplingFailed);
      }
      SampleIsSupported(index.value, reading);
      var wire := SignNext("environment", SamplePayload(index.value, reading), now, a, g);
      PayloadIsSample(wire.event, index.value, reading, now);
      Buffer(wire);
      error := None;
    }

    /** The two durable writes of a sample. */
    method Buffer(wire: Wire)
      requires AppendError(outbox.items, outbox.maxItems, wire).None?
      modifies this`local, this`saved, this`history, outbox
      ensures outbox.items == old(outbox.items) + [wire] && history == old(history) + [wire]
      ensures local == saved == CheckpointOf(wire)
    {
      var refused := outbox.Append(wire);
      history := history + [wire];
      local := (Sequence(wire), wire.eventHash);
      saved := local;
    }

    /** The state the main loop keeps: consistent with the gateway, at a and g. */
    ghost predicate Consistent(a: nat, g: nat)
      reads this, outbox, client, channel.app.ledger.database
    {
      NodeOk(a, g) && GatewayFollows(g) && g <= |history|
    }

    /** Everything sampled so far has been delivered. */
    ghost predicate AllDelivered()
      reads this`history, outbox, channel.app.ledger.database
    {
      outbox.items == [] && GatewayServes(|history|)
    }

    /** Why a round ended the run: the id has no number to sample with, or an excused failure that a continuous device survives. */
    ghost predicate RoundFailed(e: SyncError, continuous: bool, retries: nat)
      reads channel`calls, channel.app.ledger.database
    {
      if e == SamplingFailed then !HasIndex() else !continuous && Excused(e, retries)
    }

    /** A device that runs continuously does not insist when it starts. */
    function FirstAttempts(retries: nat): nat { if retries < 3 then retries else 3 }

    /** One round of the main loop: flush what is buffered, take a sample unless the buffer is full, flush again. */
    method Round(continuous: bool, retries: nat, reading: Reading, now: int, ghost a: nat, ghost g: nat)
      returns (sampled: bool, failure: Option<SyncError>, ghost b: nat, ghost h: nat)
      requires Consistent(a, g) && cfg.capacity >= 1
      modifies this, client, outbox, channel`calls, channel.app.ledger.database
      ensures Consistent(b, h)
      ensures |history| == |old(history)| + (if sampled then 1 else 0) && old(history) <= history
      ensures sampled ==> HasIndex()
      ensures !HasIndex() && failure.None? ==> continuous && |outbox.items| >= cfg.capacity
      ensures !continuous && failure.None? ==> sampled && AllDelivered()
      ensures failure.Some? ==> RoundFailed(failure.value, continuous, retries)
      ensures failure.None? ==> AllDelivered() || (continuous && HeldUp(1))
    {
      hide NodeInv, HistoryOk, GatewayOk, Serves, SealFails, Clashes, IsSample, ConnectingLost, RetriesLost;
      b, h, sampled, failure := a, g, false, None;
      var attempts := if continuous then 1 else retries;
      var r;
      if |outbox.items| > 0 {
        r, b, h := SyncAndFlush(attempts, b, h);
        if r.Err? && !continuous {
          failure := Some(r.error);
          return;
        }
      }
      if |outbox.items| >= cfg.capacity {
        failure := if continuous then None else Some(OutboxFailed(Full));
        return;
      }
      failure := Sample(reading, now, b, h);
      if failure.Some? {
        return;
      }
      sampled := true;
      r, b, h := SyncAndFlush(attempts, b, h);
      if r.Err? && !continuous {
        failure := Some(r.error);
      }
    }

    /**
     * The device from its start, over an unreliable connection, until it has taken
     * `events` samples, or until it is told to stop after `rounds` rounds. A device that
     * does not run continuously ends with everything delivered, or with a failure of the
     * network, a clash of hashes or a seal that fails at the gateway; on a connection that
     * loses nothing, the network is no excuse. A device whose id lacks the number it
     * samples with never takes a sample: its first attempt ends even a continuous run.
     */
    method Run(continuous: bool, events: nat, rounds: nat, retries: nat, readings: nat -> Reading, ghost a: nat, ghost g: nat)
      returns (r: Result<nat, SyncError>, ghost b: nat, ghost h: nat)
      requires Configured() && SignedHistory() && Numbered(history) && local == saved && cfg.capacity >= 1
      requires a <= g <= |history| && DurableOk(history, outbox.items, saved, a) && GatewayFollows(g)
      modifies this, client, outbox, channel`calls, channel.app.ledger.database
      ensures Consistent(b, h) && old(history) <= history
      ensures r.Ok? ==> |history| == |old(history)| + r.value && (continuous || r.value >= events || r.value == rounds)
      ensures r.Ok? && !continuous ==> AllDelivered() && r.value == if events < rounds then events else rounds
      ensures r.Err? ==> RoundFailed(r.error, continuous, retries)
      ensures r.Ok? && continuous ==> AllDelivered() || HeldUp(if rounds == 0 then FirstAttempts(retries) else 1)
      ensures !HasIndex() ==> history == old(history)
      ensures !HasIndex() && r.Ok? ==> rounds == 0 || (!continuous && events == 0) || (continuous && |outbox.items| >= cfg.capacity)
    {
      hide NodeInv, HistoryOk, GatewayOk, Serves, SealFails, Clashes, DurableOk, Numbered;
      Recover(a, g);
      var first;
      first, b, h := SyncAndFlush(if continuous then FirstAttempts(retries) else retries, a, g);
      if first.Err? && !continuous {
        return Err(first.error), b, h;
      }
      var generated, round := 0, 0;
      while (continuous || generated < events) && round < rounds
        invariant Consistent(b, h) && old(history) <= history && |history| == |old(history)| + generated
        invariant !continuous ==> generated == round <= events && AllDelivered()
        invariant AllDelivered() || HeldUp(if round == 0 then FirstAttempts(retries) else 1)
        invariant round <= rounds
        invariant !HasIndex() ==> generated == 0
        invariant !HasIndex() && round > 0 ==> continuous && |outbox.items| >= cfg.capacity
      {
        var sampled, failure;
        sampled, failure, b, h := Round(continuous, retries, readings(round), channel.clock(channel.calls), b, h);
        if failure.Some? {
          return Err(failure.value), b, h;
        }
        generated, round := if sampled then generated + 1 else generated, round + 1;
      }
      r := Ok(generated);
    }

    /** Once everything is delivered, device and gateway agree on the sequence and the hash they have reached. */
    lemma SynchronizedAgrees(a: nat)
      requires NodeOk(a, |history|) && GatewayServes(|history|)
      ensures local == saved == GatewayPoint(channel.Gateway(), cfg.deviceId) == Point(history, |history|)
    {
      ServedPoint(channel.app.ledger.suite, cfg, channel.Gateway(), history);
    }
  }

  function WithSample(x: Protocol.Node, w: Wire): Protocol.Node
    requires x.memory.Up?
  {
    var items := x.memory.items + [w];
    x.(history := x.history + [w], outbox := items, saved := CheckpointOf(w), memory := Up(Idle, items, CheckpointOf(w), CheckpointOf(w)))
  }

  /** The node after one more sample: it was not refused, and both files have it. */
  lemma SampledNode(x: Protocol.Node, capacity: int, w: Wire, a: nat, g: nat)
    requires NodeInv(x, a, g) && Doing(x, Idle) && |x.memory.items| < capacity
    requires Sequence(w) == x.memory.client.0 + 1 && w.event.previousEventHash == x.memory.client.1
    ensures AppendError(x.memory.items, Some(capacity), w).None?
    ensures Sequence(w) == |x.history| + 1 && w.event.previousEventHash == Point(x.history, |x.history|).1
    ensures NodeInv(WithSample(x, w), a, g)
  {
    GenerateKeepsInv(x, capacity, w, a, g);
  }

  lemma SampledWorld(s: Suite, cfg: Config, t: Tables, x: Protocol.Node, w: Wire,
                     eventType: string, payload: map<string, Value>, timeMs: int, a: nat, g: nat)
    requires KeyWorks(s, cfg.key) && GoodName(eventType) && Supported(Map(payload))
    requires NodeInv(x, a, g) && Doing(x, Idle) && |x.memory.items| < cfg.capacity
    requires HistoryOk(s, cfg, x.history) && GatewayOk(s, cfg, t, LinksOf(s, x.history), g)
    requires w == NextWire(s, cfg, x.memory.client, eventType, payload, timeMs)
    ensures AppendError(x.memory.items, Some(cfg.capacity), w).None? && NodeInv(WithSample(x, w), a, g)
    ensures HistoryOk(s, cfg, x.history + [w]) && GatewayOk(s, cfg, t, LinksOf(s, x.history + [w]), g)
  {
    SampledNode(x, cfg.capacity, w, a, g);
    SignedWireIsGenuine(s, cfg, x.memory.client, eventType, payload, timeMs);
    LongerHistory(s, cfg, t, x.history, w, g);
  }

  /** Delivering changed the outbox and the gateway, and nothing else of the node. */
  lemma FlushedNode(x: Protocol.Node, g: nat, b: nat, h: nat)
    requires NodeInv(x, g, g) && Doing(x, Idle) && x.requests == {} && x.responses == {}
    requires g <= b <= h <= |x.history|
    ensures NodeInv(x.(outbox := x.history[b..], memory := x.memory.(items := x.history[b..])), b, h)
  {
  }

  lemma AnsweredInv(x: Protocol.Node, server: Checkpoint, a: nat, g: nat)
    requires NodeInv(x, a, g) && Doing(x, Idle) && server == Point(x.history, g)
    ensures NodeInv(x.(memory := Turn(x.memory, Answered(server))), a, g)
  {
  }

  lemma SettledIdle(x: Protocol.Node, server: Checkpoint, g: nat)
    requires NodeInv(x, g, g) && Doing(x, Reconciled(server))
    ensures NodeInv(AfterSettle(x, server).(memory := Turn(AfterSettle(x, server).memory, Idle)), g, g)
  {
  }

  /** None of the three checks of a reconciliation can fail, and it ends where the gateway's log ends. */
  lemma AlignedNode(x: Protocol.Node, server: Checkpoint, a: nat, g: nat)
    requires NodeInv(x, a, g) && Doing(x, Idle) && server == Point(x.history, g)
    ensures server.0 <= x.memory.local.0
    ensures var items := Remaining(x.memory.items, server.0);
            && (items != [] ==> Sequence(items[0]) == server.0 + 1)
            && (x.memory.local.0 > server.0 ==> items != [])
    ensures var y := AfterSettle(AfterReconcile(x.(memory := Turn(x.memory, Answered(server))), server), server);
            NodeInv(y.(memory := Turn(y.memory, Idle)), g, g)
  {
    var z := x.(memory := Turn(x.memory, Answered(server)));
    AnsweredInv(x, server, a, g);
    ReconcileKeepsInv(z, server, a, g);
    SettleKeepsInv(AfterReconcile(z, server), server, g, g);
    SettledIdle(AfterReconcile(z, server), server, g);
  }
}
