/**
 * The run in which a device fails although nothing was lost: a gateway whose batch size
 * is out of range stores the device's first event and refuses it all the same.
 */
module Refusals {
  import opened Primitives
  import opened Models
  import opened Store
  import opened Invariant
  import opened Growth
  import opened LedgerOperations
  import opened Device
  import opened Outbox
  import opened Protocol
  import opened Api
  import opened StoreAndForward
  import Interleaving

  const ORIGIN: Checkpoint := (0, ZERO_HASH)

  /** The node when it has sampled and buffered one event, the first of its chain. */
  function Holding(w: Wire, activity: Activity, requests: set<Wire>, responses: set<Response>): Node {
    Node([w], [w], CheckpointOf(w), Up(activity, [w], CheckpointOf(w), CheckpointOf(w)), requests, responses)
  }

  function First(s: Suite, cfg: Config, eventType: string, payload: map<string, Value>, timeMs: int): Wire {
    NextWire(s, cfg, ORIGIN, eventType, payload, timeMs)
  }

  lemma Booted()
    ensures DeviceStep(1, NEW_DEVICE, Boot, Node([], [], ORIGIN, Up(Idle, [], ORIGIN, ORIGIN), {}, {}))
  {
    ReadBack([]);
  }

  lemma Reconciles(w: Wire)
    requires Sequence(w) == 1
    ensures AfterReconcile(Holding(w, Answered(ORIGIN), {}, {}), ORIGIN) == Holding(w, Reconciled(ORIGIN), {}, {})
    ensures AfterSettle(Holding(w, Reconciled(ORIGIN), {}, {}), ORIGIN) == Holding(w, Flushing([w]), {}, {})
  {
    assert [w][..0] == [];
    assert Remaining([w], 0) == [w];
  }

  lemma RunAppend(s: Suite, cfg: Config, server: Server, states: seq<World>, events: seq<Event>, e: Event, y: World)
    requires Run(s, cfg, server, states, events) && Next(s, cfg, server, states[|events|], e, y)
    ensures Run(s, cfg, server, states + [y], events + [e])
  {
    hide Next, Start;
    var more, steps := states + [y], events + [e];
    forall i | 0 <= i < |steps| ensures Next(s, cfg, server, more[i], steps[i], more[i + 1]) {
      if i < |events| {
        assert Next(s, cfg, server, states[i], events[i], states[i + 1]);
      }
    }
  }

  /** The run so far leads from one world to another. */
  ghost predicate Reaches(s: Suite, cfg: Config, server: Server, start: World, states: seq<World>, events: seq<Event>, x: World) {
    Run(s, cfg, server, states, events) && states[0] == start && states[|events|] == x
  }

  lemma Begins(s: Suite, cfg: Config, server: Server, x: World)
    requires Start(s, cfg, server, x)
    ensures Reaches(s, cfg, server, x, [x], [], x) && x.node == NEW_DEVICE
  {
  }

  lemma Moves(s: Suite, cfg: Config, server: Server, start: World, states: seq<World>, events: seq<Event>, x: World, e: Event, y: World)
    requires Reaches(s, cfg, server, start, states, events, x) && Next(s, cfg, server, x, e, y)
    ensures Reaches(s, cfg, server, start, states + [y], events + [e], y)
  {
    hide Next, Start;
    RunAppend(s, cfg, server, states, events, e, y);
  }

  /** A step of the device alone. */
  lemma DeviceMoves(s: Suite, cfg: Config, server: Server, start: World, states: seq<World>, events: seq<Event>, x: World, step: Step, y: Node)
    requires Reaches(s, cfg, server, start, states, events, x)
    requires DeviceStep(cfg.capacity, x.node, step, y) && !step.Generate? && !step.Answer?
    ensures Reaches(s, cfg, server, start, states + [x.(node := y)], events + [DeviceActs(step)], x.(node := y))
  {
    hide Reaches, DeviceStep;
    Moves(s, cfg, server, start, states, events, x, DeviceActs(step), x.(node := y));
  }

  lemma FirstBuffered(capacity: int, w: Wire)
    requires capacity >= 1
    ensures AfterGenerate(Node([], [], ORIGIN, Up(Idle, [], ORIGIN, ORIGIN), {}, {}), capacity, w)
         == Node([w], [w], ORIGIN, Up(Buffered, [w], ORIGIN, CheckpointOf(w)), {}, {})
  {
    assert [] + [w] == [w];
  }

  /** From its start the device samples one event and records it. */
  lemma Samples(s: Suite, cfg: Config, server: Server, x: World, w: Wire, eventType: string, payload: map<string, Value>, timeMs: int)
    returns (states: seq<World>, events: seq<Event>)
    requires Start(s, cfg, server, x) && cfg.capacity >= 1 && GoodName(eventType) && Supported(Map(payload))
    requires w == First(s, cfg, eventType, payload, timeMs)
    ensures Reaches(s, cfg, server, x, states, events, x.(node := Holding(w, Idle, {}, {})))
  {
    hide Reaches, AfterBoot, Start;
    var n1 := Node([], [], ORIGIN, Up(Idle, [], ORIGIN, ORIGIN), {}, {});
    var n2 := Node([w], [w], ORIGIN, Up(Buffered, [w], ORIGIN, CheckpointOf(w)), {}, {});
    Booted();
    Begins(s, cfg, server, x);
    DeviceMoves(s, cfg, server, x, [x], [], x, Boot, n1);
    states, events := [x] + [x.(node := n1)], [] + [DeviceActs(Boot)];
    FirstBuffered(cfg.capacity, w);
    Moves(s, cfg, server, x, states, events, x.(node := n1), Created(eventType, payload, timeMs), x.(node := n2));
    states, events := states + [x.(node := n2)], events + [Created(eventType, payload, timeMs)];
    DeviceMoves(s, cfg, server, x, states, events, x.(node := n2), Save, Holding(w, Idle, {}, {}));
    states, events := states + [x.(node := Holding(w, Idle, {}, {}))], events + [DeviceActs(Save)];
  }

  /** An enrolled device that the gateway has nothing of reconciles and sends its first event. */
  lemma Sends(s: Suite, cfg: Config, server: Server, start: World, before: seq<World>, earlier: seq<Event>, x: World, w: Wire)
    returns (states: seq<World>, events: seq<Event>)
    requires Reaches(s, cfg, server, start, before, earlier, x) && x.node == Holding(w, Idle, {}, {}) && Sequence(w) == 1
    requires cfg.deviceId in x.gateway.tables.devices && GatewayPoint(x.gateway.tables, cfg.deviceId) == ORIGIN
    ensures Reaches(s, cfg, server, start, states, events, x.(node := Holding(w, Flushing([w]), {w}, {})))
  {
    hide Reaches, AfterReconcile, AfterSettle;
    Reconciles(w);
    var asking, answered := Holding(w, Asking, {}, {}), Holding(w, Answered(ORIGIN), {}, {});
    var reconciled, flushing := Holding(w, Reconciled(ORIGIN), {}, {}), Holding(w, Flushing([w]), {}, {});
    DeviceMoves(s, cfg, server, start, before, earlier, x, Ask, asking);
    states, events := before + [x.(node := asking)], earlier + [DeviceActs(Ask)];
    Moves(s, cfg, server, start, states, events, x.(node := asking), Answering, x.(node := answered));
    states, events := states + [x.(node := answered)], events + [Answering];
    DeviceMoves(s, cfg, server, start, states, events, x.(node := answered), Reconcile, reconciled);
    states, events := states + [x.(node := reconciled)], events + [DeviceActs(Reconcile)];
    DeviceMoves(s, cfg, server, start, states, events, x.(node := reconciled), Settle, flushing);
    states, events := states + [x.(node := flushing)], events + [DeviceActs(Settle)];
    DeviceMoves(s, cfg, server, start, states, events, x.(node := flushing), Send, Holding(w, Flushing([w]), {w}, {}));
    states, events := states + [x.(node := Holding(w, Flushing([w]), {w}, {}))], events + [DeviceActs(Send)];
  }

  /** The gateway after the device's enrolment expects the first event of its chain. */
  lemma EnrolledExpectsFirst(s: Suite, cfg: Config, t: Tables, w: Wire, eventType: string, payload: map<string, Value>, timeMs: int, keyId: string, now: int)
    requires Lawful(s) && KeyWorks(s, cfg.key) && Inv(s, t) && cfg.deviceId !in t.devices
    requires GoodName(eventType) && Supported(Map(payload)) && w == First(s, cfg, eventType, payload, timeMs)
    requires w.eventHash !in t.events
    ensures var u := AfterEnrolment(t, cfg.deviceId, cfg.key.publicKey, keyId, now);
            && cfg.deviceId in u.devices && GatewayPoint(u, cfg.deviceId) == ORIGIN
            && Inv(s, u) && Extends(t, u) && u.events == t.events && u.blocks == t.blocks
            && forall at :: Accept(s, u, w.event, at).Ok? && Accept(s, u, w.event, at).value.1
  {
    var u := AfterEnrolment(t, cfg.deviceId, cfg.key.publicKey, keyId, now);
    RegisterDeviceKeepsInv(s, t, cfg.deviceId, cfg.key.publicKey, keyId, now);
    RegisterDeviceExtends(t, u, cfg.deviceId, cfg.key.publicKey, keyId, now, true);
    NextEventUnobjectionable(s, u, cfg.deviceId, cfg.key, 0, ZERO_HASH, eventType, payload, timeMs);
    forall at ensures Accept(s, u, w.event, at).Ok? && Accept(s, u, w.event, at).value.1 {
      AcceptIff(s, u, w.event, at);
    }
  }

  /** The gateway stores the device's first event, and the seal that is then due fails. */
  ghost predicate RefusesFirst(s: Suite, cfg: Config, server: Server, t: Tables, w: Wire, now: int, clock: nat -> int) {
    && server.keys != [] && cfg.deviceId in t.devices && GatewayPoint(t, cfg.deviceId) == ORIGIN
    && Accept(s, t, w.event, now).Ok?
    && var u := Accept(s, t, w.event, now).value.0;
       EventHash(s, w.event) in u.events && AutoSeal(s, server, u, clock) == (u, Err(BadLimit))
  }

  lemma GatewayRefuses(s: Suite, cfg: Config, server: Server, t: Tables, w: Wire, eventType: string, payload: map<string, Value>, timeMs: int,
                       keyId: string, now: int, clock: nat -> int)
    requires Lawful(s) && KeyWorks(s, cfg.key) && Inv(s, t) && cfg.deviceId !in t.devices
    requires GoodName(eventType) && Supported(Map(payload)) && w == First(s, cfg, eventType, payload, timeMs)
    requires w.eventHash !in t.events && server.keys != []
    requires !GoodBatch(server.batchSize) && !ProposalOpen(t) && |Pending(t)| + 1 >= server.batchSize
    ensures RefusesFirst(s, cfg, server, AfterEnrolment(t, cfg.deviceId, cfg.key.publicKey, keyId, now), w, now, clock)
  {
    hide Accept, AfterEnrolment, GatewayPoint, Inv;
    EnrolledExpectsFirst(s, cfg, t, w, eventType, payload, timeMs, keyId, now);
    var u := AfterEnrolment(t, cfg.deviceId, cfg.key.publicKey, keyId, now);
    assert Pending(u) == Pending(t);
    AcceptedPending(s, u, w.event, now);
    AcceptedTables(s, u, w.event, now);
  }

  /** The first event is stored and its request is answered as refused, and the device gives up. */
  lemma IsRefused(s: Suite, cfg: Config, server: Server, start: World, before: seq<World>, earlier: seq<Event>, x: World, w: Wire, now: int, clock: nat -> int)
    returns (states: seq<World>, events: seq<Event>, y: World)
    requires Reaches(s, cfg, server, start, before, earlier, x) && x.node == Holding(w, Flushing([w]), {w}, {})
    requires RefusesFirst(s, cfg, server, x.gateway.tables, w, now, clock)
    ensures Reaches(s, cfg, server, start, states, events, y)
    ensures y.node == Holding(w, Activity.Failed(Rejected), {w}, {Response(w, false)}) && EventHash(s, w.event) in y.gateway.tables.events
  {
    hide Reaches, Accept, AutoSeal, SealInputs;
    var u := Accept(s, x.gateway.tables, w.event, now).value.0;
    var stored := x.(gateway := x.gateway.(tables := u), accepted := x.accepted + {w});
    Moves(s, cfg, server, start, before, earlier, x, Storing(w, now), stored);
    states, events := before + [stored], earlier + [Storing(w, now)];
    var answered := World(Holding(w, Flushing([w]), {w}, {Response(w, false)}), stored.gateway, stored.accepted,
                          stored.attempted + SealInputs(s, server, u, clock(0)));
    assert Responded(x.node, w, false) == answered.node;
    Moves(s, cfg, server, start, states, events, stored, Finishing(w, clock), answered);
    states, events := states + [answered], events + [Finishing(w, clock)];
    y := answered.(node := Holding(w, Activity.Failed(Rejected), {w}, {Response(w, false)}));
    DeviceMoves(s, cfg, server, start, states, events, answered, Receive(false), y.node);
    states, events := states + [y], events + [DeviceActs(Receive(false))];
  }

  lemma Enrols(s: Suite, cfg: Config, server: Server, start: World, before: seq<World>, earlier: seq<Event>, x: World, keyId: string, now: int)
    returns (states: seq<World>, events: seq<Event>, y: World)
    requires Reaches(s, cfg, server, start, before, earlier, x)
    ensures Reaches(s, cfg, server, start, states, events, y) && y.node == x.node
    ensures y.gateway.tables == AfterEnrolment(x.gateway.tables, cfg.deviceId, cfg.key.publicKey, keyId, now)
  {
    hide Reaches;
    y := x.(gateway := x.gateway.(tables := AfterEnrolment(x.gateway.tables, cfg.deviceId, cfg.key.publicKey, keyId, now)));
    Moves(s, cfg, server, start, before, earlier, x, Enrolling(keyId, now), y);
    states, events := before + [y], earlier + [Enrolling(keyId, now)];
  }

  lemma StartIsServed(s: Suite, cfg: Config, server: Server, x: World)
    requires Start(s, cfg, server, x)
    ensures Inv(s, x.gateway.tables) && cfg.deviceId !in x.gateway.tables.devices && server.keys != []
  {
  }

  /**
   * At every gateway whose batch size is out of range and is reached by one more event,
   * every new device has a run in which nothing is lost, nothing collides and its first
   * event is stored, and which ends in a rejection.
   */
  lemma OutOfRangeBatchRefuses(s: Suite, cfg: Config, server: Server, x: World, eventType: string, payload: map<string, Value>, timeMs: int,
                               keyId: string, now: int, clock: nat -> int)
    returns (states: seq<World>, events: seq<Event>, y: World)
    requires Lawful(s) && KeyWorks(s, cfg.key) && Start(s, cfg, server, x) && cfg.capacity >= 1
    requires GoodName(eventType) && Supported(Map(payload))
    requires First(s, cfg, eventType, payload, timeMs).eventHash !in x.gateway.tables.events
    requires !GoodBatch(server.batchSize) && !ProposalOpen(x.gateway.tables) && |Pending(x.gateway.tables)| + 1 >= server.batchSize
    ensures Reaches(s, cfg, server, x, states, events, y)
    ensures var w := First(s, cfg, eventType, payload, timeMs);
            y.node == Holding(w, Activity.Failed(Rejected), {w}, {Response(w, false)}) && EventHash(s, w.event) in y.gateway.tables.events
  {
    StartIsServed(s, cfg, server, x);
    hide *;
    var w := First(s, cfg, eventType, payload, timeMs);
    FirstIsFirst(s, cfg, eventType, payload, timeMs);
    GatewayRefuses(s, cfg, server, x.gateway.tables, w, eventType, payload, timeMs, keyId, now, clock);
    states, events := Samples(s, cfg, server, x, w, eventType, payload, timeMs);
    states, events, y := Enrols(s, cfg, server, x, states, events, x.(node := Holding(w, Idle, {}, {})), keyId, now);
    states, events, y := SentAndRefused(s, cfg, server, x, states, events, y, w, now, clock);
  }

  lemma FirstIsFirst(s: Suite, cfg: Config, eventType: string, payload: map<string, Value>, timeMs: int)
    ensures Sequence(First(s, cfg, eventType, payload, timeMs)) == 1
  {
  }

  lemma SentAndRefused(s: Suite, cfg: Config, server: Server, start: World, before: seq<World>, earlier: seq<Event>, x: World, w: Wire, now: int, clock: nat -> int)
    returns (states: seq<World>, events: seq<Event>, y: World)
    requires Reaches(s, cfg, server, start, before, earlier, x) && x.node == Holding(w, Idle, {}, {}) && Sequence(w) == 1
    requires RefusesFirst(s, cfg, server, x.gateway.tables, w, now, clock)
    ensures Reaches(s, cfg, server, start, states, events, y)
    ensures y.node == Holding(w, Activity.Failed(Rejected), {w}, {Response(w, false)}) && EventHash(s, w.event) in y.gateway.tables.events
  {
    hide Reaches;
    states, events := Sends(s, cfg, server, start, before, earlier, x, w);
    states, events, y := IsRefused(s, cfg, server, start, states, events, x.(node := Holding(w, Flushing([w]), {w}, {})), w, now, clock);
  }
}
