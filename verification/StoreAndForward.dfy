/** Device, network and gateway together: no persisted event is ever lost, and the gateway's log never goes wrong. */
module StoreAndForward {
  import opened Primitives
  import opened Models
  import opened Store
  import opened Invariant
  import opened Growth
  import opened LedgerOperations
  import opened Delivery
  import opened Device
  import opened Outbox
  import opened Protocol
  import opened Sealing
  import opened Api
  import Interleaving

  datatype Config = Config(deviceId: string, key: KeyPair, capacity: int)

  /**
   * `accepted` holds the requests whose event was stored and whose answer may still come.
   * `attempted`, for reasoning only, holds the header bytes hashed by the seals that
   * followed the device's events.
   */
  datatype World = World(node: Node, gateway: Interleaving.System, accepted: set<Wire>, attempted: set<Bytes>)

  datatype Event =
    | DeviceActs(step: Step)
    | Created(eventType: string, payload: map<string, Value>, timeMs: int)
    | Answering
    | Enrolling(keyId: string, now: int)
    | Storing(wire: Wire, now: int)
    | Finishing(wire: Wire, clock: nat -> int)
    | Elsewhere(request: Interleaving.Step)

  function NextWire(s: Suite, cfg: Config, client: Checkpoint, eventType: string, payload: map<string, Value>, timeMs: int): Wire {
    var e := NextEvent(s, cfg.key, cfg.deviceId, client.0, client.1, eventType, payload, timeMs);
    Wire(e, EventHash(s, e))
  }

  function AfterEnrolment(t: Tables, id: string, publicKey: Bytes, keyId: string, now: int): Tables {
    match RegisterDevice(t, id, publicKey, keyId, now) case Ok(r) => r.0 case Err(_) => t
  }

  /** The header bytes hashed by an attempt to seal. */
  ghost function SealInputs(s: Suite, server: Server, t: Tables, at: int): set<Bytes>
    requires server.keys != []
  {
    var (id, key) := server.keys[0];
    var draft := DraftBlock(s, t, server.settings, id, key, server.batchSize, at);
    if SealDue(t, server.batchSize) && draft.Ok? then {HeaderInput(s, draft.value.header)} else {}
  }

  function Responded(x: Node, w: Wire, accepted: bool): Node { x.(responses := x.responses + {Response(w, accepted)}) }

  /** The gateway takes in a request, which may be new to it or repeated: it refuses the event, or stores it and has yet to answer. */
  ghost predicate Stores(s: Suite, x: World, w: Wire, now: int, y: World) {
    && w in x.node.requests
    && y == match Accept(s, x.gateway.tables, w.event, now)
            case Err(_) => x.(node := Responded(x.node, w, false))
            case Ok((u, _)) => x.(gateway := x.gateway.(tables := u), accepted := x.accepted + {w})
  }

  /** The gateway seals if a seal is due by now, and answers; whatever else happened since the event was stored. */
  ghost predicate Finishes(s: Suite, server: Server, x: World, w: Wire, clock: nat -> int, y: World) {
    && server.keys != [] && w in x.accepted
    && var (u, r) := AutoSeal(s, server, x.gateway.tables, clock);
       y == World(Responded(x.node, w, r.Ok?), x.gateway.(tables := u), x.accepted,
                  x.attempted + SealInputs(s, server, x.gateway.tables, clock(0)))
  }

  /** Steps of the device, of the network, and of the gateway for this device and for everybody else. */
  ghost predicate Next(s: Suite, cfg: Config, server: Server, x: World, e: Event, y: World) {
    match e
    case DeviceActs(step) =>
      !step.Generate? && !step.Answer? && y == x.(node := y.node) && DeviceStep(cfg.capacity, x.node, step, y.node)
    case Created(eventType, payload, timeMs) =>
      && GoodName(eventType) && Supported(Map(payload)) && x.node.memory.Up? && y == x.(node := y.node)
      && DeviceStep(cfg.capacity, x.node, Generate(NextWire(s, cfg, x.node.memory.client, eventType, payload, timeMs)), y.node)
    case Answering =>
      && cfg.deviceId in x.gateway.tables.devices && y == x.(node := y.node)
      && DeviceStep(cfg.capacity, x.node, Answer(GatewayPoint(x.gateway.tables, cfg.deviceId)), y.node)
    case Enrolling(keyId, now) =>
      y == x.(gateway := x.gateway.(tables := AfterEnrolment(x.gateway.tables, cfg.deviceId, cfg.key.publicKey, keyId, now)))
    case Storing(w, now) => Stores(s, x, w, now, y)
    case Finishing(w, clock) => Finishes(s, server, x, w, clock, y)
    case Elsewhere(request) =>
      && y == x.(gateway := y.gateway) && Interleaving.Next(s, x.gateway, request, y.gateway)
      && !StoresEventOf(cfg.deviceId, x.gateway, request)
      && !(request.EnrolDevice? && request.id == cfg.deviceId)
  }

  function GatewayPoint(t: Tables, d: string): Checkpoint
    requires d in t.devices
  {
    (t.devices[d].lastSequence, t.devices[d].lastEventHash)
  }

  // ---------------------------------------------------------------------------
  // The invariant
  // ---------------------------------------------------------------------------

  /** Event i of the history is what the device's client signed after the events before it. */
  predicate Genuine(s: Suite, cfg: Config, w: Wire, i: int, previousHash: Bytes) {
    && w.eventHash == EventHash(s, w.event)
    && w.event.deviceId == cfg.deviceId && w.event.sequence == i + 1 && w.event.version == 1
    && w.event.previousEventHash == previousHash
    && GoodName(w.event.eventType) && Encodable(w.event)
    && s.verify(cfg.key.publicKey, w.event.signature, SigningBytes(s, w.event))
  }

  ghost predicate HistoryOk(s: Suite, cfg: Config, history: seq<Wire>) {
    forall i {:trigger Genuine(s, cfg, history[i], i, Point(history, i).1)} ::
      0 <= i < |history| ==> Genuine(s, cfg, history[i], i, Point(history, i).1)
  }

  function LinksOf(s: Suite, history: seq<Wire>): (r: seq<Link>)
    ensures |r| == |history| && forall i :: 0 <= i < |history| ==> r[i] == LinkOf(s, history[i].event)
  {
    seq(|history|, i requires 0 <= i < |history| => LinkOf(s, history[i].event))
  }

  /** The gateway's log of the device is the first g events of the history. */
  ghost predicate GatewayOk(s: Suite, cfg: Config, t: Tables, links: seq<Link>, g: nat) {
    && Inv(s, t)
    && if cfg.deviceId in t.devices then t.devices[cfg.deviceId].publicKey == cfg.key.publicKey && LogIs(t, cfg.deviceId, links, g)
       else g == 0
  }

  /** Some event of the history has the hash of a different stored event. */
  ghost predicate Clashed(t: Tables, links: seq<Link>) {
    exists i :: 0 <= i < |links| && Clashes(t, links[i])
  }

  predicate Silent(x: Node) {
    && x.requests == {}
    && (x.memory.Up? ==> !x.memory.activity.Answered? && !x.memory.activity.Reconciled? && !x.memory.activity.Flushing?)
  }

  /** The bytes hashed for the headers of stored blocks. */
  function HeaderInputs(s: Suite, t: Tables): set<Bytes> { set h | h in t.blocks :: HeaderInput(s, t.blocks[h].header) }

  /** Why a request may have been refused: a clash of event hashes or of header hashes, or a batch size out of range. */
  ghost predicate Excuse(s: Suite, server: Server, t: Tables, links: seq<Link>, attempted: set<Bytes>) {
    Clashed(t, links) || !GoodBatch(server.batchSize) || CollisionIn(s.sha, attempted + HeaderInputs(s, t))
  }

  /** The event of every request that was accepted is at the gateway. */
  predicate AcceptedOk(x: Node, accepted: set<Wire>, g: nat) {
    forall w | w in accepted :: w in x.requests && InHistory(x.history, w, g)
  }

  ghost predicate WorldInv(s: Suite, cfg: Config, server: Server, x: World, a: nat, g: nat) {
    && NodeInv(x.node, a, g) && AcceptedOk(x.node, x.accepted, g)
    && HistoryOk(s, cfg, x.node.history)
    && GatewayOk(s, cfg, x.gateway.tables, LinksOf(s, x.node.history), g)
    && Interleaving.SystemInv(s, x.gateway) && Serves(s, server, x.gateway.tables)
    && (cfg.deviceId !in x.gateway.tables.devices ==> Silent(x.node))
    && (FailureFree(x.node) || Excuse(s, server, x.gateway.tables, LinksOf(s, x.node.history), x.attempted))
  }

  // ---------------------------------------------------------------------------
  // History and gateway
  // ---------------------------------------------------------------------------

  lemma GenuineIsLink(s: Suite, cfg: Config, t: Tables, links: seq<Link>, w: Wire, i: nat)
    requires i < |links| && Genuine(s, cfg, w, i, HashBefore(links, i))
    requires cfg.deviceId in t.devices && t.devices[cfg.deviceId].publicKey == cfg.key.publicKey
    requires t.devices[cfg.deviceId].status == Active
    ensures ChainLink(s, t, cfg.deviceId, links, w.event, i)
  {
  }

  lemma LinkHash(s: Suite, cfg: Config, history: seq<Wire>, i: nat)
    requires HistoryOk(s, cfg, history) && i <= |history|
    ensures HashBefore(LinksOf(s, history), i) == Point(history, i).1
    ensures i < |history| ==> Genuine(s, cfg, history[i], i, HashBefore(LinksOf(s, history), i))
  {
    if i > 0 {
      assert Genuine(s, cfg, history[i - 1], i - 1, Point(history, i - 1).1);
    }
    if i < |history| {
      assert Genuine(s, cfg, history[i], i, Point(history, i).1);
    }
  }

  lemma HistoryAppend(s: Suite, cfg: Config, history: seq<Wire>, w: Wire)
    requires HistoryOk(s, cfg, history) && Genuine(s, cfg, w, |history|, Point(history, |history|).1)
    ensures HistoryOk(s, cfg, history + [w])
  {
    var more := history + [w];
    forall i | 0 <= i < |more| ensures Genuine(s, cfg, more[i], i, Point(more, i).1) {
      PointAfterAppend(history, w, i);
      if i < |history| {
        assert Genuine(s, cfg, history[i], i, Point(history, i).1);
      }
    }
  }

  lemma LinksOfAppend(s: Suite, history: seq<Wire>, w: Wire)
    ensures LinksOf(s, history + [w]) == LinksOf(s, history) + [LinkOf(s, w.event)]
  {
  }

  lemma MoreLinks(t: Tables, d: string, links: seq<Link>, l: Link, g: nat)
    requires LogIs(t, d, links, g)
    ensures LogIs(t, d, links + [l], g)
  {
    forall i | 0 <= i < g ensures Stored(t, d, (links + [l])[i], i + 1) {
      assert Stored(t, d, links[i], i + 1);
    }
    forall e | e in t.events && t.events[e].deviceId == d ensures exists i :: 0 <= i < g && e == (links + [l])[i].hash {
      var i :| 0 <= i < g && e == links[i].hash;
      assert (links + [l])[i].hash == e;
    }
  }

  lemma ClashedStays(t: Tables, u: Tables, links: seq<Link>)
    requires Clashed(t, links) && Extends(t, u)
    ensures Clashed(u, links)
  {
    var i :| 0 <= i < |links| && Clashes(t, links[i]);
    assert EventKept(t, u, links[i].hash);
    assert Clashes(u, links[i]);
  }

  lemma ClashedMore(t: Tables, links: seq<Link>, l: Link)
    requires Clashed(t, links)
    ensures Clashed(t, links + [l])
  {
    var i :| 0 <= i < |links| && Clashes(t, links[i]);
    assert Clashes(t, (links + [l])[i]);
  }

  lemma HeadersStay(s: Suite, t: Tables, u: Tables)
    requires Extends(t, u)
    ensures HeaderInputs(s, t) <= HeaderInputs(s, u)
  {
    forall h | h in t.blocks ensures HeaderInput(s, t.blocks[h].header) in HeaderInputs(s, u) {
      assert BlockKept(t, u, h);
    }
  }

  lemma ExcuseStays(s: Suite, server: Server, t: Tables, u: Tables, links: seq<Link>, attempted: set<Bytes>, more: set<Bytes>)
    requires Excuse(s, server, t, links, attempted) && Extends(t, u) && attempted <= more
    ensures Excuse(s, server, u, links, more)
  {
    if Clashed(t, links) {
      ClashedStays(t, u, links);
    }
    HeadersStay(s, t, u);
  }

  /** Enrolled keys stay enrolled, whatever else is stored. */
  lemma StillServes(s: Suite, server: Server, t: Tables, u: Tables)
    requires Serves(s, server, t) && Inv(s, u) && Extends(t, u)
    ensures Serves(s, server, u)
  {
  }

  lemma SignedWireIsGenuine(s: Suite, cfg: Config, client: Checkpoint, eventType: string, payload: map<string, Value>, timeMs: int)
    requires KeyWorks(s, cfg.key) && GoodName(eventType) && Supported(Map(payload))
    ensures Genuine(s, cfg, NextWire(s, cfg, client, eventType, payload, timeMs), client.0, client.1)
  {
    var unsigned := SignedEvent(cfg.deviceId, client.0 + 1, timeMs, eventType, payload, client.1, [], 1);
    SigningBytesIgnoreSignature(s, unsigned, cfg.key.sign(SigningBytes(s, unsigned)));
  }

  // ---------------------------------------------------------------------------
  // Every step keeps the invariant
  // ---------------------------------------------------------------------------

  /** One more signed event changes nothing about what the gateway holds. */
  lemma LongerHistory(s: Suite, cfg: Config, t: Tables, history: seq<Wire>, w: Wire, g: nat)
    requires HistoryOk(s, cfg, history) && Genuine(s, cfg, w, |history|, Point(history, |history|).1)
    requires GatewayOk(s, cfg, t, LinksOf(s, history), g)
    ensures HistoryOk(s, cfg, history + [w]) && GatewayOk(s, cfg, t, LinksOf(s, history + [w]), g)
    ensures Clashed(t, LinksOf(s, history)) ==> Clashed(t, LinksOf(s, history + [w]))
  {
    HistoryAppend(s, cfg, history, w);
    LinksOfAppend(s, history, w);
    if cfg.deviceId in t.devices {
      MoreLinks(t, cfg.deviceId, LinksOf(s, history), LinkOf(s, w.event), g);
    }
    if Clashed(t, LinksOf(s, history)) {
      ClashedMore(t, LinksOf(s, history), LinkOf(s, w.event));
    }
  }

  lemma AcceptedStays(x: Node, y: Node, accepted: set<Wire>, g: nat)
    requires AcceptedOk(x, accepted, g) && x.requests <= y.requests && x.history <= y.history
    ensures AcceptedOk(y, accepted, g)
  {
  }

  lemma GeneratedNode(x: Node, capacity: int, w: Wire, y: Node, a: nat, g: nat)
    requires NodeInv(x, a, g) && DeviceStep(capacity, x, Generate(w), y)
    ensures NodeInv(y, a, g) && y.history == x.history + [w] && y.requests == x.requests
    ensures Sequence(w) == |x.history| + 1 && w.event.previousEventHash == Point(x.history, |x.history|).1
    ensures Silent(x) ==> Silent(y)
    ensures FailureFree(x) ==> FailureFree(y)
  {
    GenerateKeepsInv(x, capacity, w, a, g);
  }

  lemma CreatedKeepsInv(s: Suite, cfg: Config, server: Server, x: World, y: World, eventType: string, payload: map<string, Value>, timeMs: int, a: nat, g: nat)
    requires KeyWorks(s, cfg.key) && WorldInv(s, cfg, server, x, a, g) && Next(s, cfg, server, x, Created(eventType, payload, timeMs), y)
    ensures WorldInv(s, cfg, server, y, a, g)
  {
    hide HistoryOk, Serves, Interleaving.SystemInv, GatewayOk, NodeInv, Clashed, Genuine;
    var w := NextWire(s, cfg, x.node.memory.client, eventType, payload, timeMs);
    GeneratedNode(x.node, cfg.capacity, w, y.node, a, g);
    SignedWireIsGenuine(s, cfg, x.node.memory.client, eventType, payload, timeMs);
    LongerHistory(s, cfg, x.gateway.tables, x.node.history, w, g);
    AcceptedStays(x.node, y.node, x.accepted, g);
  }

  lemma ActingNode(x: Node, capacity: int, step: Step, y: Node, a: nat, g: nat) returns (b: nat)
    requires NodeInv(x, a, g) && DeviceStep(capacity, x, step, y) && !step.Generate?
    requires step.Answer? ==> a <= step.server.0 <= g && step.server == Point(x.history, step.server.0)
    ensures NodeInv(y, b, g) && y.history == x.history && x.requests <= y.requests
    ensures Silent(x) && !step.Answer? ==> Silent(y)
    ensures FailureFree(x) ==> FailureFree(y)
  {
    b := DeviceStepKeepsInv(capacity, x, step, y, a, g);
  }

  lemma DeviceActsKeepsInv(s: Suite, cfg: Config, server: Server, x: World, y: World, step: Step, a: nat, g: nat) returns (b: nat)
    requires WorldInv(s, cfg, server, x, a, g) && Next(s, cfg, server, x, DeviceActs(step), y)
    ensures WorldInv(s, cfg, server, y, b, g)
  {
    b := ActingNode(x.node, cfg.capacity, step, y.node, a, g);
    AcceptedStays(x.node, y.node, x.accepted, g);
  }

  lemma GatewayPointIs(s: Suite, cfg: Config, t: Tables, history: seq<Wire>, g: nat)
    requires HistoryOk(s, cfg, history) && LogIs(t, cfg.deviceId, LinksOf(s, history), g)
    ensures GatewayPoint(t, cfg.deviceId) == Point(history, g)
  {
    LinkHash(s, cfg, history, g);
  }

  lemma AnsweredNode(x: Node, server: Checkpoint, a: nat, g: nat)
    requires NodeInv(x, a, g) && Doing(x, Asking) && server == Point(x.history, g)
    ensures NodeInv(x.(memory := Turn(x.memory, Answered(server))), a, g)
    ensures FailureFree(x) ==> FailureFree(x.(memory := Turn(x.memory, Answered(server))))
  {
  }

  lemma AnsweringKeepsInv(s: Suite, cfg: Config, server: Server, x: World, y: World, a: nat, g: nat)
    requires WorldInv(s, cfg, server, x, a, g) && Next(s, cfg, server, x, Answering, y)
    ensures WorldInv(s, cfg, server, y, a, g)
  {
    hide HistoryOk, Serves, Interleaving.SystemInv, Excuse, NodeInv, LogIs, Inv;
    var point := GatewayPoint(x.gateway.tables, cfg.deviceId);
    GatewayPointIs(s, cfg, x.gateway.tables, x.node.history, g);
    AnsweredNode(x.node, point, a, g);
    assert y.node == x.node.(memory := Turn(x.node.memory, Answered(point)));
    AcceptedStays(x.node, y.node, x.accepted, g);
  }

  lemma EnrolledGatewayOk(s: Suite, cfg: Config, t: Tables, keyId: string, now: int, links: seq<Link>, g: nat)
    requires KeyWorks(s, cfg.key) && GatewayOk(s, cfg, t, links, g)
    ensures GatewayOk(s, cfg, AfterEnrolment(t, cfg.deviceId, cfg.key.publicKey, keyId, now), links, g)
    ensures Extends(t, AfterEnrolment(t, cfg.deviceId, cfg.key.publicKey, keyId, now))
  {
    var r := RegisterDevice(t, cfg.deviceId, cfg.key.publicKey, keyId, now);
    if r.Ok? {
      RegisterDeviceKeepsInv(s, t, cfg.deviceId, cfg.key.publicKey, keyId, now);
      RegisterDeviceExtends(t, r.value.0, cfg.deviceId, cfg.key.publicKey, keyId, now, r.value.1);
      if r.value.1 {
        NewDeviceHasEmptyLog(s, t, r.value.0, cfg.deviceId, cfg.key.publicKey, keyId, now, links);
      }
    } else {
      ExtendsSelf(t);
    }
  }

  lemma NodeFollows(x: Node, a: nat, g: nat, m: nat)
    requires NodeInv(x, a, g) && g <= m <= |x.history|
    ensures NodeInv(x, a, m)
  {
    forall v | v in x.requests ensures InHistory(x.history, v, m + 1) {
      assert InHistory(x.history, v, g + 1);
    }
    forall r | r in x.responses && r.accepted ensures InHistory(x.history, r.wire, m) {
      assert InHistory(x.history, r.wire, g);
    }
  }

  lemma GatewayBound(s: Suite, cfg: Config, server: Server, x: World, a: nat, g: nat)
    requires WorldInv(s, cfg, server, x, a, g)
    ensures g <= |x.node.history| && AcceptedOk(x.node, x.accepted, g)
  {
  }

  /** What a change of the tables keeps, whoever made it, when the gateway then has the first m events. */
  lemma GatewayGrows(s: Suite, cfg: Config, server: Server, x: World, y: World, a: nat, g: nat, m: nat)
    requires WorldInv(s, cfg, server, x, a, g) && y.node == x.node && y.attempted == x.attempted
    requires Interleaving.SystemInv(s, y.gateway) && Extends(x.gateway.tables, y.gateway.tables)
    requires g <= m <= |x.node.history| && GatewayOk(s, cfg, y.gateway.tables, LinksOf(s, x.node.history), m)
    requires AcceptedOk(y.node, y.accepted, m)
    ensures WorldInv(s, cfg, server, y, a, m)
  {
    hide HistoryOk, GatewayOk, NodeInv, FailureFree, Excuse;
    NodeFollows(x.node, a, g, m);
    StillServes(s, server, x.gateway.tables, y.gateway.tables);
    if cfg.deviceId in x.gateway.tables.devices {
      assert DeviceKept(x.gateway.tables, y.gateway.tables, cfg.deviceId);
    }
    if !FailureFree(x.node) {
      ExcuseStays(s, server, x.gateway.tables, y.gateway.tables, LinksOf(s, x.node.history), x.attempted, x.attempted);
    }
  }

  lemma EnrollingKeepsInv(s: Suite, cfg: Config, server: Server, x: World, y: World, keyId: string, now: int, a: nat, g: nat)
    requires KeyWorks(s, cfg.key) && WorldInv(s, cfg, server, x, a, g) && Next(s, cfg, server, x, Enrolling(keyId, now), y)
    ensures WorldInv(s, cfg, server, y, a, g)
  {
    hide NodeInv, HistoryOk, Serves, GatewayOk, Excuse, FailureFree;
    EnrolledGatewayOk(s, cfg, x.gateway.tables, keyId, now, LinksOf(s, x.node.history), g);
    TablesGrow(s, x.gateway, y.gateway.tables);
    GatewayBound(s, cfg, server, x, a, g);
    GatewayGrows(s, cfg, server, x, y, a, g, g);
  }

  lemma ElsewhereGatewayOk(s: Suite, cfg: Config, x: Interleaving.System, request: Interleaving.Step, y: Interleaving.System, links: seq<Link>, g: nat)
    requires Lawful(s) && Interleaving.SystemInv(s, x) && Interleaving.Next(s, x, request, y)
    requires !StoresEventOf(cfg.deviceId, x, request) && !(request.EnrolDevice? && request.id == cfg.deviceId)
    requires GatewayOk(s, cfg, x.tables, links, g)
    ensures Interleaving.SystemInv(s, y) && Extends(x.tables, y.tables) && GatewayOk(s, cfg, y.tables, links, g)
  {
    Interleaving.NextKeepsInv(s, x, request, y);
    if cfg.deviceId in x.tables.devices {
      OtherStepsLeaveAlone(s, cfg.deviceId, x, request, y);
      LogStays(s, x.tables, y.tables, cfg.deviceId, links, g);
    } else {
      OtherStepsEnrolNobody(s, cfg.deviceId, x, request, y);
    }
  }

  lemma ElsewhereKeepsInv(s: Suite, cfg: Config, server: Server, x: World, y: World, request: Interleaving.Step, a: nat, g: nat)
    requires Lawful(s) && WorldInv(s, cfg, server, x, a, g) && Next(s, cfg, server, x, Event.Elsewhere(request), y)
    ensures WorldInv(s, cfg, server, y, a, g)
  {
    hide NodeInv, HistoryOk, Serves, GatewayOk, Excuse, FailureFree, Interleaving.SystemInv, Interleaving.Next;
    ElsewhereGatewayOk(s, cfg, x.gateway, request, y.gateway, LinksOf(s, x.node.history), g);
    GatewayBound(s, cfg, server, x, a, g);
    GatewayGrows(s, cfg, server, x, y, a, g, g);
  }

  // ---------------------------------------------------------------------------
  // A request
  // ---------------------------------------------------------------------------

  /** The ledger takes in event j of the history, which it has or expects next. */
  lemma AcceptedGatewayOk(s: Suite, cfg: Config, t: Tables, history: seq<Wire>, j: nat, now: int, g: nat) returns (m: nat)
    requires Lawful(s) && HistoryOk(s, cfg, history) && j <= g <= |history| && j < |history|
    requires GatewayOk(s, cfg, t, LinksOf(s, history), g) && cfg.deviceId in t.devices
    ensures GatewayOk(s, cfg, AfterDelivery(s, t, history[j].event, now), LinksOf(s, history), m)
    ensures Extends(t, AfterDelivery(s, t, history[j].event, now)) && cfg.deviceId in AfterDelivery(s, t, history[j].event, now).devices
    ensures m == g || (m == g + 1 && j == g)
    ensures Accept(s, t, history[j].event, now).Ok? <==> j < m
    ensures j == g == m ==> Clashes(AfterDelivery(s, t, history[j].event, now), LinkOf(s, history[j].event))
  {
    var links := LinksOf(s, history);
    LinkHash(s, cfg, history, j);
    assert DeviceInv(t, cfg.deviceId);
    GenuineIsLink(s, cfg, t, links, history[j], j);
    DeliveryKeepsInv(s, t, history[j].event, now);
    m := DeliveryKeepsLog(s, t, cfg.deviceId, links, g, history[j].event, j, now);
    assert DeviceKept(t, AfterDelivery(s, t, history[j].event, now), cfg.deviceId);
    if j == g == m {
      assert EventKept(t, AfterDelivery(s, t, history[j].event, now), links[j].hash);
    }
  }

  /** Sealing leaves the log of a device alone. */
  lemma SealedGatewayOk(s: Suite, cfg: Config, server: Server, t: Tables, u: Tables, links: seq<Link>, g: nat)
    requires server.batchSize >= 0 && Sealed(s, t, u, server.batchSize, server.settings.quorumThreshold, server.keys)
    requires GatewayOk(s, cfg, t, links, g) && cfg.deviceId in t.devices
    ensures GatewayOk(s, cfg, u, links, g) && cfg.deviceId in u.devices
  {
    ChainsLeftAlone(s, cfg.deviceId, t, u);
    LogStays(s, t, u, cfg.deviceId, links, g);
  }

  lemma AutoSealedGatewayOk(s: Suite, cfg: Config, server: Server, t: Tables, u: Tables, links: seq<Link>, g: nat)
    requires AutoSealed(s, server, t, u) && GatewayOk(s, cfg, t, links, g) && cfg.deviceId in t.devices
    ensures GatewayOk(s, cfg, u, links, g) && cfg.deviceId in u.devices
  {
    if u != t {
      SealedGatewayOk(s, cfg, server, t, u, links, g);
    }
  }

  /** The gateway refuses event j of the history only if it holds a different event with its hash. */
  lemma RefusedClashes(s: Suite, cfg: Config, t: Tables, history: seq<Wire>, j: nat, now: int, g: nat)
    requires Lawful(s) && HistoryOk(s, cfg, history) && j <= g <= |history| && j < |history|
    requires GatewayOk(s, cfg, t, LinksOf(s, history), g) && cfg.deviceId in t.devices
    requires Accept(s, t, history[j].event, now).Err?
    ensures Clashes(t, LinkOf(s, history[j].event))
  {
    var m := AcceptedGatewayOk(s, cfg, t, history, j, now, g);
  }

  lemma RequestEnrolled(s: Suite, cfg: Config, server: Server, x: World, w: Wire, a: nat, g: nat)
    requires WorldInv(s, cfg, server, x, a, g) && w in x.node.requests
    ensures cfg.deviceId in x.gateway.tables.devices && g <= |x.node.history| && InHistory(x.node.history, w, g + 1)
  {
  }

  lemma RefusingKeepsInv(s: Suite, cfg: Config, server: Server, x: World, y: World, w: Wire, now: int, a: nat, g: nat)
    requires Lawful(s) && WorldInv(s, cfg, server, x, a, g) && w in x.node.requests
    requires Accept(s, x.gateway.tables, w.event, now).Err? && y == x.(node := Responded(x.node, w, false))
    ensures WorldInv(s, cfg, server, y, a, g)
  {
    hide HistoryOk, GatewayOk, NodeInv, FailureFree, Clashes, Serves, Interleaving.SystemInv, Accept;
    RequestEnrolled(s, cfg, server, x, w, a, g);
    var j := Sequence(w) - 1;
    RefusedClashes(s, cfg, x.gateway.tables, x.node.history, j, now, g);
    assert Clashes(x.gateway.tables, LinksOf(s, x.node.history)[j]);
    ResponseKeepsInv(x.node, w, false, a, g, g);
    AcceptedStays(x.node, y.node, x.accepted, g);
  }

  lemma StoredGateway(s: Suite, cfg: Config, server: Server, x: World, w: Wire, now: int, a: nat, g: nat) returns (m: nat)
    requires Lawful(s) && WorldInv(s, cfg, server, x, a, g) && w in x.node.requests && Accept(s, x.gateway.tables, w.event, now).Ok?
    ensures var u := Accept(s, x.gateway.tables, w.event, now).value.0;
            && GatewayOk(s, cfg, u, LinksOf(s, x.node.history), m) && Extends(x.gateway.tables, u)
            && Interleaving.SystemInv(s, x.gateway.(tables := u))
    ensures g <= m <= |x.node.history| && InHistory(x.node.history, w, m)
  {
    hide HistoryOk, GatewayOk, NodeInv, FailureFree, Clashes, Serves, Interleaving.SystemInv, Accept, Excuse;
    RequestEnrolled(s, cfg, server, x, w, a, g);
    m := AcceptedGatewayOk(s, cfg, x.gateway.tables, x.node.history, Sequence(w) - 1, now, g);
    var u := Accept(s, x.gateway.tables, w.event, now).value.0;
    GatewayIsSound(s, cfg, u, LinksOf(s, x.node.history), m);
    TablesGrow(s, x.gateway, u);
  }

  lemma GatewayIsSound(s: Suite, cfg: Config, t: Tables, links: seq<Link>, g: nat)
    requires GatewayOk(s, cfg, t, links, g)
    ensures Inv(s, t)
  {
  }

  lemma AcceptedMore(x: Node, accepted: set<Wire>, w: Wire, g: nat, m: nat)
    requires AcceptedOk(x, accepted, g) && g <= m && w in x.requests && InHistory(x.history, w, m)
    ensures AcceptedOk(x, accepted + {w}, m)
  {
  }

  lemma StoringKeepsInv(s: Suite, cfg: Config, server: Server, x: World, y: World, w: Wire, now: int, a: nat, g: nat) returns (m: nat)
    requires Lawful(s) && WorldInv(s, cfg, server, x, a, g) && Next(s, cfg, server, x, Storing(w, now), y)
    ensures WorldInv(s, cfg, server, y, a, m) && m >= g
  {
    hide WorldInv, Accept;
    if Accept(s, x.gateway.tables, w.event, now).Err? {
      m := g;
      RefusingKeepsInv(s, cfg, server, x, y, w, now, a, g);
    } else {
      m := StoredGateway(s, cfg, server, x, w, now, a, g);
      GatewayBound(s, cfg, server, x, a, g);
      AcceptedMore(x.node, x.accepted, w, g, m);
      GatewayGrows(s, cfg, server, x, y, a, g, m);
    }
  }

  /** A seal that fails although the batch size is in range has hashed a header to the hash of another. */
  lemma SealFailureIsCollision(s: Suite, server: Server, t: Tables, now: int)
    requires Lawful(s) && Serves(s, server, t) && GoodBatch(server.batchSize) && SealFails(s, server, t, now)
    ensures CollisionIn(s.sha, SealInputs(s, server, t, now) + HeaderInputs(s, t))
  {
    var draft := DraftBlock(s, t, server.settings, server.keys[0].0, server.keys[0].1, server.batchSize, now);
    Outcomes.ClashIsCollision(s, t, draft.value.header);
  }

  /** An answer after the event was stored is a refusal only with an excuse. */
  lemma FinishExcused(s: Suite, server: Server, x: Node, t: Tables, links: seq<Link>, attempted: set<Bytes>, w: Wire, clock: nat -> int)
    requires Lawful(s) && Serves(s, server, t) && server.keys != []
    requires FailureFree(x) || Excuse(s, server, t, links, attempted)
    ensures var (u, r) := AutoSeal(s, server, t, clock);
            FailureFree(Responded(x, w, r.Ok?)) || Excuse(s, server, u, links, attempted + SealInputs(s, server, t, clock(0)))
  {
    hide *;
    var (u, r) := AutoSeal(s, server, t, clock);
    var hashed := SealInputs(s, server, t, clock(0));
    AutoSealFailsIff(s, server, t, clock);
    AutoSealKeepsServing(s, server, t, clock);
    if !FailureFree(x) {
      ExcuseStays(s, server, t, u, links, attempted, attempted + hashed);
    } else if r.Err? {
      FailedSealExcused(s, server, t, links, clock(0));
      ExcuseStays(s, server, t, u, links, hashed, attempted + hashed);
    } else {
      AcceptanceIsNoFailure(x, w);
    }
  }

  lemma FailedSealExcused(s: Suite, server: Server, t: Tables, links: seq<Link>, now: int)
    requires Lawful(s) && Serves(s, server, t) && server.keys != [] && SealFails(s, server, t, now)
    ensures Excuse(s, server, t, links, SealInputs(s, server, t, now))
  {
    if GoodBatch(server.batchSize) {
      SealFailureIsCollision(s, server, t, now);
    }
  }

  lemma AcceptanceIsNoFailure(x: Node, w: Wire)
    requires FailureFree(x)
    ensures FailureFree(Responded(x, w, true))
  {
  }

  lemma FinishedNode(x: Node, accepted: set<Wire>, w: Wire, ok: bool, a: nat, g: nat)
    requires NodeInv(x, a, g) && AcceptedOk(x, accepted, g) && w in accepted
    ensures NodeInv(Responded(x, w, ok), a, g) && AcceptedOk(Responded(x, w, ok), accepted, g)
  {
    ResponseKeepsInv(x, w, ok, a, g, g);
  }

  lemma FinishedGateway(s: Suite, cfg: Config, server: Server, x: World, clock: nat -> int, g: nat)
    requires Serves(s, server, x.gateway.tables) && Interleaving.SystemInv(s, x.gateway)
    requires cfg.deviceId in x.gateway.tables.devices && GatewayOk(s, cfg, x.gateway.tables, LinksOf(s, x.node.history), g)
    ensures var u := AutoSeal(s, server, x.gateway.tables, clock).0;
            && GatewayOk(s, cfg, u, LinksOf(s, x.node.history), g) && cfg.deviceId in u.devices
            && Serves(s, server, u) && Interleaving.SystemInv(s, x.gateway.(tables := u))
  {
    var (u, r) := AutoSeal(s, server, x.gateway.tables, clock);
    AutoSealFailsIff(s, server, x.gateway.tables, clock);
    AutoSealKeepsServing(s, server, x.gateway.tables, clock);
    if u != x.gateway.tables {
      AutoSealedGatewayOk(s, cfg, server, x.gateway.tables, u, LinksOf(s, x.node.history), g);
    }
    TablesGrow(s, x.gateway, u);
  }

  lemma FinishingKeepsInv(s: Suite, cfg: Config, server: Server, x: World, y: World, w: Wire, clock: nat -> int, a: nat, g: nat)
    requires Lawful(s) && WorldInv(s, cfg, server, x, a, g) && Next(s, cfg, server, x, Finishing(w, clock), y)
    ensures WorldInv(s, cfg, server, y, a, g)
  {
    hide HistoryOk, GatewayOk, NodeInv, FailureFree, Excuse, Serves, Interleaving.SystemInv, AutoSeal, SealInputs, Silent;
    RequestEnrolled(s, cfg, server, x, w, a, g);
    FinishedNode(x.node, x.accepted, w, AutoSeal(s, server, x.gateway.tables, clock).1.Ok?, a, g);
    FinishedGateway(s, cfg, server, x, clock, g);
    FinishExcused(s, server, x.node, x.gateway.tables, LinksOf(s, x.node.history), x.attempted, w, clock);
  }

  lemma NextKeepsInv(s: Suite, cfg: Config, server: Server, x: World, e: Event, y: World, a: nat, g: nat) returns (b: nat, h: nat)
    requires Lawful(s) && KeyWorks(s, cfg.key) && WorldInv(s, cfg, server, x, a, g) && Next(s, cfg, server, x, e, y)
    ensures WorldInv(s, cfg, server, y, b, h)
  {
    hide WorldInv, Next;
    b, h := a, g;
    match e
    case DeviceActs(step) => b := DeviceActsKeepsInv(s, cfg, server, x, y, step, a, g);
    case Created(eventType, payload, timeMs) => CreatedKeepsInv(s, cfg, server, x, y, eventType, payload, timeMs, a, g);
    case Answering => AnsweringKeepsInv(s, cfg, server, x, y, a, g);
    case Enrolling(keyId, now) => EnrollingKeepsInv(s, cfg, server, x, y, keyId, now, a, g);
    case Storing(w, now) => h := StoringKeepsInv(s, cfg, server, x, y, w, now, a, g);
    case Finishing(w, clock) => FinishingKeepsInv(s, cfg, server, x, y, w, clock, a, g);
    case Elsewhere(request) => ElsewhereKeepsInv(s, cfg, server, x, y, request, a, g);
  }

  // ---------------------------------------------------------------------------
  // Whole runs
  // ---------------------------------------------------------------------------

  const NEW_DEVICE: Node := Node([], [], (0, ZERO_HASH), Down, {}, {})

  /** The device is new to itself and to the gateway, which may have served others before. */
  ghost predicate Start(s: Suite, cfg: Config, server: Server, x: World) {
    && x.node == NEW_DEVICE && x.accepted == {} && x.attempted == {}
    && Interleaving.SystemInv(s, x.gateway) && Serves(s, server, x.gateway.tables) && cfg.deviceId !in x.gateway.tables.devices
  }

  ghost predicate Run(s: Suite, cfg: Config, server: Server, states: seq<World>, events: seq<Event>) {
    && |states| == |events| + 1 && Start(s, cfg, server, states[0])
    && forall i :: 0 <= i < |events| ==> Next(s, cfg, server, states[i], events[i], states[i + 1])
  }

  lemma StartInv(s: Suite, cfg: Config, server: Server, x: World)
    requires Start(s, cfg, server, x)
    ensures WorldInv(s, cfg, server, x, 0, 0)
  {
  }

  lemma RunStep(s: Suite, cfg: Config, server: Server, states: seq<World>, events: seq<Event>, i: nat, a: nat, g: nat) returns (b: nat, h: nat)
    requires Lawful(s) && KeyWorks(s, cfg.key) && Run(s, cfg, server, states, events) && 0 < i < |states|
    requires WorldInv(s, cfg, server, states[i - 1], a, g)
    ensures WorldInv(s, cfg, server, states[i], b, h)
  {
    hide WorldInv, Next, Start;
    assert Next(s, cfg, server, states[i - 1], events[i - 1], states[i - 1 + 1]);
    b, h := NextKeepsInv(s, cfg, server, states[i - 1], events[i - 1], states[i], a, g);
  }

  lemma {:induction false} RunKeepsInv(s: Suite, cfg: Config, server: Server, states: seq<World>, events: seq<Event>, i: nat) returns (a: nat, g: nat)
    requires Lawful(s) && KeyWorks(s, cfg.key) && Run(s, cfg, server, states, events) && i < |states|
    ensures WorldInv(s, cfg, server, states[i], a, g)
    decreases i
  {
    hide WorldInv, Next, Start;
    if i == 0 {
      a, g := 0, 0;
      StartInv(s, cfg, server, states[0]);
    } else {
      var b, h := RunKeepsInv(s, cfg, server, states, events, i - 1);
      a, g := RunStep(s, cfg, server, states, events, i, b, h);
    }
  }

  /** The gateway holds the device's first g events, each once and in order; the outbox holds all but the first a <= g. */
  ghost predicate NothingLost(s: Suite, cfg: Config, x: World, a: nat, g: nat) {
    && a <= g <= |x.node.history|
    && (cfg.deviceId in x.gateway.tables.devices ==> LogIs(x.gateway.tables, cfg.deviceId, LinksOf(s, x.node.history), g))
    && (cfg.deviceId !in x.gateway.tables.devices ==> g == 0)
    && x.node.outbox == x.node.history[a..]
  }

  /**
   * In every run, with crashes at any durable write and any loss, delay, reordering and
   * repetition of messages, with events stored but answered late, never or as refused,
   * and with any other requests in between, the gateway's log is a prefix of what the
   * device persisted, and everything persisted is in the log or still in the outbox.
   */
  lemma NoEventIsLost(s: Suite, cfg: Config, server: Server, states: seq<World>, events: seq<Event>, i: nat) returns (a: nat, g: nat)
    requires Lawful(s) && KeyWorks(s, cfg.key) && Run(s, cfg, server, states, events) && i < |states|
    ensures NothingLost(s, cfg, states[i], a, g)
  {
    a, g := RunKeepsInv(s, cfg, server, states, events, i);
  }

  lemma LinkInput(s: Suite, cfg: Config, history: seq<Wire>, i: nat)
    requires Lawful(s) && HistoryOk(s, cfg, history) && i < |history|
    ensures var l := LinksOf(s, history)[i]; l.hash == s.sha(EventInput(l.unsigned, l.signature)) && |l.signature| == 64
  {
    assert Genuine(s, cfg, history[i], i, Point(history, i).1);
  }

  lemma ClashIsCollision(s: Suite, cfg: Config, t: Tables, history: seq<Wire>)
    requires Lawful(s) && Inv(s, t) && HistoryOk(s, cfg, history) && Clashed(t, LinksOf(s, history))
    ensures CollisionIn(s.sha, DeliveryInputs(LinksOf(s, history), t))
  {
    var links := LinksOf(s, history);
    var i :| 0 <= i < |links| && Clashes(t, links[i]);
    LinkInput(s, cfg, history, i);
    ClashCollides(s, t, links, i);
  }

  /** The bytes hashed for the device's events, for the gateway's events and headers, and for the headers that were tried. */
  ghost function RunInputs(s: Suite, x: World): set<Bytes> {
    DeliveryInputs(LinksOf(s, x.node.history), x.gateway.tables) + HeaderInputs(s, x.gateway.tables) + x.attempted
  }

  lemma FailureIsCollision(s: Suite, cfg: Config, server: Server, x: World, a: nat, g: nat)
    requires Lawful(s) && WorldInv(s, cfg, server, x, a, g) && GoodBatch(server.batchSize)
    ensures FailureFree(x.node) || CollisionIn(s.sha, RunInputs(s, x))
  {
    hide NodeInv, HistoryOk, Serves, Interleaving.SystemInv, FailureFree;
    if Clashed(x.gateway.tables, LinksOf(s, x.node.history)) {
      ClashIsCollision(s, cfg, x.gateway.tables, x.node.history);
    }
  }

  lemma FailureIsRejection(s: Suite, cfg: Config, server: Server, x: World, a: nat, g: nat)
    requires WorldInv(s, cfg, server, x, a, g) && x.node.memory.Up? && x.node.memory.activity.Failed?
    ensures x.node.memory.activity.failure == Rejected
  {
    hide HistoryOk, GatewayOk, Serves, Interleaving.SystemInv, Excuse, FailureFree, DurableOk, NetworkOk;
  }

  /**
   * In every such run, at a gateway whose batch size is in range, the device never
   * fails: no corrupt or refusing outbox, no gateway ahead of the device, no empty
   * outbox behind a gap, no rejected event, unless two of the byte strings hashed
   * for events and headers collide. Whatever the batch size, a rejection is the
   * only failure there is.
   */
  lemma NoSpuriousFailure(s: Suite, cfg: Config, server: Server, states: seq<World>, events: seq<Event>, i: nat)
    requires Lawful(s) && KeyWorks(s, cfg.key) && Run(s, cfg, server, states, events) && i < |states|
    ensures GoodBatch(server.batchSize) ==> FailureFree(states[i].node) || CollisionIn(s.sha, RunInputs(s, states[i]))
    ensures states[i].node.memory.Up? && states[i].node.memory.activity.Failed? ==> states[i].node.memory.activity.failure == Rejected
  {
    hide WorldInv, Next, Start, FailureFree, RunInputs;
    var a, g := RunKeepsInv(s, cfg, server, states, events, i);
    if states[i].node.memory.Up? && states[i].node.memory.activity.Failed? {
      FailureIsRejection(s, cfg, server, states[i], a, g);
    }
    if GoodBatch(server.batchSize) {
      FailureIsCollision(s, cfg, server, states[i], a, g);
    }
  }
}
