/**
 * The device node as a state machine: a durable outbox, a separate state file, and a
 * process that may crash between any two durable writes. The network may lose, delay,
 * reorder and repeat whatever is put on it.
 */
module Protocol {
  import opened Primitives
  import opened Outbox

  /** A sequence with the hash of the event that has it. */
  type Checkpoint = (int, Bytes)

  datatype Failure = Corrupted(error: OutboxError) | GatewayAhead | OutboxEmpty | Rejected | AppendRefused(error: OutboxError)

  datatype Activity =
    | Idle
    | Buffered                        // the event is in the outbox file, the state file is not yet written
    | Asking
    | Answered(server: Checkpoint)
    | Reconciled(server: Checkpoint)
    | Flushing(queue: seq<Wire>)
    | Failed(failure: Failure)

  datatype Memory = Down | Up(activity: Activity, items: seq<Wire>, local: Checkpoint, client: Checkpoint)

  /** An answer of the gateway to a request. */
  datatype Response = Response(wire: Wire, accepted: bool)

  /**
   * `history` is everything ever persisted to the outbox. `requests` holds every request
   * ever sent and `responses` every answer ever given: delivery may repeat, reorder or
   * never happen.
   */
  datatype Node = Node(
    history: seq<Wire>, outbox: seq<Wire>, saved: Checkpoint, memory: Memory,
    requests: set<Wire>, responses: set<Response>)

  datatype Step =
    | Boot | Generate(wire: Wire) | Save
    | Ask | Answer(server: Checkpoint) | Reconcile | Settle
    | Send | Receive(accepted: bool) | Finish | GiveUp | Resume | Crash

  /** The newest buffered event overrules an older state file. */
  function Recovered(saved: Checkpoint, items: seq<Wire>): Checkpoint {
    if items != [] && Sequence(items[|items| - 1]) > saved.0
    then (Sequence(items[|items| - 1]), items[|items| - 1].eventHash)
    else saved
  }

  function CheckpointOf(w: Wire): Checkpoint { (Sequence(w), w.eventHash) }

  predicate Doing(x: Node, activity: Activity) { x.memory.Up? && x.memory.activity == activity }

  function Turn(m: Memory, activity: Activity): Memory
    requires m.Up?
  {
    m.(activity := activity)
  }

  function AfterBoot(x: Node): Node {
    match Read(FileOf(x.outbox))
    case Err(e) => x.(memory := Up(Failed(Corrupted(e)), [], x.saved, x.saved))
    case Ok(items) =>
      var local := Recovered(x.saved, items);
      x.(saved := local, memory := Up(Idle, items, local, local))
  }

  function AfterGenerate(x: Node, capacity: int, w: Wire): Node
    requires x.memory.Up?
  {
    match AppendError(x.memory.items, Some(capacity), w)
    case Some(e) => x.(memory := x.memory.(activity := Failed(AppendRefused(e)), client := CheckpointOf(w)))
    case None =>
      x.(history := x.history + [w], outbox := x.memory.items + [w],
         memory := x.memory.(activity := Buffered, items := x.memory.items + [w], client := CheckpointOf(w)))
  }

  function AfterReconcile(x: Node, server: Checkpoint): Node
    requires x.memory.Up?
  {
    if server.0 > x.memory.local.0 then x.(memory := Turn(x.memory, Failed(GatewayAhead)))
    else
      var items := Remaining(x.memory.items, server.0);
      var next := if items != [] && Sequence(items[0]) != server.0 + 1 then Failed(Corrupted(DoesNotBeginAtGateway)) else Reconciled(server);
      x.(outbox := items, memory := x.memory.(activity := next, items := items))
  }

  function AfterSettle(x: Node, server: Checkpoint): Node
    requires x.memory.Up?
  {
    if x.memory.local.0 > server.0 && x.memory.items == [] then x.(memory := Turn(x.memory, Failed(OutboxEmpty)))
    else if x.memory.local.0 == server.0 then
      x.(saved := server, memory := x.memory.(activity := Flushing(x.memory.items), local := server, client := server))
    else x.(memory := Turn(x.memory, Flushing(x.memory.items)))
  }

  function AfterReceive(x: Node, queue: seq<Wire>, accepted: bool): Node
    requires x.memory.Up? && queue != []
  {
    if !accepted then x.(memory := Turn(x.memory, Failed(Rejected)))
    else
      var items := Remaining(x.memory.items, Sequence(queue[0]));
      x.(outbox := items, memory := x.memory.(activity := Flushing(queue[1..]), items := items))
  }

  /** One step of the device. What it generates continues its own chain; what it is told comes from outside. */
  predicate DeviceStep(capacity: int, x: Node, step: Step, y: Node) {
    match step
    case Boot => x.memory.Down? && y == AfterBoot(x)
    case Generate(w) =>
      && Doing(x, Idle) && |x.memory.items| < capacity
      && Sequence(w) == x.memory.client.0 + 1 && w.event.previousEventHash == x.memory.client.1
      && y == AfterGenerate(x, capacity, w)
    case Save => Doing(x, Buffered) && y == x.(saved := x.memory.client, memory := x.memory.(activity := Idle, local := x.memory.client))
    case Ask => Doing(x, Idle) && y == x.(memory := Turn(x.memory, Asking))
    case Answer(server) => Doing(x, Asking) && y == x.(memory := Turn(x.memory, Answered(server)))
    case Reconcile => x.memory.Up? && x.memory.activity.Answered? && y == AfterReconcile(x, x.memory.activity.server)
    case Settle => x.memory.Up? && x.memory.activity.Reconciled? && y == AfterSettle(x, x.memory.activity.server)
    case Send =>
      && x.memory.Up? && x.memory.activity.Flushing? && x.memory.activity.queue != []
      && y == x.(requests := x.requests + {x.memory.activity.queue[0]})
    case Receive(accepted) =>
      && x.memory.Up? && x.memory.activity.Flushing? && x.memory.activity.queue != []
      && Response(x.memory.activity.queue[0], accepted) in x.responses
      && y == AfterReceive(x, x.memory.activity.queue, accepted)
    case Finish => Doing(x, Flushing([])) && y == x.(memory := Turn(x.memory, Idle))
    case GiveUp => x.memory.Up? && (x.memory.activity.Asking? || x.memory.activity.Flushing?) && y == x.(memory := Turn(x.memory, Idle))
    case Resume => x.memory.Up? && x.memory.activity.Failed? && y == x.(memory := Turn(x.memory, Idle))
    case Crash => x.memory.Up? && y == x.(memory := Down)
  }

  // ---------------------------------------------------------------------------
  // The invariant: a events acknowledged, g events at the gateway
  // ---------------------------------------------------------------------------

  function Point(history: seq<Wire>, k: nat): Checkpoint
    requires k <= |history|
  {
    if k == 0 then (0, ZERO_HASH) else (k, history[k - 1].eventHash)
  }

  predicate Numbered(history: seq<Wire>) {
    forall i | 0 <= i < |history| :: Sequence(history[i]) == i + 1
  }

  /** The outbox is the end of the history; the state file is current, or one behind an event that is still in the outbox. */
  predicate DurableOk(history: seq<Wire>, outbox: seq<Wire>, saved: Checkpoint, a: nat) {
    && a <= |history|
    && outbox == history[a..]
    && (saved == Point(history, |history|) || (a < |history| && saved == Point(history, |history| - 1)))
  }

  predicate ActivityOk(history: seq<Wire>, outbox: seq<Wire>, activity: Activity, a: nat, g: nat) {
    match activity
    case Answered(server) => a <= server.0 <= g && server.0 <= |history| && server == Point(history, server.0)
    case Reconciled(server) => server.0 == a <= |history| && server == Point(history, a)
    case Flushing(queue) => queue == outbox
    case Failed(failure) => failure == Rejected
    case _ => true
  }

  predicate MemoryOk(history: seq<Wire>, outbox: seq<Wire>, saved: Checkpoint, m: Memory, a: nat, g: nat) {
    m.Up? ==>
      && m.items == outbox
      && m.client == Point(history, |history|)
      && (if m.activity.Buffered? then a < |history| && m.local == Point(history, |history| - 1)
          else m.local == Point(history, |history|) && saved == m.local)
      && ActivityOk(history, outbox, m.activity, a, g)
  }

  predicate InHistory(history: seq<Wire>, w: Wire, bound: int) {
    1 <= Sequence(w) <= bound && Sequence(w) <= |history| && w == history[Sequence(w) - 1]
  }

  /** Every request in flight is for an event the gateway has or expects next; only what it has was answered as accepted. */
  predicate NetworkOk(history: seq<Wire>, requests: set<Wire>, responses: set<Response>, g: nat) {
    && (forall w | w in requests :: InHistory(history, w, g + 1))
    && (forall r | r in responses && r.accepted :: InHistory(history, r.wire, g))
  }

  predicate NodeInv(x: Node, a: nat, g: nat) {
    && a <= g <= |x.history|
    && Numbered(x.history)
    && DurableOk(x.history, x.outbox, x.saved, a)
    && MemoryOk(x.history, x.outbox, x.saved, x.memory, a, g)
    && NetworkOk(x.history, x.requests, x.responses, g)
  }

  /** No request was refused, and the device has not failed. */
  predicate FailureFree(x: Node) {
    && (forall r | r in x.responses :: r.accepted)
    && !(x.memory.Up? && x.memory.activity.Failed?)
  }

  lemma NumberedIsContiguous(history: seq<Wire>, a: nat)
    requires Numbered(history) && a <= |history|
    ensures Contiguous(history[a..])
    ensures history[a..] != [] ==> Sequence(history[a..][0]) == a + 1
  {
    var rest := history[a..];
    forall i | 0 <= i < |rest| - 1 ensures Sequence(rest[i + 1]) == Sequence(rest[i]) + 1 {
      assert rest[i] == history[a + i] && rest[i + 1] == history[a + i + 1];
    }
  }

  lemma DropTwice(history: seq<Wire>, a: nat, k: nat)
    requires a <= k <= |history|
    ensures history[a..][k - a..] == history[k..]
  {
  }

  /** Acknowledging up to k drops exactly the first k events of the history from the outbox. */
  lemma RemainingOfHistory(history: seq<Wire>, a: nat, k: nat)
    requires Numbered(history) && a <= k <= |history|
    ensures Remaining(history[a..], k) == history[k..]
  {
    var rest := history[a..];
    NumberedIsContiguous(history, a);
    RemainingDrops(rest, a + 1, k - a);
    DropTwice(history, a, k);
  }

  lemma PointAfterAppend(history: seq<Wire>, w: Wire, k: nat)
    requires k <= |history|
    ensures Point(history + [w], k) == Point(history, k)
  {
  }

  /** Reading the outbox back never fails, and the state file is brought up to date. */
  lemma BootKeepsInv(x: Node, a: nat, g: nat)
    requires NodeInv(x, a, g) && x.memory.Down?
    ensures NodeInv(AfterBoot(x), a, g) && AfterBoot(x).memory.activity == Idle
  {
    NumberedIsContiguous(x.history, a);
    ReadBack(x.outbox);
    if a < |x.history| {
      assert x.outbox[|x.outbox| - 1] == x.history[|x.history| - 1];
    }
  }

  lemma NetworkAppend(history: seq<Wire>, w: Wire, requests: set<Wire>, responses: set<Response>, g: nat)
    requires NetworkOk(history, requests, responses, g)
    ensures NetworkOk(history + [w], requests, responses, g)
  {
    forall v | v in requests ensures InHistory(history + [w], v, g + 1) {
      assert InHistory(history, v, g + 1);
    }
    forall r | r in responses && r.accepted ensures InHistory(history + [w], r.wire, g) {
      assert InHistory(history, r.wire, g);
    }
  }

  lemma DurableAppend(history: seq<Wire>, outbox: seq<Wire>, saved: Checkpoint, a: nat, w: Wire)
    requires DurableOk(history, outbox, saved, a) && saved == Point(history, |history|)
    ensures DurableOk(history + [w], outbox + [w], saved, a)
  {
    PointAfterAppend(history, w, |history|);
    assert (history + [w])[a..] == history[a..] + [w];
  }

  lemma AppendAllowed(history: seq<Wire>, a: nat, capacity: int, w: Wire)
    requires Numbered(history) && a <= |history| && Sequence(w) == |history| + 1 && |history[a..]| < capacity
    ensures AppendError(history[a..], Some(capacity), w).None?
  {
    if a < |history| {
      assert history[a..][|history| - a - 1] == history[|history| - 1];
    }
  }

  /** Appending the next event is never refused: there is room, and it continues the outbox. */
  lemma GenerateKeepsInv(x: Node, capacity: int, w: Wire, a: nat, g: nat)
    requires NodeInv(x, a, g) && Doing(x, Idle) && |x.memory.items| < capacity
    requires Sequence(w) == x.memory.client.0 + 1 && w.event.previousEventHash == x.memory.client.1
    ensures NodeInv(AfterGenerate(x, capacity, w), a, g) && AfterGenerate(x, capacity, w).memory.activity == Buffered
  {
    AppendAllowed(x.history, a, capacity, w);
    PointAfterAppend(x.history, w, |x.history|);
    DurableAppend(x.history, x.outbox, x.saved, a, w);
    NetworkAppend(x.history, w, x.requests, x.responses, g);
  }

  lemma ReconcileKeepsInv(x: Node, server: Checkpoint, a: nat, g: nat)
    requires NodeInv(x, a, g) && Doing(x, Answered(server))
    ensures NodeInv(AfterReconcile(x, server), server.0, g) && AfterReconcile(x, server).memory.activity == Reconciled(server)
  {
    RemainingOfHistory(x.history, a, server.0);
    NumberedIsContiguous(x.history, server.0);
  }

  lemma SettleKeepsInv(x: Node, server: Checkpoint, a: nat, g: nat)
    requires NodeInv(x, a, g) && Doing(x, Reconciled(server))
    ensures NodeInv(AfterSettle(x, server), a, g) && AfterSettle(x, server).memory.activity == Flushing(x.outbox)
  {
  }

  lemma SendKeepsInv(x: Node, a: nat, g: nat)
    requires NodeInv(x, a, g) && x.memory.Up? && x.memory.activity.Flushing? && x.memory.activity.queue != []
    ensures NodeInv(x.(requests := x.requests + {x.memory.activity.queue[0]}), a, g)
  {
    var w := x.memory.activity.queue[0];
    assert w == x.history[a] && InHistory(x.history, w, g + 1);
  }

  lemma ReceiveKeepsInv(x: Node, queue: seq<Wire>, a: nat, g: nat)
    requires NodeInv(x, a, g) && Doing(x, Flushing(queue)) && queue != [] && Response(queue[0], true) in x.responses
    ensures NodeInv(AfterReceive(x, queue, true), a + 1, g) && AfterReceive(x, queue, true).memory.activity == Flushing(queue[1..])
  {
    assert queue[0] == x.history[a];
    assert InHistory(x.history, queue[0], g);
    RemainingOfHistory(x.history, a, a + 1);
    DropTwice(x.history, a, a + 1);
  }

  /** What each step of the device does to the invariant; no step but a rejection can fail. */
  lemma DeviceStepKeepsInv(capacity: int, x: Node, step: Step, y: Node, a: nat, g: nat) returns (b: nat)
    requires NodeInv(x, a, g) && DeviceStep(capacity, x, step, y)
    requires step.Answer? ==> a <= step.server.0 <= g && step.server == Point(x.history, step.server.0)
    ensures NodeInv(y, b, g) && b >= a
    ensures FailureFree(x) ==> FailureFree(y)
  {
    b := a;
    match step
    case Boot => BootKeepsInv(x, a, g);
    case Generate(w) => GenerateKeepsInv(x, capacity, w, a, g);
    case Reconcile =>
      b := x.memory.activity.server.0;
      ReconcileKeepsInv(x, x.memory.activity.server, a, g);
    case Settle => SettleKeepsInv(x, x.memory.activity.server, a, g);
    case Send => SendKeepsInv(x, a, g);
    case Receive(accepted) =>
      if accepted {
        b := a + 1;
        ReceiveKeepsInv(x, x.memory.activity.queue, a, g);
      }
    case _ =>
  }

  lemma NetworkAnswered(history: seq<Wire>, requests: set<Wire>, responses: set<Response>, w: Wire, accepted: bool, g: nat, h: nat)
    requires NetworkOk(history, requests, responses, g) && w in requests
    requires h == g || h == g + 1
    requires accepted ==> Sequence(w) <= h
    ensures NetworkOk(history, requests, responses + {Response(w, accepted)}, h)
  {
    forall v | v in requests ensures InHistory(history, v, h + 1) {
      assert InHistory(history, v, g + 1);
    }
    forall r | r in responses + {Response(w, accepted)} && r.accepted ensures InHistory(history, r.wire, h) {
      if r in responses {
        assert InHistory(history, r.wire, g);
      }
    }
  }

  /** The gateway processed a request: it answered, and may have stored the event it expected. */
  lemma ResponseKeepsInv(x: Node, w: Wire, accepted: bool, a: nat, g: nat, h: nat)
    requires NodeInv(x, a, g) && w in x.requests
    requires h == g || h == g + 1 == Sequence(w)
    requires accepted ==> Sequence(w) <= h
    ensures NodeInv(x.(responses := x.responses + {Response(w, accepted)}), a, h)
  {
    assert InHistory(x.history, w, g + 1);
    NetworkAnswered(x.history, x.requests, x.responses, w, accepted, g, h);
  }
}
