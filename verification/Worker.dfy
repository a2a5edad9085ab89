/**
 * The experiment worker: a generator thread fills a queue table, a sender thread empties
 * it, and the sender decides on its own when everything has been delivered. What an
 * earlier run of the worker left in the queue and at the gateway is still there.
 */
module Worker {
  import opened Primitives
  import opened Ordering

  /** A signed event as the gateway tells events apart: by its hash, and by the hash it continues. */
  datatype Event = Event(sequence: int, hash: Bytes, previous: Bytes)

  datatype QueueRow = QueueRow(wire: Event, wireBytes: int, generatedAtNs: int)

  type Queue = map<int, QueueRow>

  type Batch = seq<(int, QueueRow)>

  function Sequences(batch: Batch): (r: seq<int>)
    ensures |r| == |batch| && forall i :: 0 <= i < |r| ==> r[i] == batch[i].0
  {
    seq(|batch|, i requires 0 <= i < |batch| => batch[i].0)
  }

  /** Inserting these sequences breaks the primary key of the queue table. */
  ghost predicate KeyConflict(present: set<int>, sequences: seq<int>) {
    || (exists i :: 0 <= i < |sequences| && sequences[i] in present)
    || (exists i, j :: 0 <= i < j < |sequences| && sequences[i] == sequences[j])
  }

  /** The table after the rows of a batch were inserted one by one. */
  function WithBatch(rows: Queue, batch: Batch): (r: Queue)
    ensures forall k :: k in r <==> k in rows || k in Sequences(batch)
  {
    if batch == [] then rows
    else
      var n := |batch| - 1;
      assert Sequences(batch) == Sequences(batch[..n]) + [batch[n].0];
      WithBatch(rows, batch[..n])[batch[n].0 := batch[n].1]
  }

  /** Without a conflict every row of the batch is stored as it was given, and no other row changes. */
  lemma {:induction false} BatchStored(rows: Queue, batch: Batch)
    requires !KeyConflict(rows.Keys, Sequences(batch))
    ensures forall i :: 0 <= i < |batch| ==> batch[i].0 in WithBatch(rows, batch) && WithBatch(rows, batch)[batch[i].0] == batch[i].1
    ensures forall k :: k in rows ==> WithBatch(rows, batch)[k] == rows[k]
  {
    if batch != [] {
      var n := |batch| - 1;
      var sequences, fewer := Sequences(batch), Sequences(batch[..n]);
      assert forall i :: 0 <= i < n ==> fewer[i] == sequences[i];
      assert sequences[n] == batch[n].0;
      BatchStored(rows, batch[..n]);
      forall i | 0 <= i < n ensures batch[i].0 != batch[n].0 {
        assert sequences[i] != sequences[n];
      }
    }
  }

  lemma RefusedRow(rows: Queue, batch: Batch, n: nat)
    requires n < |batch| && batch[n].0 in WithBatch(rows, batch[..n])
    ensures KeyConflict(rows.Keys, Sequences(batch))
  {
    var sequences := Sequences(batch);
    assert sequences[n] == batch[n].0;
    if batch[n].0 !in rows {
      var i :| 0 <= i < n && Sequences(batch[..n])[i] == batch[n].0;
      assert sequences[i] == sequences[n];
    }
  }

  lemma WithNextRow(rows: Queue, batch: Batch, n: nat)
    requires n < |batch|
    ensures WithBatch(rows, batch[..n + 1]) == WithBatch(rows, batch[..n])[batch[n].0 := batch[n].1]
    ensures Sequences(batch[..n + 1]) == Sequences(batch[..n]) + [batch[n].0]
  {
    assert batch[..n + 1][..n] == batch[..n];
  }

  lemma ConflictFreeAppend(present: set<int>, sequences: seq<int>, k: int)
    requires !KeyConflict(present, sequences) && k !in present && k !in sequences
    ensures !KeyConflict(present, sequences + [k])
  {
    var more := sequences + [k];
    forall i, j | 0 <= i < j < |more| ensures more[i] != more[j] {
      assert more[i] == sequences[i];
    }
  }

  predicate IsOldest(rows: Queue, k: int) { k in rows && forall j | j in rows :: k <= j }

  class ExperimentOutbox {
    var rows: Queue

    constructor (rows: Queue)
      ensures this.rows == rows
    {
      this.rows := rows;
    }

    /** One transaction: all rows of the batch, or none. */
    method AppendMany(batch: Batch) returns (ok: bool)
      modifies this
      ensures ok <==> !KeyConflict(old(rows).Keys, Sequences(batch))
      ensures rows == if ok then WithBatch(old(rows), batch) else old(rows)
    {
      var saved := rows;
      for i := 0 to |batch|
        invariant rows == WithBatch(saved, batch[..i])
        invariant !KeyConflict(saved.Keys, Sequences(batch[..i]))
      {
        if batch[i].0 in rows {
          RefusedRow(saved, batch, i);
          rows := saved;
          return false;
        }
        WithNextRow(saved, batch, i);
        ConflictFreeAppend(saved.Keys, Sequences(batch[..i]), batch[i].0);
        rows := rows[batch[i].0 := batch[i].1];
      }
      assert batch[..|batch|] == batch;
      ok := true;
    }

    /** The row with the least sequence. */
    method Peek() returns (r: Option<int>)
      ensures match r case None => rows == map[] case Some(k) => IsOldest(rows, k)
    {
      IntOrder();
      var keys := Enumerate(rows.Keys, IntLess);
      r := if keys == [] then None else Some(keys[0]);
      forall k | k in rows ensures r.Some? && r.value <= k {
        assert k in keys;
      }
    }

    method Acknowledge(sequence: int)
      modifies this
      ensures rows.Keys == old(rows).Keys - {sequence} && forall k :: k in rows ==> rows[k] == old(rows)[k]
    {
      rows := rows - {sequence};
    }
  }

  // ---------------------------------------------------------------------------
  // The gateway's log of the device
  // ---------------------------------------------------------------------------

  function Head(log: seq<Event>): Bytes { if log == [] then ZERO_HASH else log[|log| - 1].hash }

  /** The gateway appends the next event of the chain, unless it has an event with that hash. */
  function Received(log: seq<Event>, e: Event): seq<Event> {
    if e.sequence == |log| + 1 && e.previous == Head(log) && !(exists i | 0 <= i < |log| :: log[i].hash == e.hash) then log + [e] else log
  }

  predicate Chained(log: seq<Event>) {
    forall i | 0 <= i < |log| :: log[i].sequence == i + 1 && log[i].previous == Head(log[..i])
  }

  lemma ReceivedChained(log: seq<Event>, e: Event)
    requires Chained(log)
    ensures Chained(Received(log, e)) && log <= Received(log, e)
  {
    var more := Received(log, e);
    forall i | 0 <= i < |more| ensures more[i].sequence == i + 1 && more[i].previous == Head(more[..i]) {
      assert more[..i] == log[..i];
      if i == |log| {
        assert log[..i] == log;
      }
    }
  }

  lemma PlaceInLog(log: seq<Event>, e: Event)
    requires Chained(log) && e in log
    ensures 1 <= e.sequence <= |log| && log[e.sequence - 1] == e
  {
  }

  // ---------------------------------------------------------------------------
  // Two threads
  // ---------------------------------------------------------------------------

  /** Where the generator is, with the number of events it has made and the batch it has not yet stored. */
  datatype Generator =
    | Making(made: nat, batch: Batch)     // at the head of its loop
    | Uncounted(made: nat, batch: Batch)  // an event was signed but not counted
    | Counted(made: nat, batch: Batch)    // counted, the batch not yet looked at
    | Closing                             // everything stored, or failed; the flag not yet set
    | Finished

  /** How the sender ended: everything delivered, with an error recorded, or by an exception nothing records. */
  datatype Outcome = Clean | Reported | Crashed

  datatype Sender =
    | Looping
    | HasFlags(done: bool)                // has read the generator's flag, not yet the queue
    | Working
    | Holding(sequence: int, wire: Event) // has read the oldest row
    | Accepted(sequence: int)             // the gateway has answered for it
    | Removed                             // the row is deleted, the delivery not yet counted
    | Exited(outcome: Outcome)

  /**
   * `stored`, `sent`, `log` and `refused` are for reasoning only: `log` is what the gateway
   * has of the device, `refused` that it received an event its log neither had nor took in.
   */
  datatype State = State(
    rows: Queue, generated: nat, delivered: nat, done: bool, error: bool,
    generator: Generator, sender: Sender,
    stored: nat, sent: set<Event>, log: seq<Event>, refused: bool)

  datatype Step =
    | Make | CountMade | Inspect | StoreLast | GeneratorFails | SetDone
    | ReadFlags | CountQueue | Stall | Peek | Post | Answer | LoseTouch | SenderFails | SenderDies | Delete | CountDelivery
    | GatewayReceives(event: Event)

  /** The worker's task: how many events, in which batches, and the row it makes of each. */
  datatype Job = Job(target: nat, batchSize: int, rows: nat -> QueueRow)

  function Row(job: Job, k: nat): QueueRow { job.rows(k) }

  function Own(job: Job, k: nat): Event { Row(job, k).wire }

  /** The events of this run: a new chain from sequence 1, whatever the gateway has already. */
  ghost predicate NewChain(job: Job) {
    forall k: nat :: k >= 1 ==> Continues(job, k)
  }

  predicate Continues(job: Job, k: nat) {
    k >= 1 && Own(job, k).sequence == k && Own(job, k).previous == if k == 1 then ZERO_HASH else Own(job, k - 1).hash
  }

  function OwnBatch(job: Job, low: nat, high: nat): (r: Batch)
    requires low <= high
    ensures |r| == high - low && forall i: nat :: i < |r| ==> r[i] == (low + 1 + i, Row(job, low + 1 + i))
  {
    seq(high - low, i requires i >= 0 => (low + 1 + i, Row(job, low + 1 + i)))
  }

  function AfterStore(x: State, batch: Batch, next: Generator): State {
    x.(rows := WithBatch(x.rows, batch), stored := x.stored + |batch|, generator := next)
  }

  /** The end of a batch: stored, or the generator's error when a sequence is in the queue already. */
  ghost function Stored(x: State, batch: Batch, next: Generator): State {
    if KeyConflict(x.rows.Keys, Sequences(batch)) then x.(error := true, generator := Closing) else AfterStore(x, batch, next)
  }

  predicate OfGenerator(step: Step) {
    step.Make? || step.CountMade? || step.Inspect? || step.StoreLast? || step.GeneratorFails? || step.SetDone?
  }

  ghost predicate GeneratorNext(job: Job, x: State, step: Step, y: State) {
    match step
    case Make =>
      && x.generator.Making? && x.generator.made < job.target
      && y == x.(generator := Uncounted(x.generator.made + 1, x.generator.batch + [(x.generator.made + 1, Row(job, x.generator.made + 1))]))
    case CountMade =>
      && x.generator.Uncounted?
      && y == x.(generated := x.generated + 1, generator := Counted(x.generator.made, x.generator.batch))
    case Inspect =>
      && x.generator.Counted?
      && y == (if |x.generator.batch| < job.batchSize then x.(generator := Making(x.generator.made, x.generator.batch))
               else Stored(x, x.generator.batch, Making(x.generator.made, [])))
    case StoreLast =>
      && x.generator.Making? && x.generator.made == job.target
      && y == Stored(x, x.generator.batch, Closing)
    case GeneratorFails =>
      !x.generator.Closing? && !x.generator.Finished? && y == x.(error := true, generator := Closing)
    case SetDone => x.generator.Closing? && y == x.(done := true, generator := Finished)
    case _ => false
  }

  ghost predicate SenderNext(x: State, step: Step, y: State) {
    match step
    case ReadFlags => x.sender.Looping? && y == x.(sender := if x.error then Exited(Reported) else HasFlags(x.done))
    case CountQueue =>
      x.sender.HasFlags? && y == x.(sender := if x.sender.done && |x.rows| == 0 then Exited(Clean) else Working)
    case SenderDies => (x.sender.Looping? || x.sender.HasFlags?) && y == x.(sender := Exited(Crashed))
    case Stall => x.sender.Working? && y == x.(error := true, sender := Exited(Reported))
    case Peek =>
      x.sender.Working? &&
      ((x.rows == map[] && y == x.(sender := Looping))
       || exists k :: IsOldest(x.rows, k) && y == x.(sender := Holding(k, x.rows[k].wire)))
    case Post => x.sender.Holding? && y == x.(sent := x.sent + {x.sender.wire})
    case Answer => x.sender.Holding? && x.sender.wire in x.sent && x.sender.wire in x.log && y == x.(sender := Accepted(x.sender.sequence))
    case LoseTouch => (x.sender.Working? || x.sender.Holding?) && y == x.(sender := Looping)
    case SenderFails =>
      (x.sender.Working? || x.sender.Holding? || x.sender.Accepted?) && y == x.(error := true, sender := Exited(Reported))
    case Delete => x.sender.Accepted? && y == x.(rows := x.rows - {x.sender.sequence}, sender := Removed)
    case CountDelivery => x.sender.Removed? && y == x.(delivered := x.delivered + 1, sender := Looping)
    case GatewayReceives(e) => e in x.sent && y == x.(log := Received(x.log, e), refused := x.refused || e !in Received(x.log, e))
    case _ => false
  }

  /**
   * A step of either thread, or of the gateway. Whatever the gateway answers with an HTTP
   * error, for the log's sake or another, makes the sender lose touch.
   */
  ghost predicate Next(job: Job, x: State, step: Step, y: State) {
    if OfGenerator(step) then GeneratorNext(job, x, step, y) else SenderNext(x, step, y)
  }

  // ---------------------------------------------------------------------------
  // What is in the queue
  // ---------------------------------------------------------------------------

  /** Rows deleted so far, counted as delivered or about to be. */
  function Deleted(x: State): nat { x.delivered + if x.sender.Removed? then 1 else 0 }

  ghost predicate GeneratorOk(job: Job, x: State) {
    match x.generator
    case Making(made, batch) => x.stored <= made <= job.target && x.generated == made && batch == OwnBatch(job, x.stored, made)
    case Uncounted(made, batch) => x.stored < made <= job.target && x.generated == made - 1 && batch == OwnBatch(job, x.stored, made)
    case Counted(made, batch) => x.stored < made <= job.target && x.generated == made && batch == OwnBatch(job, x.stored, made)
    case _ => x.error || (x.stored == job.target && x.generated == job.target)
  }

  predicate SenderOk(x: State) {
    match x.sender
    case HasFlags(done) => done ==> x.done && !x.error
    case Holding(k, w) => k in x.rows && x.rows[k].wire == w
    case Accepted(k) => k in x.rows && x.rows[k].wire in x.log
    case Exited(outcome) => (outcome == Clean ==> x.done && !x.error && x.rows == map[]) && (outcome == Reported ==> x.error)
    case _ => true
  }

  /** Every row stored or found at the start is in the queue or has been deleted. */
  ghost predicate Balanced(job: Job, leftover: nat, x: State) {
    && |x.rows| + Deleted(x) == leftover + x.stored && x.stored <= job.target
    && (x.done <==> x.generator.Finished?)
    && GeneratorOk(job, x) && SenderOk(x)
  }

  ghost function Interval(low: nat, high: nat): (r: set<int>)
    requires low <= high
    ensures forall k :: k in r <==> low < k <= high
    ensures |r| == high - low
    decreases high
  {
    if low == high then {} else Interval(low, high - 1) + {high}
  }

  lemma OwnSequences(job: Job, low: nat, high: nat)
    requires low <= high
    ensures forall k :: k in Sequences(OwnBatch(job, low, high)) <==> low < k <= high
  {
    var batch := OwnBatch(job, low, high);
    forall k | low < k <= high ensures k in Sequences(batch) {
      var i: nat := k - low - 1;
      assert batch[i] == (k, Row(job, k)) && Sequences(batch)[i] == k;
    }
    forall k | k in Sequences(batch) ensures low < k <= high {
      var i: nat :| i < |batch| && Sequences(batch)[i] == k;
      assert batch[i].0 == low + 1 + i;
    }
  }

  predicate HoldsOwn(rows: Queue, job: Job, k: nat) { k in rows && rows[k] == Row(job, k) }

  /** The table holds the rows it held before and the run's events from low + 1 to high, whose sequences were free. */
  ghost predicate HasOwn(rows: Queue, job: Job, low: nat, high: nat, more: Queue) {
    && (forall k :: k in more <==> k in rows || low < k <= high)
    && (forall k :: low < k <= high ==> k !in rows)
    && (forall k: nat {:trigger HoldsOwn(more, job, k)} :: low < k <= high ==> HoldsOwn(more, job, k))
    && (forall k :: k in rows ==> more[k] == rows[k])
  }

  /** Storing part of the run's events adds exactly their sequences. */
  lemma OwnStored(rows: Queue, job: Job, low: nat, high: nat)
    requires low <= high && !KeyConflict(rows.Keys, Sequences(OwnBatch(job, low, high)))
    ensures HasOwn(rows, job, low, high, WithBatch(rows, OwnBatch(job, low, high)))
  {
    hide WithBatch;
    var batch := OwnBatch(job, low, high);
    OwnSequences(job, low, high);
    BatchStored(rows, batch);
    forall k: nat | low < k <= high ensures k !in rows && HoldsOwn(WithBatch(rows, batch), job, k) {
      var i: nat := k - low - 1;
      assert batch[i] == (k, Row(job, k)) && Sequences(batch)[i] == k;
    }
  }

  lemma OwnSize(rows: Queue, job: Job, low: nat, high: nat, more: Queue)
    requires low <= high && HasOwn(rows, job, low, high, more)
    ensures |more| == |rows| + (high - low)
  {
    var interval := Interval(low, high);
    assert more.Keys == rows.Keys + interval && rows.Keys !! interval;
    assert |more.Keys| == |rows.Keys| + |interval|;
  }

  lemma OwnBatchNext(job: Job, low: nat, high: nat)
    requires low <= high
    ensures OwnBatch(job, low, high + 1) == OwnBatch(job, low, high) + [(high + 1, Row(job, high + 1))]
  {
  }

  lemma StoredBalance(job: Job, leftover: nat, x: State, made: nat, next: Generator)
    requires Balanced(job, leftover, x) && x.stored <= made <= job.target && !x.generator.Finished?
    requires !KeyConflict(x.rows.Keys, Sequences(OwnBatch(job, x.stored, made)))
    ensures var y := AfterStore(x, OwnBatch(job, x.stored, made), next);
            |y.rows| + Deleted(y) == leftover + y.stored && y.stored == made && SenderOk(y)
  {
    OwnStored(x.rows, job, x.stored, made);
    OwnSize(x.rows, job, x.stored, made, WithBatch(x.rows, OwnBatch(job, x.stored, made)));
  }

  lemma StoreKeepsBalance(job: Job, leftover: nat, x: State, batch: Batch, made: nat, next: Generator)
    requires Balanced(job, leftover, x) && x.stored <= made <= job.target && batch == OwnBatch(job, x.stored, made) && x.generated == made
    requires !x.generator.Finished? && (next == Making(made, []) || (next == Closing && made == job.target))
    ensures Balanced(job, leftover, Stored(x, batch, next))
  {
    if !KeyConflict(x.rows.Keys, Sequences(batch)) {
      StoredBalance(job, leftover, x, made, next);
    }
  }

  lemma MakeKeepsBalance(job: Job, leftover: nat, x: State, y: State)
    requires Balanced(job, leftover, x) && GeneratorNext(job, x, Make, y)
    ensures Balanced(job, leftover, y)
  {
    OwnBatchNext(job, x.stored, x.generator.made);
  }

  lemma GeneratorKeepsBalance(job: Job, leftover: nat, x: State, step: Step, y: State)
    requires Balanced(job, leftover, x) && GeneratorNext(job, x, step, y)
    ensures Balanced(job, leftover, y)
  {
    hide Stored, KeyConflict, OwnBatch;
    match step
    case Make => MakeKeepsBalance(job, leftover, x, y);
    case Inspect =>
      if |x.generator.batch| >= job.batchSize {
        StoreKeepsBalance(job, leftover, x, x.generator.batch, x.generator.made, Making(x.generator.made, []));
      }
    case StoreLast => StoreKeepsBalance(job, leftover, x, x.generator.batch, job.target, Closing);
    case _ =>
  }

  lemma GeneratorUntouched(job: Job, x: State, y: State)
    requires GeneratorOk(job, x) && y.generator == x.generator && y.generated == x.generated && y.stored == x.stored
    requires x.error ==> y.error
    ensures GeneratorOk(job, y)
  {
  }

  lemma DeleteKeepsBalance(job: Job, leftover: nat, x: State)
    requires Balanced(job, leftover, x) && x.sender.Accepted?
    ensures Balanced(job, leftover, x.(rows := x.rows - {x.sender.sequence}, sender := Removed))
  {
    var y := x.(rows := x.rows - {x.sender.sequence}, sender := Removed);
    assert y.rows.Keys == x.rows.Keys - {x.sender.sequence};
    assert |y.rows.Keys| == |x.rows.Keys| - 1;
    GeneratorUntouched(job, x, y);
  }

  lemma SenderKeepsBalance(job: Job, leftover: nat, x: State, step: Step, y: State)
    requires Balanced(job, leftover, x) && SenderNext(x, step, y)
    ensures Balanced(job, leftover, y)
  {
    hide GeneratorOk;
    if step.Delete? {
      DeleteKeepsBalance(job, leftover, x);
    } else {
      GeneratorUntouched(job, x, y);
    }
  }

  lemma NextKeepsBalance(job: Job, leftover: nat, x: State, step: Step, y: State)
    requires Balanced(job, leftover, x) && Next(job, x, step, y)
    ensures Balanced(job, leftover, y)
  {
    if OfGenerator(step) {
      GeneratorKeepsBalance(job, leftover, x, step, y);
    } else {
      SenderKeepsBalance(job, leftover, x, step, y);
    }
  }

  // ---------------------------------------------------------------------------
  // Whole runs
  // ---------------------------------------------------------------------------

  /** A run starts with whatever an earlier run left in the queue and at the gateway. */
  predicate Start(x: State) {
    && x.generated == x.delivered == x.stored == 0 && !x.done && !x.error && !x.refused
    && x.generator == Making(0, []) && x.sender == Looping && x.sent == {}
    && Chained(x.log)
  }

  ghost predicate Run(job: Job, states: seq<State>, steps: seq<Step>) {
    && |states| == |steps| + 1 && Start(states[0]) && NewChain(job)
    && forall i :: 0 <= i < |steps| ==> Next(job, states[i], steps[i], states[i + 1])
  }

  lemma {:induction false} RunKeepsBalance(job: Job, states: seq<State>, steps: seq<Step>, i: nat)
    requires Run(job, states, steps) && i < |states|
    ensures Balanced(job, |states[0].rows|, states[i])
  {
    if i > 0 {
      RunKeepsBalance(job, states, steps, i - 1);
      assert Next(job, states[i - 1], steps[i - 1], states[i - 1 + 1]);
      NextKeepsBalance(job, |states[0].rows|, states[i - 1], steps[i - 1], states[i]);
    }
  }

  /**
   * A sender that exits cleanly has left nothing behind: every event was generated and
   * stored, the queue is empty, and the deliveries are the target plus what the queue
   * held at the start.
   */
  lemma CleanExitIsComplete(job: Job, states: seq<State>, steps: seq<Step>, i: nat)
    requires Run(job, states, steps) && i < |states| && states[i].sender == Exited(Clean)
    ensures !states[i].error && states[i].done && states[i].rows == map[]
    ensures states[i].generated == job.target
    ensures states[i].delivered == job.target + |states[0].rows|
  {
    RunKeepsBalance(job, states, steps, i);
  }

  /** What the worker checks when both threads have ended. */
  predicate CheckPasses(job: Job, x: State) { !x.error && x.generated == job.target && x.delivered == job.target }

  /**
   * The final check accepts exactly the runs without an error that leave as many rows in
   * the queue as they found: after a clean exit those that found none.
   */
  lemma FinalCheckIff(job: Job, states: seq<State>, steps: seq<Step>, i: nat)
    requires Run(job, states, steps) && i < |states|
    requires states[i].sender.Exited? && states[i].generator.Finished?
    ensures CheckPasses(job, states[i]) <==> !states[i].error && |states[i].rows| == |states[0].rows|
    ensures states[i].sender == Exited(Clean) ==> (CheckPasses(job, states[i]) <==> states[0].rows == map[])
  {
    RunKeepsBalance(job, states, steps, i);
  }

  // ---------------------------------------------------------------------------
  // A restart
  // ---------------------------------------------------------------------------

  /** A row found at the start, or one of this run. */
  ghost predicate FromHere(job: Job, found: Queue, stored: nat, e: Event) {
    || (exists k :: k in found && found[k].wire == e)
    || (exists k: nat :: 1 <= k <= stored && Own(job, k) == e)
  }

  /** The row is still in the queue, or its event is at the gateway. */
  predicate Kept(x: State, k: int, row: QueueRow) { (k in x.rows && x.rows[k] == row) || row.wire in x.log }

  predicate OwnKept(job: Job, x: State, k: nat) { Kept(x, k, Row(job, k)) }

  /** What was stored or found is in the queue or at the gateway, and the gateway got nothing from elsewhere. */
  ghost predicate Accounted(job: Job, found: Queue, log: seq<Event>, x: State) {
    && Chained(x.log) && log <= x.log
    && (forall k :: k in found ==> Kept(x, k, found[k]))
    && (forall k: nat {:trigger OwnKept(job, x, k)} :: 1 <= k <= x.stored ==> OwnKept(job, x, k))
    && (forall k :: k in x.rows ==> FromHere(job, found, x.stored, x.rows[k].wire))
    && (forall e :: e in x.sent ==> FromHere(job, found, x.stored, e))
    && (forall i :: |log| <= i < |x.log| ==> FromHere(job, found, x.stored, x.log[i]))
  }

  lemma FromHereLater(job: Job, found: Queue, stored: nat, later: nat, e: Event)
    requires FromHere(job, found, stored, e) && stored <= later
    ensures FromHere(job, found, later, e)
  {
  }

  lemma StoreKeepsRows(job: Job, found: Queue, log: seq<Event>, x: State, made: nat, y: State)
    requires Accounted(job, found, log, x) && x.stored <= made == y.stored && y.log == x.log && y.sent == x.sent
    requires HasOwn(x.rows, job, x.stored, made, y.rows)
    ensures forall k :: k in found ==> Kept(y, k, found[k])
    ensures forall k: nat {:trigger OwnKept(job, y, k)} :: 1 <= k <= y.stored ==> OwnKept(job, y, k)
  {
    forall k | k in found ensures Kept(y, k, found[k]) {
      assert Kept(x, k, found[k]);
    }
    forall k: nat | 1 <= k <= y.stored ensures OwnKept(job, y, k) {
      if k <= x.stored {
        assert OwnKept(job, x, k);
      } else {
        assert HoldsOwn(y.rows, job, k);
      }
    }
  }

  lemma StoreKeepsOrigin(job: Job, found: Queue, log: seq<Event>, x: State, made: nat, y: State)
    requires Accounted(job, found, log, x) && x.stored <= made == y.stored && y.log == x.log && y.sent == x.sent
    requires HasOwn(x.rows, job, x.stored, made, y.rows)
    ensures forall k :: k in y.rows ==> FromHere(job, found, y.stored, y.rows[k].wire)
    ensures forall e :: e in y.sent ==> FromHere(job, found, y.stored, e)
    ensures forall i :: |log| <= i < |y.log| ==> FromHere(job, found, y.stored, y.log[i])
  {
    forall k | k in y.rows ensures FromHere(job, found, y.stored, y.rows[k].wire) {
      if k in x.rows {
        FromHereLater(job, found, x.stored, made, x.rows[k].wire);
      } else {
        var j: nat := k;
        assert HoldsOwn(y.rows, job, j);
        assert y.rows[k].wire == Own(job, j);
      }
    }
    forall e | e in y.sent ensures FromHere(job, found, y.stored, e) {
      FromHereLater(job, found, x.stored, made, e);
    }
    forall i | |log| <= i < |y.log| ensures FromHere(job, found, y.stored, y.log[i]) {
      FromHereLater(job, found, x.stored, made, x.log[i]);
    }
  }

  lemma StoreAccounts(job: Job, found: Queue, log: seq<Event>, x: State, made: nat, next: Generator)
    requires Accounted(job, found, log, x) && x.stored <= made
    requires !KeyConflict(x.rows.Keys, Sequences(OwnBatch(job, x.stored, made)))
    ensures Accounted(job, found, log, AfterStore(x, OwnBatch(job, x.stored, made), next))
  {
    var y := AfterStore(x, OwnBatch(job, x.stored, made), next);
    OwnStored(x.rows, job, x.stored, made);
    StoreKeepsRows(job, found, log, x, made, y);
    StoreKeepsOrigin(job, found, log, x, made, y);
  }

  lemma GeneratorAccounts(job: Job, leftover: nat, found: Queue, log: seq<Event>, x: State, step: Step, y: State)
    requires Balanced(job, leftover, x) && Accounted(job, found, log, x) && GeneratorNext(job, x, step, y)
    ensures Accounted(job, found, log, y)
  {
    if y.rows != x.rows || y.stored != x.stored {
      StoreAccounts(job, found, log, x, x.generator.made, y.generator);
    } else {
      SameAccount(job, found, log, x, y);
    }
  }

  lemma SameAccount(job: Job, found: Queue, log: seq<Event>, x: State, y: State)
    requires Accounted(job, found, log, x)
    requires y.rows == x.rows && y.stored == x.stored && y.log == x.log && y.sent == x.sent
    ensures Accounted(job, found, log, y)
  {
    forall k | k in found ensures Kept(y, k, found[k]) {
      assert Kept(x, k, found[k]);
    }
    forall k: nat | 1 <= k <= y.stored ensures OwnKept(job, y, k) {
      assert OwnKept(job, x, k);
    }
  }

  lemma ReceiptAccounts(job: Job, found: Queue, log: seq<Event>, x: State, e: Event, y: State)
    requires Accounted(job, found, log, x) && e in x.sent && y == x.(log := Received(x.log, e), refused := y.refused)
    ensures Accounted(job, found, log, y)
  {
    ReceivedChained(x.log, e);
    forall k | k in found ensures Kept(y, k, found[k]) {
      assert Kept(x, k, found[k]);
    }
    forall k: nat | 1 <= k <= y.stored ensures OwnKept(job, y, k) {
      assert OwnKept(job, x, k);
    }
  }

  lemma DeleteAccounts(job: Job, found: Queue, log: seq<Event>, x: State, k: int, next: Sender)
    requires Accounted(job, found, log, x) && k in x.rows && x.rows[k].wire in x.log
    ensures Accounted(job, found, log, x.(rows := x.rows - {k}, sender := next))
  {
    var y := x.(rows := x.rows - {k}, sender := next);
    forall j | j in found ensures Kept(y, j, found[j]) {
      assert Kept(x, j, found[j]);
    }
    forall j: nat | 1 <= j <= y.stored ensures OwnKept(job, y, j) {
      assert OwnKept(job, x, j);
    }
  }

  lemma PostAccounts(job: Job, found: Queue, log: seq<Event>, x: State, k: int)
    requires Accounted(job, found, log, x) && k in x.rows
    ensures Accounted(job, found, log, x.(sent := x.sent + {x.rows[k].wire}))
  {
    var y := x.(sent := x.sent + {x.rows[k].wire});
    forall j | j in found ensures Kept(y, j, found[j]) {
      assert Kept(x, j, found[j]);
    }
    forall j: nat | 1 <= j <= y.stored ensures OwnKept(job, y, j) {
      assert OwnKept(job, x, j);
    }
  }

  lemma SenderAccounts(job: Job, found: Queue, log: seq<Event>, x: State, step: Step, y: State)
    requires SenderOk(x) && Accounted(job, found, log, x) && SenderNext(x, step, y)
    ensures Accounted(job, found, log, y)
  {
    match step
    case GatewayReceives(e) => ReceiptAccounts(job, found, log, x, e, y);
    case Delete => DeleteAccounts(job, found, log, x, x.sender.sequence, Removed);
    case Post => PostAccounts(job, found, log, x, x.sender.sequence);
    case _ => SameAccount(job, found, log, x, y);
  }

  lemma StartAccounted(job: Job, x: State)
    requires Start(x)
    ensures Accounted(job, x.rows, x.log, x)
  {
  }

  lemma {:induction false} RunAccounts(job: Job, states: seq<State>, steps: seq<Step>, i: nat)
    requires Run(job, states, steps) && i < |states|
    ensures Accounted(job, states[0].rows, states[0].log, states[i])
  {
    if i == 0 {
      StartAccounted(job, states[0]);
    } else {
      RunAccounts(job, states, steps, i - 1);
      RunKeepsBalance(job, states, steps, i - 1);
      assert Next(job, states[i - 1], steps[i - 1], states[i - 1 + 1]);
      if OfGenerator(steps[i - 1]) {
        GeneratorAccounts(job, |states[0].rows|, states[0].rows, states[0].log, states[i - 1], steps[i - 1], states[i]);
      } else {
        SenderAccounts(job, states[0].rows, states[0].log, states[i - 1], steps[i - 1], states[i]);
      }
    }
  }

  /** Event k of this run is at its place in the log. */
  predicate AtPlace(job: Job, log: seq<Event>, k: nat) { 1 <= k <= |log| && log[k - 1] == Own(job, k) }

  ghost predicate BeginsWith(job: Job, log: seq<Event>, n: nat) {
    forall k: nat {:trigger AtPlace(job, log, k)} :: 1 <= k <= n ==> AtPlace(job, log, k)
  }

  lemma OwnInLog(job: Job, log: seq<Event>, k: nat)
    requires NewChain(job) && k >= 1 && Chained(log) && Own(job, k) in log
    ensures AtPlace(job, log, k)
  {
    assert Continues(job, k);
    PlaceInLog(log, Own(job, k));
  }

  lemma DeliveredAll(job: Job, found: Queue, log: seq<Event>, x: State)
    requires NewChain(job) && Accounted(job, found, log, x) && x.rows == map[]
    ensures BeginsWith(job, x.log, x.stored)
    ensures forall k :: k in found ==> found[k].wire in x.log
  {
    forall k: nat | 1 <= k <= x.stored ensures AtPlace(job, x.log, k) {
      assert OwnKept(job, x, k);
      OwnInLog(job, x.log, k);
    }
    forall k | k in found ensures found[k].wire in x.log {
      assert Kept(x, k, found[k]);
    }
  }

  /** After a clean exit the gateway's log begins with this run's events, and everything found is in it too. */
  lemma CleanExitDelivers(job: Job, states: seq<State>, steps: seq<Step>, i: nat)
    requires Run(job, states, steps) && i < |states| && states[i].sender == Exited(Clean)
    ensures BeginsWith(job, states[i].log, job.target)
    ensures states[0].log <= states[i].log && forall k :: k in states[0].rows ==> states[0].rows[k].wire in states[i].log
  {
    RunKeepsBalance(job, states, steps, i);
    RunAccounts(job, states, steps, i);
    DeliveredAll(job, states[0].rows, states[0].log, states[i]);
  }

  /**
   * What an earlier run left is none of this run's events and does not continue them, as
   * new times, and so new hashes, see to.
   */
  ghost predicate Unrelated(job: Job, x: State) {
    && (x.log != [] ==> x.log[0] != Own(job, 1))
    && (forall k, j: nat {:trigger x.rows[k], Own(job, j)} :: k in x.rows && 1 <= j <= job.target ==>
          x.rows[k].wire != Own(job, j) && x.rows[k].wire.previous != Own(job, j).hash)
  }

  /** The event after this run's events in the gateway's log continues them, and was found at the start. */
  lemma SurplusContinues(job: Job, found: Queue, x: State)
    requires NewChain(job) && Accounted(job, found, [], x) && x.stored == job.target
    requires 1 <= job.target < |x.log| && AtPlace(job, x.log, job.target)
    ensures exists k :: k in found && found[k].wire.previous == Own(job, job.target).hash
  {
    var e := x.log[job.target];
    assert e.sequence == job.target + 1 && e.previous == Head(x.log[..job.target]);
    assert FromHere(job, found, x.stored, e);
    forall k: nat | 1 <= k <= x.stored ensures Own(job, k) != e {
      assert Continues(job, k);
    }
  }

  /** A row found at the start whose event is at the gateway when it begins with this run's events is related to them. */
  lemma FoundIsRelated(job: Job, x: State, y: State, k: int)
    requires NewChain(job) && Accounted(job, x.rows, [], y) && y.stored == job.target >= 1 && BeginsWith(job, y.log, job.target)
    requires k in x.rows && x.rows[k].wire in y.log
    ensures !Unrelated(job, x)
  {
    var e := x.rows[k].wire;
    PlaceInLog(y.log, e);
    var j: nat := e.sequence;
    if j <= job.target {
      assert AtPlace(job, y.log, j);
    } else {
      assert AtPlace(job, y.log, job.target);
      SurplusContinues(job, x.rows, y);
      var m :| m in x.rows && x.rows[m].wire.previous == Own(job, job.target).hash;
    }
  }

  lemma CleanEndIsFresh(job: Job, x: State, y: State)
    requires NewChain(job) && job.target >= 1 && Unrelated(job, x)
    requires Accounted(job, x.rows, x.log, y) && y.rows == map[] && y.stored == job.target
    ensures x.rows == map[] && x.log == []
  {
    DeliveredAll(job, x.rows, x.log, y);
    assert AtPlace(job, y.log, 1);
    assert x.log == y.log[..|x.log|];
    assert x.log == [];
    forall k | k in x.rows ensures false {
      FoundIsRelated(job, x, y, k);
    }
  }

  /**
   * A restarted worker with events of its own to deliver exits cleanly only if there was
   * nothing left over, neither in the queue nor at the gateway, unless its events are
   * those of the earlier run.
   */
  lemma RestartNeedsFreshStart(job: Job, states: seq<State>, steps: seq<Step>, i: nat)
    requires Run(job, states, steps) && i < |states| && states[i].sender == Exited(Clean)
    requires job.target >= 1 && Unrelated(job, states[0])
    ensures states[0].rows == map[] && states[0].log == []
  {
    RunKeepsBalance(job, states, steps, i);
    RunAccounts(job, states, steps, i);
    CleanEndIsFresh(job, states[0], states[i]);
  }

  /** The states of a run that only delivers the one row it finds. */
  function Leftover(row: QueueRow): State {
    State(map[1 := row], 0, 0, false, false, Making(0, []), Looping, 0, {}, [], false)
  }

  lemma RunAppend(job: Job, states: seq<State>, steps: seq<Step>, step: Step, y: State)
    requires Run(job, states, steps) && Next(job, states[|steps|], step, y)
    ensures Run(job, states + [y], steps + [step])
  {
    var more, longer := states + [y], steps + [step];
    forall i | 0 <= i < |longer| ensures Next(job, more[i], longer[i], more[i + 1]) {
      if i < |steps| {
        assert Next(job, states[i], steps[i], states[i + 1]);
      }
    }
  }

  lemma LeftoverIsSeen(job: Job, row: QueueRow) returns (states: seq<State>, steps: seq<Step>)
    requires job.target == 0 && NewChain(job)
    ensures Run(job, states, steps) && states[0] == Leftover(row)
    ensures states[|steps|] == Leftover(row).(done := true, generator := Finished, sender := Working)
  {
    var x := Leftover(row);
    assert !KeyConflict(x.rows.Keys, Sequences([]));
    states, steps := [x], [];
    RunAppend(job, states, steps, StoreLast, x.(generator := Closing));
    states, steps := states + [x.(generator := Closing)], steps + [StoreLast];
    x := x.(done := true, generator := Finished);
    RunAppend(job, states, steps, SetDone, x);
    states, steps := states + [x], steps + [SetDone];
    RunAppend(job, states, steps, ReadFlags, x.(sender := HasFlags(true)));
    states, steps := states + [x.(sender := HasFlags(true))], steps + [ReadFlags];
    RunAppend(job, states, steps, CountQueue, x.(sender := Working));
    states, steps := states + [x.(sender := Working)], steps + [CountQueue];
  }

  lemma LeftoverIsSent(job: Job, row: QueueRow) returns (states: seq<State>, steps: seq<Step>)
    requires job.target == 0 && NewChain(job)
    ensures Run(job, states, steps) && states[0] == Leftover(row)
    ensures states[|steps|] == Leftover(row).(done := true, generator := Finished, sender := Holding(1, row.wire), sent := {row.wire})
  {
    states, steps := LeftoverIsSeen(job, row);
    var x := states[|steps|].(sender := Holding(1, row.wire));
    assert IsOldest(x.rows, 1);
    RunAppend(job, states, steps, Peek, x);
    states, steps := states + [x], steps + [Peek];
    RunAppend(job, states, steps, Post, x.(sent := {row.wire}));
    states, steps := states + [x.(sent := {row.wire})], steps + [Post];
  }

  lemma LeftoverIsTaken(job: Job, row: QueueRow) returns (states: seq<State>, steps: seq<Step>)
    requires job.target == 0 && NewChain(job) && row.wire.sequence == 1 && row.wire.previous == ZERO_HASH
    ensures Run(job, states, steps) && states[0] == Leftover(row)
    ensures states[|steps|] == Leftover(row).(done := true, generator := Finished, sender := Accepted(1), sent := {row.wire}, log := [row.wire])
  {
    states, steps := LeftoverIsSent(job, row);
    var x := states[|steps|].(log := [row.wire]);
    RunAppend(job, states, steps, GatewayReceives(row.wire), x);
    states, steps := states + [x], steps + [GatewayReceives(row.wire)];
    RunAppend(job, states, steps, Answer, x.(sender := Accepted(1)));
    states, steps := states + [x.(sender := Accepted(1))], steps + [Answer];
  }

  /**
   * A worker asked for no events, which finds the first event of its device in the queue,
   * delivers it, exits cleanly, and fails its final check.
   */
  lemma LeftoverFailsCheck(job: Job, row: QueueRow) returns (states: seq<State>, steps: seq<Step>, x: State)
    requires job.target == 0 && NewChain(job) && row.wire.sequence == 1 && row.wire.previous == ZERO_HASH
    ensures Run(job, states, steps) && states[0] == Leftover(row) && states[|steps|] == x
    ensures x == State(map[], 0, 1, true, false, Finished, Exited(Clean), 0, {row.wire}, [row.wire], false)
    ensures !CheckPasses(job, x)
  {
    states, steps := LeftoverIsTaken(job, row);
    x := State(map[], 0, 0, true, false, Finished, Removed, 0, {row.wire}, [row.wire], false);
    assert Leftover(row).rows - {1} == map[];
    RunAppend(job, states, steps, Delete, x);
    states, steps := states + [x], steps + [Delete];
    x := x.(delivered := 1, sender := Looping);
    RunAppend(job, states, steps, CountDelivery, x);
    states, steps := states + [x], steps + [CountDelivery];
    x := x.(sender := HasFlags(true));
    RunAppend(job, states, steps, ReadFlags, x);
    states, steps := states + [x], steps + [ReadFlags];
    x := x.(sender := Exited(Clean));
    RunAppend(job, states, steps, CountQueue, x);
    states, steps := states + [x], steps + [CountQueue];
  }

  // ---------------------------------------------------------------------------
  // A fresh start: the gateway sees the events in order
  // ---------------------------------------------------------------------------

  /** Two different events of the run have the same hash. */
  ghost predicate OwnHashesClash(job: Job) {
    exists j: nat, k: nat :: 1 <= j < k <= job.target && Own(job, j).hash == Own(job, k).hash
  }

  /** Event e is one of the first n of the run. */
  predicate AmongFirst(job: Job, e: Event, n: int) { 1 <= e.sequence <= n && e == Own(job, e.sequence) }

  predicate IsOwnLog(job: Job, log: seq<Event>) { forall i: nat {:trigger log[i]} | i < |log| :: log[i] == Own(job, i + 1) }

  /** The queue holds the stored events that are not yet deleted, and the gateway is at most one event ahead of the deletions. */
  ghost predicate InOrder(job: Job, x: State) {
    && Deleted(x) <= x.stored <= job.target
    && (forall k :: k in x.rows <==> Deleted(x) < k <= x.stored)
    && (forall k :: k in x.rows ==> k >= 1 && HoldsOwn(x.rows, job, k))
    && Deleted(x) <= |x.log| <= Deleted(x) + 1 && |x.log| <= x.stored
    && IsOwnLog(job, x.log)
    && (forall e :: e in x.sent ==> AmongFirst(job, e, Deleted(x) + 1) && e.sequence <= x.stored)
    && !x.refused
    && (match x.sender
        case Holding(k, w) => k == Deleted(x) + 1 && w == Own(job, Deleted(x) + 1)
        case Accepted(k) => k == Deleted(x) + 1 == |x.log|
        case _ => true)
  }

  lemma StoreKeepsOrder(job: Job, x: State, made: nat, next: Generator)
    requires InOrder(job, x) && x.stored <= made <= job.target
    requires !KeyConflict(x.rows.Keys, Sequences(OwnBatch(job, x.stored, made)))
    ensures InOrder(job, AfterStore(x, OwnBatch(job, x.stored, made), next))
  {
    hide KeyConflict, WithBatch;
    OwnStored(x.rows, job, x.stored, made);
  }

  lemma GeneratingKeepsOrder(job: Job, x: State, y: State)
    requires InOrder(job, x) && y.sender == x.sender && y.delivered == x.delivered
    requires y.rows == x.rows && y.stored == x.stored && y.log == x.log && y.sent == x.sent && y.refused == x.refused
    ensures InOrder(job, y)
  {
  }

  lemma GeneratorKeepsOrder(job: Job, leftover: nat, x: State, step: Step, y: State)
    requires Balanced(job, leftover, x) && InOrder(job, x) && GeneratorNext(job, x, step, y)
    ensures InOrder(job, y)
  {
    hide InOrder;
    if y.rows != x.rows || y.stored != x.stored {
      StoreKeepsOrder(job, x, x.generator.made, y.generator);
    } else {
      GeneratingKeepsOrder(job, x, y);
    }
  }

  lemma PeekKeepsOrder(job: Job, x: State, k: int)
    requires NewChain(job) && InOrder(job, x) && x.sender.Working? && IsOldest(x.rows, k)
    ensures InOrder(job, x.(sender := Holding(k, x.rows[k].wire)))
  {
    assert Deleted(x) + 1 in x.rows;
  }

  lemma PostKeepsOrder(job: Job, x: State)
    requires NewChain(job) && InOrder(job, x) && x.sender.Holding? && x.sender.sequence in x.rows
    ensures InOrder(job, x.(sent := x.sent + {x.sender.wire}))
  {
    assert Continues(job, Deleted(x) + 1);
  }

  lemma AnswerKeepsOrder(job: Job, x: State)
    requires NewChain(job) && InOrder(job, x) && x.sender.Holding? && x.sender.wire in x.log
    ensures InOrder(job, x.(sender := Accepted(x.sender.sequence)))
  {
    var i: nat :| i < |x.log| && x.log[i] == x.sender.wire;
    assert Continues(job, i + 1) && Continues(job, Deleted(x) + 1);
  }

  /** What is sent is at the gateway already or is exactly what it expects. */
  lemma ReceiptKeepsOrder(job: Job, x: State, e: Event)
    requires NewChain(job) && !OwnHashesClash(job) && InOrder(job, x) && e in x.sent
    ensures InOrder(job, x.(log := Received(x.log, e))) && e in Received(x.log, e)
  {
    var k: nat := e.sequence;
    assert Continues(job, k);
    if k <= |x.log| {
      assert x.log[k - 1] == Own(job, k - 1 + 1);
    } else {
      forall i: nat | i < |x.log| ensures x.log[i].hash != e.hash {
        assert x.log[i] == Own(job, i + 1);
      }
      if k > 1 {
        assert x.log[k - 2] == Own(job, k - 2 + 1);
      }
    }
  }

  lemma DeleteKeepsOrder(job: Job, x: State)
    requires InOrder(job, x) && x.sender.Accepted?
    ensures InOrder(job, x.(rows := x.rows - {x.sender.sequence}, sender := Removed))
  {
  }

  /** The sender holds nothing any more, or has not begun; queue and gateway are as they were. */
  lemma QuietKeepsOrder(job: Job, x: State, y: State)
    requires InOrder(job, x) && !y.sender.Holding? && !y.sender.Accepted? && Deleted(y) == Deleted(x)
    requires y.rows == x.rows && y.stored == x.stored && y.log == x.log && y.sent == x.sent && y.refused == x.refused
    ensures InOrder(job, y)
  {
  }

  lemma SenderKeepsOrder(job: Job, x: State, step: Step, y: State)
    requires NewChain(job) && !OwnHashesClash(job) && SenderOk(x) && InOrder(job, x) && SenderNext(x, step, y)
    ensures InOrder(job, y)
  {
    hide InOrder, NewChain, OwnHashesClash;
    match step
    case Peek =>
      if x.rows != map[] {
        var k :| IsOldest(x.rows, k) && y == x.(sender := Holding(k, x.rows[k].wire));
        PeekKeepsOrder(job, x, k);
      } else {
        QuietKeepsOrder(job, x, y);
      }
    case Post => PostKeepsOrder(job, x);
    case Answer => AnswerKeepsOrder(job, x);
    case GatewayReceives(e) =>
      ReceiptKeepsOrder(job, x, e);
      NeverRefused(job, x);
    case Delete => DeleteKeepsOrder(job, x);
    case _ => QuietKeepsOrder(job, x, y);
  }

  lemma NeverRefused(job: Job, x: State)
    requires InOrder(job, x)
    ensures !x.refused
  {
  }

  lemma NextKeepsOrder(job: Job, leftover: nat, x: State, step: Step, y: State)
    requires NewChain(job) && !OwnHashesClash(job)
    requires Balanced(job, leftover, x) && InOrder(job, x) && Next(job, x, step, y)
    ensures InOrder(job, y)
  {
    if OfGenerator(step) {
      GeneratorKeepsOrder(job, leftover, x, step, y);
    } else {
      SenderKeepsOrder(job, x, step, y);
    }
  }

  lemma {:induction false} RunKeepsOrder(job: Job, states: seq<State>, steps: seq<Step>, i: nat)
    requires Run(job, states, steps) && !OwnHashesClash(job) && i < |states|
    requires states[0].rows == map[] && states[0].log == []
    ensures InOrder(job, states[i])
  {
    if i > 0 {
      RunKeepsOrder(job, states, steps, i - 1);
      RunKeepsBalance(job, states, steps, i - 1);
      assert Next(job, states[i - 1], steps[i - 1], states[i - 1 + 1]);
      NextKeepsOrder(job, 0, states[i - 1], steps[i - 1], states[i]);
    }
  }

  /**
   * From a fresh start every event that reaches the gateway is in its log of the device or
   * is the next one there, and at a clean exit the log is exactly the run's events in
   * order, unless two of them have the same hash.
   */
  lemma FreshRunDeliversInOrder(job: Job, states: seq<State>, steps: seq<Step>, i: nat)
    requires Run(job, states, steps) && i < |states|
    requires states[0].rows == map[] && states[0].log == []
    ensures OwnHashesClash(job)
         || (!states[i].refused && states[i].delivered <= |states[i].log| <= job.target && IsOwnLog(job, states[i].log))
    ensures OwnHashesClash(job) || (states[i].sender == Exited(Clean) ==> |states[i].log| == job.target)
  {
    if !OwnHashesClash(job) {
      RunKeepsOrder(job, states, steps, i);
      RunKeepsBalance(job, states, steps, i);
    }
  }
}
