/** A worker with a fresh start, whose gateway answers, can always finish: the guarantees of a clean exit are not empty promises. */
module Completion {
  import opened Primitives
  import opened Worker

  const FRESH: State := State(map[], 0, 0, false, false, Making(0, []), Looping, 0, {}, [], false)

  /** A run from a fresh start ends in this state. */
  ghost predicate Reaches(job: Job, x: State) {
    exists states, steps :: Run(job, states, steps) && states[0] == FRESH && states[|steps|] == x
  }

  lemma ReachesStart(job: Job)
    requires NewChain(job)
    ensures Reaches(job, FRESH)
  {
    var states, steps: seq<Step> := [FRESH], [];
    assert Run(job, states, steps) && states[|steps|] == FRESH;
  }

  lemma ReachesNext(job: Job, x: State, step: Step, y: State)
    requires Reaches(job, x) && Next(job, x, step, y)
    ensures Reaches(job, y)
  {
    hide Next;
    var states, steps :| Run(job, states, steps) && states[0] == FRESH && states[|steps|] == x;
    RunAppend(job, states, steps, step, y);
    assert (states + [y])[|steps + [step]|] == y;
  }

  // ---------------------------------------------------------------------------
  // Generating
  // ---------------------------------------------------------------------------

  /** The queue with the run's events from low + 1 to high. */
  function OwnRows(job: Job, low: nat, high: nat): Queue { map k: int | low < k <= high :: Row(job, k) }

  /** The first n events are made, the first `stored` of them stored. */
  function Generating(job: Job, stored: nat, n: nat): State
    requires stored <= n
  {
    FRESH.(rows := OwnRows(job, 0, stored), generated := n, generator := Making(n, OwnBatch(job, stored, n)), stored := stored)
  }

  lemma BatchFits(job: Job, stored: nat, n: nat)
    requires stored <= n
    ensures !KeyConflict(OwnRows(job, 0, stored).Keys, Sequences(OwnBatch(job, stored, n)))
    ensures WithBatch(OwnRows(job, 0, stored), OwnBatch(job, stored, n)) == OwnRows(job, 0, n)
  {
    hide WithBatch;
    var rows, batch := OwnRows(job, 0, stored), OwnBatch(job, stored, n);
    assert forall i: nat :: i < |batch| ==> Sequences(batch)[i] == stored + 1 + i;
    OwnStored(rows, job, stored, n);
    forall k: int | 0 < k <= n ensures WithBatch(rows, batch)[k] == Row(job, k) {
      assert stored < k ==> HoldsOwn(WithBatch(rows, batch), job, k);
    }
  }

  lemma OneMore(job: Job, stored: nat, n: nat) returns (later: nat)
    requires NewChain(job) && stored <= n < job.target && Reaches(job, Generating(job, stored, n))
    ensures later <= n + 1 && Reaches(job, Generating(job, later, n + 1))
  {
    hide Reaches, WithBatch, KeyConflict, OwnRows, OwnBatch;
    var x, batch := Generating(job, stored, n), OwnBatch(job, stored, n + 1);
    OwnBatchNext(job, stored, n);
    BatchFits(job, stored, n + 1);
    NoBatch(job, n + 1);
    var made := x.(generator := Uncounted(n + 1, batch));
    var counted := made.(generated := n + 1, generator := Counted(n + 1, batch));
    later := if n + 1 - stored < job.batchSize then stored else n + 1;
    ReachesNext(job, x, Make, made);
    ReachesNext(job, made, CountMade, counted);
    ReachesNext(job, counted, Inspect, Generating(job, later, n + 1));
  }

  lemma NoBatch(job: Job, n: nat)
    ensures OwnBatch(job, n, n) == []
  {
  }

  lemma {:induction false} AllMade(job: Job, n: nat) returns (stored: nat)
    requires NewChain(job) && n <= job.target
    ensures stored <= n && Reaches(job, Generating(job, stored, n))
  {
    if n == 0 {
      stored := 0;
      ReachesStart(job);
      assert OwnRows(job, 0, 0) == map[] && OwnBatch(job, 0, 0) == [];
    } else {
      stored := AllMade(job, n - 1);
      stored := OneMore(job, stored, n - 1);
    }
  }

  // ---------------------------------------------------------------------------
  // Delivering
  // ---------------------------------------------------------------------------

  function OwnLog(job: Job, n: nat): (r: seq<Event>)
    ensures |r| == n && forall i :: 0 <= i < n ==> r[i] == Own(job, i + 1)
  {
    seq(n, i requires 0 <= i < n => Own(job, i + 1))
  }

  function Posted(job: Job, n: nat): set<Event> { set e | e in OwnLog(job, n) }

  /** Everything is stored and the first n events are delivered. */
  function Delivering(job: Job, n: nat): State {
    FRESH.(rows := OwnRows(job, n, job.target), generated := job.target, delivered := n, done := true, generator := Finished,
           stored := job.target, sent := Posted(job, n), log := OwnLog(job, n))
  }

  lemma AllStored(job: Job)
    requires NewChain(job)
    ensures Reaches(job, Delivering(job, 0))
  {
    hide Reaches, WithBatch, KeyConflict;
    var stored := AllMade(job, job.target);
    BatchFits(job, stored, job.target);
    var x := Generating(job, stored, job.target);
    var closing := x.(rows := OwnRows(job, 0, job.target), stored := job.target, generator := Closing);
    ReachesNext(job, x, StoreLast, closing);
    ReachesNext(job, closing, SetDone, Delivering(job, 0));
  }

  lemma NextReceived(job: Job, n: nat)
    requires NewChain(job) && !OwnHashesClash(job) && n < job.target
    ensures Received(OwnLog(job, n), Own(job, n + 1)) == OwnLog(job, n + 1)
  {
    var log, e := OwnLog(job, n), Own(job, n + 1);
    assert Continues(job, n + 1);
    forall i | 0 <= i < n ensures log[i].hash != e.hash {
      assert Own(job, i + 1).hash != Own(job, n + 1).hash;
    }
    assert OwnLog(job, n + 1) == log + [e];
  }

  lemma NextIsOldest(job: Job, n: nat)
    requires n < job.target
    ensures IsOldest(OwnRows(job, n, job.target), n + 1) && OwnRows(job, n, job.target)[n + 1].wire == Own(job, n + 1)
    ensures OwnRows(job, n, job.target) - {n + 1} == OwnRows(job, n + 1, job.target)
  {
  }

  /** The sender has read the flags and the oldest row. */
  lemma OldestRead(job: Job, n: nat) returns (x: State)
    requires n < job.target && Reaches(job, Delivering(job, n))
    ensures x == Delivering(job, n).(sender := Holding(n + 1, Own(job, n + 1))) && Reaches(job, x)
  {
    hide Reaches, OwnRows, OwnLog, Own;
    NextIsOldest(job, n);
    var start := Delivering(job, n);
    var flags, working := start.(sender := HasFlags(true)), start.(sender := Working);
    x := start.(sender := Holding(n + 1, Own(job, n + 1)));
    ReachesNext(job, start, ReadFlags, flags);
    ReachesNext(job, flags, CountQueue, working);
    ReachesNext(job, working, Peek, x);
  }

  lemma LongerLog(job: Job, n: nat)
    ensures OwnLog(job, n + 1) == OwnLog(job, n) + [Own(job, n + 1)]
    ensures Posted(job, n + 1) == Posted(job, n) + {Own(job, n + 1)}
  {
    assert OwnLog(job, n + 1) == OwnLog(job, n) + [Own(job, n + 1)];
  }

  /** The gateway has received what the sender posted. */
  lemma NextPosted(job: Job, n: nat) returns (x: State)
    requires NewChain(job) && !OwnHashesClash(job) && n < job.target && Reaches(job, Delivering(job, n))
    ensures x == Delivering(job, n + 1).(rows := OwnRows(job, n, job.target), delivered := n, sender := Holding(n + 1, Own(job, n + 1)))
    ensures Reaches(job, x)
  {
    hide Reaches, OwnRows, OwnLog, Posted, Received, Own, OwnHashesClash, NewChain;
    var holding := OldestRead(job, n);
    NextReceived(job, n);
    LongerLog(job, n);
    var posted := holding.(sent := holding.sent + {Own(job, n + 1)});
    x := posted.(log := OwnLog(job, n + 1));
    ReachesNext(job, holding, Post, posted);
    ReachesNext(job, posted, GatewayReceives(Own(job, n + 1)), x);
  }

  lemma OneDelivered(job: Job, n: nat)
    requires NewChain(job) && !OwnHashesClash(job) && n < job.target && Reaches(job, Delivering(job, n))
    ensures Reaches(job, Delivering(job, n + 1))
  {
    hide Reaches, OwnRows, OwnLog, Posted, Own, OwnHashesClash, NewChain;
    var received := NextPosted(job, n);
    LongerLog(job, n);
    NextIsOldest(job, n);
    var accepted := received.(sender := Accepted(n + 1));
    var removed := accepted.(rows := OwnRows(job, n + 1, job.target), sender := Removed);
    ReachesNext(job, received, Answer, accepted);
    ReachesNext(job, accepted, Delete, removed);
    ReachesNext(job, removed, CountDelivery, Delivering(job, n + 1));
  }

  lemma {:induction false} AllDelivered(job: Job, n: nat)
    requires NewChain(job) && !OwnHashesClash(job) && n <= job.target
    ensures Reaches(job, Delivering(job, n))
  {
    hide Reaches;
    if n == 0 {
      AllStored(job);
    } else {
      AllDelivered(job, n - 1);
      OneDelivered(job, n - 1);
    }
  }

  /**
   * Whatever its target and batch size, a worker with a fresh start and no clash among its own
   * hashes has a run that delivers everything, exits cleanly and passes its final check.
   */
  lemma FreshRunCanFinish(job: Job) returns (states: seq<State>, steps: seq<Step>)
    requires NewChain(job) && !OwnHashesClash(job)
    ensures Run(job, states, steps) && states[0] == FRESH
    ensures var x := states[|steps|];
            x.sender == Exited(Clean) && CheckPasses(job, x) && x.log == OwnLog(job, job.target)
  {
    AllDelivered(job, job.target);
    var x := Delivering(job, job.target);
    assert OwnRows(job, job.target, job.target) == map[];
    ReachesNext(job, x, ReadFlags, x.(sender := HasFlags(true)));
    var last := x.(sender := Exited(Clean));
    ReachesNext(job, x.(sender := HasFlags(true)), CountQueue, last);
    states, steps :| Run(job, states, steps) && states[0] == FRESH && states[|steps|] == last;
  }
}
