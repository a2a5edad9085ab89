/** Events are sealed in the order in which the gateway received them. */
module Arrivals {
  import opened Primitives
  import opened Ordering
  import opened Models
  import opened Store
  import opened Audit
  import opened Invariant
  import opened Proposal
  import opened Growth
  import opened Interleaving
  import opened Columns

  /** Step i of the run stored event e. */
  ghost predicate StoredAt(states: seq<System>, steps: seq<Step>, i: nat, e: Bytes) {
    && i < |steps| && i + 1 < |states| && steps[i].StoreEvent?
    && e !in states[i].tables.events && e in states[i + 1].tables.events
  }

  /** The arrival time of a stored event is the clock reading of the step that stored it, for ever. */
  lemma ArrivalIsReading(s: Suite, states: seq<System>, steps: seq<Step>, i: nat, k: nat, e: Bytes)
    requires Lawful(s) && Run(s, states, steps) && StoredAt(states, steps, i, e) && i < k < |states|
    ensures e in states[k].tables.events && states[k].tables.events[e].receivedAtMs == steps[i].now
  {
    hide SystemInv, Extends;
    assert Next(s, states[i], steps[i], states[i + 1]);
    AdditionIsInsertion(s, states[i], steps[i], e);
    InsertedArrival(s, states[i], steps[i], states[i + 1], e);
    RunExtends(s, states, steps, i + 1, k);
    KeptEvent(states[i + 1].tables, states[k].tables, e);
  }

  lemma InsertedArrival(s: Suite, x: System, step: Step, y: System, e: Bytes)
    requires Next(s, x, step, y) && step.StoreEvent? && e !in x.tables.events && e in y.tables.events
    ensures y.tables.events[e].receivedAtMs == step.now
  {
    InsertedIsReceived(s, x.tables, x.tasks[step.n].event, x.tasks[step.n].payload, step.now);
  }

  lemma KeptEvent(t: Tables, u: Tables, e: Bytes)
    requires Extends(t, u) && e in t.events
    ensures EventKept(t, u, e)
  {
  }

  /** Every stored event was stored by a step of the run. */
  lemma {:induction false} WasStored(s: Suite, states: seq<System>, steps: seq<Step>, k: nat, e: Bytes) returns (i: nat)
    requires Run(s, states, steps) && k < |states| && e in states[k].tables.events
    ensures i < k && StoredAt(states, steps, i, e)
    decreases k
  {
    hide Enabled, TablesAfter, Continuation;
    assert k > 0;
    assert Next(s, states[k - 1], steps[k - 1], states[k - 1 + 1]);
    if e in states[k - 1].tables.events {
      i := WasStored(s, states, steps, k - 1, e);
    } else {
      i := k - 1;
      AdditionIsInsertion(s, states[k - 1], steps[k - 1], e);
    }
  }

  // ---------------------------------------------------------------------------
  // Selection
  // ---------------------------------------------------------------------------

  /** Both are in the list, a at a position before one of b. */
  ghost predicate Before(hashes: seq<Bytes>, a: Bytes, b: Bytes) {
    exists p, q :: 0 <= p < q < |hashes| && hashes[p] == a && hashes[q] == b
  }

  lemma SelectedBefore(t: Tables, limit: nat, a: Bytes, b: Bytes)
    requires a in Pending(t) && b in Selection(t, limit) && ArrivedBefore(t, a, b)
    ensures Before(Selection(t, limit), a, b)
  {
    ArrivalOrderIsStrict(t, a, b);
    SelectionIsOldest(t, limit, a);
    var q :| 0 <= q < |Selection(t, limit)| && Selection(t, limit)[q] == b;
    assert ArrivedBefore(t, b, a) || a in Selection(t, limit);
    var p :| 0 <= p < |Selection(t, limit)| && Selection(t, limit)[p] == a;
    assert ArrivedBefore(t, b, a) || p <= q;
  }

  lemma ArrivalOrderIsStrict(t: Tables, a: Bytes, b: Bytes)
    requires a in t.events && b in t.events && ArrivedBefore(t, a, b)
    ensures a != b && !ArrivedBefore(t, b, a)
  {
    ArrivalOrder();
    var x, y := (t.events[a].receivedAtMs, a), (t.events[b].receivedAtMs, b);
    assert !ArrivalLess(x, x);
    assert ArrivalLess(x, y) && ArrivalLess(y, x) ==> ArrivalLess(x, x);
  }

  /** Of two pending events, the one stored at the smaller reading is selected first, and never left out for the other. */
  lemma EarlierIsSelectedFirst(s: Suite, states: seq<System>, steps: seq<Step>, i: nat, j: nat, k: nat, a: Bytes, b: Bytes, limit: nat)
    requires Lawful(s) && Run(s, states, steps) && StoredAt(states, steps, i, a) && StoredAt(states, steps, j, b)
    requires i < k < |states| && j < k && steps[i].now < steps[j].now
    requires a in Pending(states[k].tables) && b in Selection(states[k].tables, limit)
    ensures Before(Selection(states[k].tables, limit), a, b)
  {
    hide Run;
    ArrivalIsReading(s, states, steps, i, k, a);
    ArrivalIsReading(s, states, steps, j, k, b);
    SelectedBefore(states[k].tables, limit, a, b);
  }

  // ---------------------------------------------------------------------------
  // Blocks
  // ---------------------------------------------------------------------------

  /** The hashes were selected from some state of the run up to number k. */
  ghost predicate WasSelected(states: seq<System>, k: nat, hashes: seq<Bytes>)
    requires k < |states|
  {
    exists r: nat, limit: nat :: r <= k && hashes == Selection(states[r].tables, limit)
  }

  /** The members of block h were selected from a state before the block was stored. */
  ghost predicate BlockSelected(states: seq<System>, k: nat, h: int)
    requires k < |states|
  {
    exists r: nat, limit: nat :: r <= k && h !in states[r].tables.blocks && EventHashes(states[k].tables, h) == Selection(states[r].tables, limit)
  }

  ghost predicate TaskSelected(states: seq<System>, k: nat, task: Task)
    requires k < |states|
  {
    match task
    case HasEvents(_, _, hashes) => WasSelected(states, k, hashes)
    case HasHeader(_, _, hashes) => WasSelected(states, k, hashes)
    case _ => true
  }

  ghost predicate TasksSelected(states: seq<System>, k: nat)
    requires k < |states|
  {
    forall n :: n in states[k].tasks ==> TaskSelected(states, k, states[k].tasks[n])
  }

  ghost predicate BlocksSelected(states: seq<System>, k: nat)
    requires k < |states|
  {
    forall h :: h in states[k].tables.blocks ==> BlockSelected(states, k, h)
  }

  lemma StillSelected(states: seq<System>, k: nat, task: Task)
    requires k + 1 < |states| && TaskSelected(states, k, task)
    ensures TaskSelected(states, k + 1, task)
  {
    hide Selection;
    if task.HasEvents? || task.HasHeader? {
      var r: nat, limit: nat :| r <= k && task.hashes == Selection(states[r].tables, limit);
      assert r <= k + 1;
    }
  }

  lemma NewTaskSelected(s: Suite, states: seq<System>, k: nat, step: Step)
    requires k + 1 < |states| && TasksSelected(states, k)
    requires Enabled(s, states[k], step) && Continuation(s, states[k], step).Some?
    ensures TaskSelected(states, k, Continuation(s, states[k], step).value)
  {
    hide Selection, ActiveAuthorities, LastFinal, NewHeader, ProposalOpen;
    match step
    case ReadPending(n, limit) =>
      assert Continuation(s, states[k], step).value.hashes == Selection(states[k].tables, limit);
    case ReadPrevious(n, _) =>
      assert TaskSelected(states, k, states[k].tasks[n]);
    case _ =>
  }

  lemma NextTasksSelected(s: Suite, states: seq<System>, steps: seq<Step>, k: nat)
    requires k < |steps| && k + 1 < |states| && Next(s, states[k], steps[k], states[k + 1]) && TasksSelected(states, k)
    ensures TasksSelected(states, k + 1)
  {
    hide TaskSelected, Enabled, TablesAfter, Continuation;
    var x, y := states[k], states[k + 1];
    forall n | n in y.tasks ensures TaskSelected(states, k + 1, y.tasks[n]) {
      if n in x.tasks && y.tasks[n] == x.tasks[n] {
        assert TaskSelected(states, k, x.tasks[n]);
      } else {
        NewTaskSelected(s, states, k, steps[k]);
      }
      StillSelected(states, k, y.tasks[n]);
    }
  }

  lemma OldBlockSelected(states: seq<System>, k: nat, h: int)
    requires k + 1 < |states| && h in states[k].tables.blocks && BlockSelected(states, k, h)
    requires Extends(states[k].tables, states[k + 1].tables)
    ensures BlockSelected(states, k + 1, h)
  {
    hide Selection;
    var r: nat, limit: nat :| r <= k && h !in states[r].tables.blocks && EventHashes(states[k].tables, h) == Selection(states[r].tables, limit);
    assert BlockKept(states[k].tables, states[k + 1].tables, h);
    assert EventHashes(states[k + 1].tables, h) == EventHashes(states[k].tables, h);
    assert r <= k + 1;
  }

  /** A block that a step brings in holds what its proposer had selected. */
  lemma NewBlockHashes(s: Suite, x: System, step: Step, y: System, h: int)
    requires SystemInv(s, x) && Next(s, x, step, y) && h in y.tables.blocks && h !in x.tables.blocks
    ensures step.StoreProposal? && step.n in x.tasks && x.tasks[step.n].HasHeader?
    ensures EventHashes(y.tables, h) == x.tasks[step.n].hashes
  {
    hide Inv, ProposalReady;
    NewBlockIsProposal(s, x, step, h);
    var task := x.tasks[step.n];
    assert TaskOk(s, x.tables, task);
    StoredHashes(s, x.tables, y.tables, task.row, task.hashes, task.authorities, h);
  }

  lemma NewBlockIsProposal(s: Suite, x: System, step: Step, h: int)
    requires Enabled(s, x, step) && h in TablesAfter(s, x, step).blocks && h !in x.tables.blocks
    ensures step.StoreProposal? && step.n in x.tasks && x.tasks[step.n].HasHeader?
    ensures CreateProposal(x.tables, x.tasks[step.n].row, x.tasks[step.n].hashes, x.tasks[step.n].authorities) == Ok(TablesAfter(s, x, step))
  {
    hide CreateProposal;
  }

  lemma StoredHashes(s: Suite, t: Tables, u: Tables, row: BlockRow, hashes: seq<Bytes>, authorities: Snapshot, h: int)
    requires Inv(s, t) && ProposalReady(s, t, row, hashes, authorities) && CreateProposal(t, row, hashes, authorities) == Ok(u)
    requires h in u.blocks && h !in t.blocks
    ensures EventHashes(u, h) == hashes
  {
    hide CreateProposal;
    ProposalEffect(t, u, row, hashes, authorities);
    ReadBack(u, h, hashes, authorities);
  }

  lemma NewBlockSelected(s: Suite, states: seq<System>, steps: seq<Step>, k: nat, h: int)
    requires Lawful(s) && Run(s, states, steps) && k < |steps| && TasksSelected(states, k)
    requires h in states[k + 1].tables.blocks && h !in states[k].tables.blocks
    ensures BlockSelected(states, k + 1, h)
  {
    hide Selection, SystemInv, Extends, Enabled, TablesAfter, Continuation;
    RunKeepsInv(s, states, steps, k);
    assert Next(s, states[k], steps[k], states[k + 1]);
    NewBlockHashes(s, states[k], steps[k], states[k + 1], h);
    var task := states[k].tasks[steps[k].n];
    assert TaskSelected(states, k, task);
    var r: nat, limit: nat :| r <= k && task.hashes == Selection(states[r].tables, limit);
    RunExtends(s, states, steps, r, k);
    EarlierLacks(states[r].tables, states[k].tables, h);
    assert r <= k + 1;
  }

  lemma EarlierLacks(t: Tables, u: Tables, h: int)
    requires Extends(t, u)
    ensures h in t.blocks ==> h in u.blocks
  {
    assert h in t.blocks ==> BlockKept(t, u, h);
  }

  /** Every stored block holds, in order, what was selected from one earlier state of the run. */
  lemma {:induction false} RunSelects(s: Suite, states: seq<System>, steps: seq<Step>, k: nat)
    requires Lawful(s) && Run(s, states, steps) && k < |states|
    ensures TasksSelected(states, k) && BlocksSelected(states, k)
    decreases k
  {
    hide TaskSelected, BlockSelected, SystemInv, Extends, Next;
    if k > 0 {
      RunSelects(s, states, steps, k - 1);
      assert Next(s, states[k - 1], steps[k - 1], states[k - 1 + 1]);
      NextTasksSelected(s, states, steps, k - 1);
      RunStepExtends(s, states, steps, k);
      forall h | h in states[k].tables.blocks ensures BlockSelected(states, k, h) {
        if h in states[k - 1].tables.blocks {
          assert BlockSelected(states, k - 1, h);
          OldBlockSelected(states, k - 1, h);
        } else {
          NewBlockSelected(s, states, steps, k - 1, h);
        }
      }
    }
  }

  // ---------------------------------------------------------------------------
  // First come, first sealed
  // ---------------------------------------------------------------------------

  /** Event a is in a block no later than block h, and in that block before b. */
  ghost predicate NoLater(t: Tables, a: Bytes, b: Bytes, h: int) {
    && a in t.events && t.events[a].blockHeight.Some? && t.events[a].blockHeight.value <= h
    && (t.events[a].blockHeight.value == h ==> Before(EventHashes(t, h), a, b))
  }
  lemma MemberOfBlock(s: Suite, t: Tables, e: Bytes, h: int)
    requires Inv(s, t)
    ensures e in t.events && t.events[e].blockHeight == Some(h) <==> h in t.blocks && e in EventHashes(t, h)
    ensures h in t.blocks ==> 1 <= h <= |t.blocks|
  {
    if e in t.events && t.events[e].blockHeight == Some(h) {
      assert EventInv(s, t, e);
      MemberIffOccupies(t, h, e);
    }
    if h in t.blocks && e in EventHashes(t, h) {
      assert BlockInv(s, t, h);
      assert MemberOk(t, h, e);
    }
  }

  lemma StoredBefore(s: Suite, states: seq<System>, steps: seq<Step>, j: nat, r: nat, b: Bytes)
    requires Lawful(s) && Run(s, states, steps) && StoredAt(states, steps, j, b) && r < |states|
    requires b in states[r].tables.events
    ensures j < r
  {
    hide Run, Extends;
    if r <= j {
      RunExtends(s, states, steps, r, j);
      KeptEvent(states[r].tables, states[j].tables, b);
    }
  }

  /** An event that was in a block when block h was not stored yet is in an earlier block. */
  lemma PlacedEarlier(s: Suite, t: Tables, u: Tables, a: Bytes, b: Bytes, h: int)
    requires Inv(s, t) && Inv(s, u) && Extends(t, u)
    requires a in t.events && t.events[a].blockHeight.Some? && h !in t.blocks && h in u.blocks
    ensures NoLater(u, a, b, h)
  {
    hide Inv, Extends;
    var k := t.events[a].blockHeight.value;
    MemberOfBlock(s, t, a, k);
    MemberOfBlock(s, u, b, h);
    KeptEvent(t, u, a);
    HeightsAre(s, t);
  }

  lemma HeightsAre(s: Suite, t: Tables)
    requires Inv(s, t)
    ensures HeightsOk(t)
  {
  }

  lemma PlacedTogether(s: Suite, t: Tables, u: Tables, a: Bytes, b: Bytes, h: int, limit: nat)
    requires Inv(s, u) && h in u.blocks && EventHashes(u, h) == Selection(t, limit)
    requires a in Pending(t) && b in Selection(t, limit) && ArrivedBefore(t, a, b)
    ensures NoLater(u, a, b, h)
  {
    hide Inv, Selection;
    SelectedBefore(t, limit, a, b);
    var p, q :| 0 <= p < q < |Selection(t, limit)| && Selection(t, limit)[p] == a && Selection(t, limit)[q] == b;
    MemberOfBlock(s, u, a, h);
  }

  /**
   * Of two events, the one that the gateway stored first, and at the smaller reading, is never in a
   * later block than the other, and in the same block comes before it, whatever proposals interleave.
   */
  lemma FirstComeFirstSealed(s: Suite, states: seq<System>, steps: seq<Step>, i: nat, j: nat, k: nat, a: Bytes, b: Bytes, h: int)
    requires Lawful(s) && Run(s, states, steps) && StoredAt(states, steps, i, a) && StoredAt(states, steps, j, b)
    requires i < j < k < |states| && steps[i].now < steps[j].now
    requires b in states[k].tables.events && states[k].tables.events[b].blockHeight == Some(h)
    ensures NoLater(states[k].tables, a, b, h)
  {
    hide Run, Extends, Selection, Inv, NoLater, TaskOk;
    RunKeepsInv(s, states, steps, k);
    MemberOfBlock(s, states[k].tables, b, h);
    RunSelects(s, states, steps, k);
    assert BlockSelected(states, k, h);
    var r: nat, limit: nat :| r <= k && h !in states[r].tables.blocks && EventHashes(states[k].tables, h) == Selection(states[r].tables, limit);
    RunKeepsInv(s, states, steps, r);
    StoredBefore(s, states, steps, j, r, b);
    ArrivalIsReading(s, states, steps, i, r, a);
    ArrivalIsReading(s, states, steps, j, r, b);
    if states[r].tables.events[a].blockHeight.Some? {
      RunExtends(s, states, steps, r, k);
      PlacedEarlier(s, states[r].tables, states[k].tables, a, b, h);
    } else {
      PlacedTogether(s, states[r].tables, states[k].tables, a, b, h, limit);
    }
  }
}
