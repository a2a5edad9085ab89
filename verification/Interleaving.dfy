/**
 * Concurrent requests at the gateway. Each database read is a step of its own, so a
 * proposer or a signer may act on rows that have changed since; each transaction is
 * one step; a request may fail, and the gateway may crash, between any two steps.
 */
module Interleaving {
  import opened Primitives
  import opened Models
  import opened Store
  import opened Merkle
  import opened Audit
  import opened Invariant
  import opened Proposal
  import opened Signing
  import opened Growth

  datatype Proposer = Proposer(id: string, threshold: int, policyHash: Bytes)

  /** What a request in progress has read so far. */
  datatype Task =
    | Accepting(event: SignedEvent, payload: Bytes)
    | Started(proposer: Proposer)
    | HasSnapshot(proposer: Proposer, authorities: Snapshot)
    | HasEvents(proposer: Proposer, authorities: Snapshot, hashes: seq<Bytes>)
    | HasHeader(row: BlockRow, authorities: Snapshot, hashes: seq<Bytes>)
    | HasBlock(height: int, signer: string, blockHash: Bytes)
    | HasSignature(height: int, signer: string, signature: Bytes)

  datatype System = System(tables: Tables, tasks: map<nat, Task>)

  datatype Step =
    | EnrolDevice(id: string, publicKey: Bytes, keyId: string, now: int)
    | EnrolAuthority(id: string, publicKey: Bytes, keyId: string, now: int)
    | CheckEvent(n: nat, event: SignedEvent)
    | StoreEvent(n: nat, now: int)
    | StartProposal(n: nat, proposer: Proposer)
    | ReadSnapshot(n: nat)
    | ReadPending(n: nat, limit: nat)
    | ReadPrevious(n: nat, now: int)
    | StoreProposal(n: nat)
    | ReadBlock(n: nat, height: int, signer: string)
    | CheckSignature(n: nat, signature: Bytes)
    | StoreSignature(n: nat, now: int)
    | Abandon(n: nat)
    | Crash

  function PreviousHash(t: Tables, previous: Option<int>): Bytes
    requires previous.Some? ==> previous.value in t.blocks
  {
    if previous.None? then ZERO_HASH else t.blocks[previous.value].blockHash
  }

  /** The header a proposer builds on the last finalized block it sees. */
  function NewHeader(s: Suite, p: Proposer, authorities: Snapshot, hashes: seq<Bytes>, last: Option<int>, previousHash: Bytes, now: int): BlockHeader {
    BlockHeader(if last.None? then 1 else last.value + 1, previousHash, now, RootOf(s.sha, hashes), |hashes|,
                p.id, SnapshotHash(s, authorities), p.threshold, p.policyHash, 1)
  }

  /** What a request has to find before it goes on to its next read or transaction. */
  ghost predicate Enabled(s: Suite, x: System, step: Step) {
    var t := x.tables;
    match step
    case EnrolAuthority(_, publicKey, _, _) => |publicKey| == 32
    case CheckEvent(n, e) =>
      n !in x.tasks && e.sequence >= 1 && e.deviceId in t.devices && Encodable(e)
      && s.verify(t.devices[e.deviceId].publicKey, e.signature, SigningBytes(s, e))
    case StoreEvent(n, _) => n in x.tasks && x.tasks[n].Accepting?
    case StartProposal(n, p) => n !in x.tasks && p.threshold >= 1 && !ProposalOpen(t)
    case ReadSnapshot(n) =>
      n in x.tasks && x.tasks[n].Started? && |ActiveAuthorities(t)| >= x.tasks[n].proposer.threshold
    case ReadPending(n, limit) => n in x.tasks && x.tasks[n].HasSnapshot? && Selection(t, limit) != []
    case ReadPrevious(n, _) => n in x.tasks && x.tasks[n].HasEvents?
    case StoreProposal(n) => n in x.tasks && x.tasks[n].HasHeader?
    case ReadBlock(n, h, _) => n !in x.tasks && h in t.blocks
    case CheckSignature(n, signature) =>
      n in x.tasks && x.tasks[n].HasBlock?
      && x.tasks[n].signer in Members(t, x.tasks[n].height)
      && s.verify(Members(t, x.tasks[n].height)[x.tasks[n].signer], signature, x.tasks[n].blockHash)
    case StoreSignature(n, _) => n in x.tasks && x.tasks[n].HasSignature?
    case _ => true
  }

  /** The tables after the step: only transactions that commit change them. */
  ghost function TablesAfter(s: Suite, x: System, step: Step): Tables
    requires Enabled(s, x, step)
  {
    var t := x.tables;
    match step
    case EnrolDevice(id, publicKey, keyId, now) =>
      (match RegisterDevice(t, id, publicKey, keyId, now) case Ok(r) => r.0 case Err(_) => t)
    case EnrolAuthority(id, publicKey, keyId, now) =>
      (match RegisterAuthority(t, id, publicKey, keyId, now) case Ok(r) => r.0 case Err(_) => t)
    case StoreEvent(n, now) =>
      (match InsertEvent(s, t, x.tasks[n].event, x.tasks[n].payload, now) case Ok(r) => r.0 case Err(_) => t)
    case StoreProposal(n) =>
      (match CreateProposal(t, x.tasks[n].row, x.tasks[n].hashes, x.tasks[n].authorities) case Ok(u) => u case Err(_) => t)
    case StoreSignature(n, now) =>
      (match InsertSignature(t, x.tasks[n].height, x.tasks[n].signer, x.tasks[n].signature, now) case Ok(r) => r.0 case Err(_) => t)
    case _ => t
  }

  /** What a request that has just read something remembers; None when it is over. */
  ghost function Continuation(s: Suite, x: System, step: Step): Option<Task>
    requires Enabled(s, x, step)
  {
    var t := x.tables;
    match step
    case CheckEvent(n, e) => Some(Accepting(e, s.encode(Map(e.payload))))
    case StartProposal(n, p) => Some(Started(p))
    case ReadSnapshot(n) => Some(HasSnapshot(x.tasks[n].proposer, ActiveAuthorities(t)))
    case ReadPending(n, limit) => Some(HasEvents(x.tasks[n].proposer, x.tasks[n].authorities, Selection(t, limit)))
    case ReadPrevious(n, now) =>
      var header := NewHeader(s, x.tasks[n].proposer, x.tasks[n].authorities, x.tasks[n].hashes,
                              LastFinal(t), PreviousHash(t, LastFinal(t)), now);
      Some(HasHeader(NewBlockRow(s, header), x.tasks[n].authorities, x.tasks[n].hashes))
    case ReadBlock(n, h, signer) => Some(HasBlock(h, signer, t.blocks[h].blockHash))
    case CheckSignature(n, signature) => Some(HasSignature(x.tasks[n].height, x.tasks[n].signer, signature))
    case _ => None
  }

  ghost predicate Next(s: Suite, x: System, step: Step, y: System) {
    && Enabled(s, x, step)
    && y.tables == TablesAfter(s, x, step)
    && match step
       case EnrolDevice(_, _, _, _) => y.tasks == x.tasks
       case EnrolAuthority(_, _, _, _) => y.tasks == x.tasks
       case Crash => y.tasks == map[]
       case _ => y.tasks == match Continuation(s, x, step) case Some(task) => x.tasks[step.n := task] case None => x.tasks - {step.n}
  }

  // ---------------------------------------------------------------------------
  // What a request has read stays good enough
  // ---------------------------------------------------------------------------

  ghost predicate TaskOk(s: Suite, t: Tables, task: Task) {
    match task
    case Accepting(e, payload) => EventReady(s, t, e, payload)
    case Started(p) => p.threshold >= 1
    case HasSnapshot(p, authorities) => 1 <= p.threshold <= |authorities| && SnapshotReady(authorities)
    case HasEvents(p, authorities, hashes) => 1 <= p.threshold <= |authorities| && SnapshotReady(authorities) && hashes != []
    case HasHeader(row, authorities, hashes) => ProposalReady(s, t, row, hashes, authorities)
    case HasBlock(h, _, blockHash) => h in t.blocks && t.blocks[h].blockHash == blockHash
    case HasSignature(h, signer, signature) => SignatureReady(s, t, h, signer, signature)
  }

  ghost predicate SystemInv(s: Suite, x: System) {
    Inv(s, x.tables) && forall n :: n in x.tasks ==> TaskOk(s, x.tables, x.tasks[n])
  }

  lemma HeaderStaysGood(t: Tables, u: Tables, header: BlockHeader)
    requires Extends(t, u) && ExtendsFinal(t, header)
    ensures ExtendsFinal(u, header)
  {
    if header.height > 1 {
      assert BlockKept(t, u, header.height - 1);
    }
  }

  lemma TaskStaysOk(s: Suite, t: Tables, u: Tables, task: Task)
    requires Extends(t, u) && TaskOk(s, t, task)
    ensures TaskOk(s, u, task)
  {
    match task
    case Accepting(e, payload) =>
      assert DeviceKept(t, u, e.deviceId);
    case HasHeader(row, _, _) =>
      HeaderStaysGood(t, u, row.header);
    case HasBlock(h, _, _) =>
      assert BlockKept(t, u, h);
    case HasSignature(h, _, _) =>
      assert BlockKept(t, u, h);
    case _ =>
  }

  lemma SnapshotIsReady(s: Suite, t: Tables)
    requires Inv(s, t)
    ensures SnapshotReady(ActiveAuthorities(t))
  {
    forall i | 0 <= i < |ActiveAuthorities(t)| ensures |ActiveAuthorities(t)[i].1| == 32 {
      assert AuthorityInv(t, ActiveAuthorities(t)[i].0);
    }
  }

  lemma HeaderIsReady(s: Suite, t: Tables, p: Proposer, authorities: Snapshot, hashes: seq<Bytes>, now: int)
    requires Inv(s, t)
    requires 1 <= p.threshold <= |authorities| && SnapshotReady(authorities) && hashes != []
    ensures ProposalReady(s, t, NewBlockRow(s, NewHeader(s, p, authorities, hashes, LastFinal(t), PreviousHash(t, LastFinal(t)), now)),
                          hashes, authorities)
  {
    if LastFinal(t).Some? {
      assert LastFinal(t).value in t.blocks;
    }
  }

  lemma NewTaskOk(s: Suite, x: System, step: Step)
    requires SystemInv(s, x) && Enabled(s, x, step) && Continuation(s, x, step).Some?
    ensures TaskOk(s, x.tables, Continuation(s, x, step).value)
  {
    match step
    case ReadSnapshot(n) =>
      assert TaskOk(s, x.tables, x.tasks[n]);
      SnapshotIsReady(s, x.tables);
    case ReadPending(n, _) =>
      assert TaskOk(s, x.tables, x.tasks[n]);
    case ReadPrevious(n, now) =>
      assert TaskOk(s, x.tables, x.tasks[n]);
      HeaderIsReady(s, x.tables, x.tasks[n].proposer, x.tasks[n].authorities, x.tasks[n].hashes, now);
    case CheckSignature(n, _) =>
      assert TaskOk(s, x.tables, x.tasks[n]);
    case _ =>
  }

  lemma TablesAfterInv(s: Suite, x: System, step: Step)
    requires Lawful(s) && SystemInv(s, x) && Enabled(s, x, step)
    ensures Inv(s, TablesAfter(s, x, step)) && Extends(x.tables, TablesAfter(s, x, step))
  {
    hide Inv, Extends;
    var t, u := x.tables, TablesAfter(s, x, step);
    ExtendsSelf(t);
    match step
    case EnrolDevice(id, publicKey, keyId, now) =>
      EnrolDeviceInv(s, t, id, publicKey, keyId, now);
    case EnrolAuthority(id, publicKey, keyId, now) =>
      EnrolAuthorityInv(s, t, id, publicKey, keyId, now);
    case StoreEvent(n, now) =>
      StoreEventInv(s, t, x.tasks[n].event, x.tasks[n].payload, now);
    case StoreProposal(n) =>
      StoreProposalInv(s, t, x.tasks[n].row, x.tasks[n].hashes, x.tasks[n].authorities);
    case StoreSignature(n, now) =>
      StoreSignatureInv(s, t, x.tasks[n].height, x.tasks[n].signer, x.tasks[n].signature, now);
    case _ =>
  }

  lemma EnrolDeviceInv(s: Suite, t: Tables, id: string, publicKey: Bytes, keyId: string, now: int)
    requires Inv(s, t)
    ensures var r := RegisterDevice(t, id, publicKey, keyId, now); r.Ok? ==> Inv(s, r.value.0) && Extends(t, r.value.0)
  {
    var r := RegisterDevice(t, id, publicKey, keyId, now);
    if r.Ok? {
      RegisterDeviceKeepsInv(s, t, id, publicKey, keyId, now);
      RegisterDeviceExtends(t, r.value.0, id, publicKey, keyId, now, r.value.1);
    }
  }

  lemma EnrolAuthorityInv(s: Suite, t: Tables, id: string, publicKey: Bytes, keyId: string, now: int)
    requires Inv(s, t) && |publicKey| == 32
    ensures var r := RegisterAuthority(t, id, publicKey, keyId, now); r.Ok? ==> Inv(s, r.value.0) && Extends(t, r.value.0)
  {
    var r := RegisterAuthority(t, id, publicKey, keyId, now);
    if r.Ok? {
      RegisterAuthorityKeepsInv(s, t, id, publicKey, keyId, now);
      RegisterAuthorityExtends(t, r.value.0, id, publicKey, keyId, now, r.value.1);
    }
  }

  lemma StoreEventInv(s: Suite, t: Tables, e: SignedEvent, payload: Bytes, now: int)
    requires Lawful(s) && Inv(s, t) && EventReady(s, t, e, payload)
    ensures var r := InsertEvent(s, t, e, payload, now); r.Ok? ==> Inv(s, r.value.0) && Extends(t, r.value.0)
  {
    var r := InsertEvent(s, t, e, payload, now);
    if r.Ok? {
      InsertEventKeepsInv(s, t, e, payload, now);
      InsertEventExtends(s, t, r.value.0, e, payload, now, r.value.1);
    }
  }

  lemma StoreProposalInv(s: Suite, t: Tables, row: BlockRow, hashes: seq<Bytes>, authorities: Snapshot)
    requires Inv(s, t) && ProposalReady(s, t, row, hashes, authorities)
    ensures var r := CreateProposal(t, row, hashes, authorities); r.Ok? ==> Inv(s, r.value) && Extends(t, r.value)
  {
    var r := CreateProposal(t, row, hashes, authorities);
    if r.Ok? {
      CreateProposalKeepsInv(s, t, r.value, row, hashes, authorities);
      CreateProposalExtends(s, t, r.value, row, hashes, authorities);
    }
  }

  lemma StoreSignatureInv(s: Suite, t: Tables, h: int, id: string, signature: Bytes, now: int)
    requires Inv(s, t) && SignatureReady(s, t, h, id, signature)
    ensures var r := InsertSignature(t, h, id, signature, now); r.Ok? ==> Inv(s, r.value.0) && Extends(t, r.value.0)
  {
    var r := InsertSignature(t, h, id, signature, now);
    if r.Ok? {
      InsertSignatureKeepsInv(s, t, r.value.0, h, id, signature, now, r.value.1);
      InsertSignatureExtends(s, t, r.value.0, h, id, signature, now, r.value.1);
    }
  }

  lemma NextKeepsInv(s: Suite, x: System, step: Step, y: System)
    requires Lawful(s) && SystemInv(s, x) && Next(s, x, step, y)
    ensures SystemInv(s, y) && Extends(x.tables, y.tables)
  {
    hide Inv, Extends, TaskOk, Enabled, TablesAfter, Continuation;
    TablesAfterInv(s, x, step);
    forall n | n in y.tasks ensures TaskOk(s, y.tables, y.tasks[n]) {
      if n in x.tasks && y.tasks[n] == x.tasks[n] {
        TaskStaysOk(s, x.tables, y.tables, x.tasks[n]);
      } else {
        NewTaskOk(s, x, step);
        TaskStaysOk(s, x.tables, y.tables, y.tasks[n]);
      }
    }
  }

  // ---------------------------------------------------------------------------
  // Whole runs
  // ---------------------------------------------------------------------------

  ghost predicate Run(s: Suite, states: seq<System>, steps: seq<Step>) {
    && |states| == |steps| + 1
    && states[0] == System(EMPTY, map[])
    && forall i :: 0 <= i < |steps| ==> Next(s, states[i], steps[i], states[i + 1])
  }

  lemma RunStep(s: Suite, states: seq<System>, steps: seq<Step>, i: nat)
    requires Lawful(s) && Run(s, states, steps) && 0 < i < |states| && SystemInv(s, states[i - 1])
    ensures SystemInv(s, states[i]) && Extends(states[i - 1].tables, states[i].tables)
  {
    hide Next, SystemInv, Extends;
    assert Next(s, states[i - 1], steps[i - 1], states[i - 1 + 1]);
    NextKeepsInv(s, states[i - 1], steps[i - 1], states[i]);
  }

  lemma StartInv(s: Suite)
    ensures SystemInv(s, System(EMPTY, map[]))
  {
    EmptyInv(s);
  }

  lemma {:induction false} RunKeepsInv(s: Suite, states: seq<System>, steps: seq<Step>, i: nat)
    requires Lawful(s) && Run(s, states, steps) && i < |states|
    ensures SystemInv(s, states[i])
    decreases i
  {
    hide Next, SystemInv, Extends;
    if i == 0 {
      StartInv(s);
    } else {
      RunKeepsInv(s, states, steps, i - 1);
      RunStep(s, states, steps, i);
    }
  }

  /** Every reachable state passes the audit, crashes and stale reads included. */
  lemma RunIsWellFormed(s: Suite, states: seq<System>, steps: seq<Step>, i: nat)
    requires Lawful(s) && Run(s, states, steps) && i < |states|
    ensures WellFormed(s, states[i].tables)
  {
    RunKeepsInv(s, states, steps, i);
    InvIsWellFormed(s, states[i].tables);
  }

  lemma RunStepExtends(s: Suite, states: seq<System>, steps: seq<Step>, i: nat)
    requires Lawful(s) && Run(s, states, steps) && 0 < i < |states|
    ensures Extends(states[i - 1].tables, states[i].tables)
  {
    hide Next, SystemInv, Extends;
    RunKeepsInv(s, states, steps, i - 1);
    RunStep(s, states, steps, i);
  }

  /** Between any two states of a run, nothing stored is lost or rewritten. */
  lemma {:induction false} RunExtends(s: Suite, states: seq<System>, steps: seq<Step>, i: nat, j: nat)
    requires Lawful(s) && Run(s, states, steps) && i <= j < |states|
    ensures Extends(states[i].tables, states[j].tables)
    decreases j - i
  {
    hide Next, Extends;
    if i == j {
      ExtendsSelf(states[i].tables);
    } else {
      RunExtends(s, states, steps, i, j - 1);
      RunStepExtends(s, states, steps, j);
      ExtendsTransitive(states[i].tables, states[j - 1].tables, states[j].tables);
    }
  }

  /** A block that is final stays as it is, with its members and its snapshot. */
  lemma FinalityIsForever(s: Suite, states: seq<System>, steps: seq<Step>, i: nat, j: nat, h: int)
    requires Lawful(s) && Run(s, states, steps) && i <= j < |states|
    requires h in states[i].tables.blocks && states[i].tables.blocks[h].status == Finalized
    ensures h in states[j].tables.blocks && states[j].tables.blocks[h] == states[i].tables.blocks[h]
    ensures Slots(states[j].tables, h) == Slots(states[i].tables, h)
    ensures Members(states[j].tables, h) == Members(states[i].tables, h)
    ensures ValidSigners(s, states[i].tables, h) <= ValidSigners(s, states[j].tables, h)
    ensures |ValidSigners(s, states[j].tables, h)| >= states[j].tables.blocks[h].header.quorumThreshold
  {
    RunExtends(s, states, steps, i, j);
    RunKeepsInv(s, states, steps, j);
    assert BlockKept(states[i].tables, states[j].tables, h);
    forall id | id in ValidSigners(s, states[i].tables, h) ensures id in ValidSigners(s, states[j].tables, h) {
      assert SignatureKept(states[i].tables, states[j].tables, h, id);
    }
    FinalIffQuorum(s, states[j].tables, h);
  }

  /** Heights are 1..n without a gap, linked by hash, and only the last block may be open. */
  lemma ChainShape(s: Suite, states: seq<System>, steps: seq<Step>, i: nat, h: int)
    requires Lawful(s) && Run(s, states, steps) && i < |states|
    ensures h in states[i].tables.blocks <==> 1 <= h <= |states[i].tables.blocks|
    ensures h in states[i].tables.blocks ==> states[i].tables.blocks[h].header.previousHash == PreviousHashAt(states[i].tables, h)
    ensures h in states[i].tables.blocks && states[i].tables.blocks[h].status == Proposed ==> h == |states[i].tables.blocks|
  {
    RunKeepsInv(s, states, steps, i);
    if h in states[i].tables.blocks {
      assert BlockInv(s, states[i].tables, h);
    }
  }

  lemma StoredOnTip(s: Suite, t: Tables, u: Tables, row: BlockRow, hashes: seq<Bytes>, authorities: Snapshot)
    requires Inv(s, t) && ProposalReady(s, t, row, hashes, authorities)
    requires CreateProposal(t, row, hashes, authorities) == Ok(u)
    ensures OnTip(t, u, row)
  {
    ProposalExtendsChain(t, row, hashes, authorities);
    ProposalEffect(t, u, row, hashes, authorities);
    TipIsLast(t);
  }

  lemma TipIsLast(t: Tables)
    requires HeightsOk(t) && forall h :: h in t.blocks ==> t.blocks[h].status == Finalized
    ensures HeightsWith(t, Proposed) == {}
    ensures t.blocks != map[] ==> |t.blocks| in t.blocks && LastFinal(t) == Some(|t.blocks|)
  {
    assert forall h :: h in t.blocks ==> h !in HeightsWith(t, Proposed);
    if t.blocks != map[] {
      assert |t.blocks| in HeightsWith(t, Finalized);
    }
  }

  /** The row was added to the tables t, with nothing open, as the next block on the last finalized block of t. */
  ghost predicate OnTip(t: Tables, u: Tables, row: BlockRow) {
    && u.blocks == t.blocks[|t.blocks| + 1 := row]
    && row.header.height == |t.blocks| + 1
    && row.status == Proposed && HeightsWith(t, Proposed) == {}
    && (t.blocks == map[] ==> row.header.previousHash == ZERO_HASH)
    && (t.blocks != map[] ==> LastFinal(t) == Some(|t.blocks|) && row.header.previousHash == t.blocks[|t.blocks|].blockHash)
  }

  /**
   * However stale the reads of a proposer, what it manages to store is the next block
   * on the last finalized block of the moment it is stored, and nothing else is open.
   */
  lemma StoredProposalExtendsTip(s: Suite, states: seq<System>, steps: seq<Step>, i: nat)
    requires Lawful(s) && Run(s, states, steps) && i < |steps| && steps[i].StoreProposal?
    requires states[i + 1].tables != states[i].tables
    ensures steps[i].n in states[i].tasks && states[i].tasks[steps[i].n].HasHeader?
    ensures OnTip(states[i].tables, states[i + 1].tables, states[i].tasks[steps[i].n].row)
  {
    RunKeepsInv(s, states, steps, i);
    assert Next(s, states[i], steps[i], states[i + 1]);
    var task := states[i].tasks[steps[i].n];
    assert TaskOk(s, states[i].tables, task);
    StoredOnTip(s, states[i].tables, states[i + 1].tables, task.row, task.hashes, task.authorities);
  }
}
