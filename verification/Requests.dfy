/** Every ledger operation is a sequence of steps of Interleaving, so what holds of all runs holds of the operations in any order. */
module Requests {
  import opened Primitives
  import opened Models
  import opened Store
  import opened Merkle
  import opened Invariant
  import opened Proposal
  import opened Signing
  import opened Interleaving
  import opened LedgerOperations
  import Outcomes

  /** The steps, one after another, lead from system x to system y. */
  ghost predicate Leads(s: Suite, x: System, steps: seq<Step>, y: System)
    decreases |steps|
  {
    if steps == [] then x == y
    else exists z :: Next(s, x, steps[0], z) && Leads(s, z, steps[1..], y)
  }

  lemma LeadsOne(s: Suite, x: System, step: Step, y: System)
    requires Next(s, x, step, y)
    ensures Leads(s, x, [step], y)
  {
    assert Leads(s, y, [step][1..], y);
  }

  lemma {:induction false} LeadsOn(s: Suite, x: System, a: seq<Step>, y: System, b: seq<Step>, z: System)
    requires Leads(s, x, a, y) && Leads(s, y, b, z)
    ensures Leads(s, x, a + b, z)
    decreases |a|
  {
    hide Next;
    if a == [] {
      assert a + b == b;
    } else {
      var w :| Next(s, x, a[0], w) && Leads(s, w, a[1..], y);
      LeadsOn(s, w, a[1..], y, b, z);
      assert (a + b)[1..] == a[1..] + b;
    }
  }

  /** The system after the next read or transaction of request n. */
  ghost function After(s: Suite, x: System, step: Step): System
    requires Enabled(s, x, step) && !step.EnrolDevice? && !step.EnrolAuthority? && !step.Crash?
  {
    System(TablesAfter(s, x, step), match Continuation(s, x, step) case Some(task) => x.tasks[step.n := task] case None => x.tasks - {step.n})
  }

  lemma AfterIsNext(s: Suite, x: System, step: Step)
    requires Enabled(s, x, step) && !step.EnrolDevice? && !step.EnrolAuthority? && !step.Crash?
    ensures Next(s, x, step, After(s, x, step))
  {
  }

  lemma LeadsAfter(s: Suite, x: System, step: Step, y: System)
    requires Enabled(s, x, step) && !step.EnrolDevice? && !step.EnrolAuthority? && !step.Crash? && y == After(s, x, step)
    ensures Leads(s, x, [step], y)
  {
    hide Next, After;
    AfterIsNext(s, x, step);
    LeadsOne(s, x, step, y);
  }

  lemma EnrolmentIsRun(s: Suite, x: System, id: string, publicKey: Bytes, keyId: string, now: int)
    ensures var r := RegisterDevice(x.tables, id, publicKey, keyId, now);
            r.Ok? ==> Leads(s, x, [EnrolDevice(id, publicKey, keyId, now)], System(r.value.0, x.tasks))
    ensures var r := RegisterAuthority(x.tables, id, publicKey, keyId, now);
            r.Ok? && |publicKey| == 32 ==> Leads(s, x, [EnrolAuthority(id, publicKey, keyId, now)], System(r.value.0, x.tasks))
  {
    hide Leads;
    var d, a := RegisterDevice(x.tables, id, publicKey, keyId, now), RegisterAuthority(x.tables, id, publicKey, keyId, now);
    if d.Ok? {
      LeadsOne(s, x, EnrolDevice(id, publicKey, keyId, now), System(d.value.0, x.tasks));
    }
    if a.Ok? && |publicKey| == 32 {
      LeadsOne(s, x, EnrolAuthority(id, publicKey, keyId, now), System(a.value.0, x.tasks));
    }
  }

  lemma LeadsMore(s: Suite, x: System, steps: seq<Step>, y: System, step: Step, z: System)
    requires Leads(s, x, steps, y)
    requires Enabled(s, y, step) && !step.EnrolDevice? && !step.EnrolAuthority? && !step.Crash? && z == After(s, y, step)
    ensures Leads(s, x, steps + [step], z)
  {
    hide Leads, Enabled, After;
    LeadsAfter(s, y, step, z);
    LeadsOn(s, x, steps, y, [step], z);
  }

  /** Accepting an event is checking it and then storing it. */
  lemma AcceptanceIsRun(s: Suite, x: System, n: nat, e: SignedEvent, now: int)
    requires n !in x.tasks && Accept(s, x.tables, e, now).Ok?
    ensures Leads(s, x, [CheckEvent(n, e), StoreEvent(n, now)], System(Accept(s, x.tables, e, now).value.0, x.tasks))
  {
    hide Leads;
    var check, store := CheckEvent(n, e), StoreEvent(n, now);
    var y := After(s, x, check);
    var z := After(s, y, store);
    LeadsAfter(s, x, check, y);
    LeadsMore(s, x, [check], y, store, z);
    assert [check] + [store] == [check, store];
    assert z.tasks == x.tasks;
  }

  function SigningSteps(n: nat, h: int, id: string, signature: Bytes, now: int): seq<Step> {
    [ReadBlock(n, h, id), CheckSignature(n, signature), StoreSignature(n, now)]
  }

  lemma CheckedSignature(s: Suite, x: System, n: nat, h: int, id: string, signature: Bytes) returns (z: System)
    requires n !in x.tasks && SignatureReady(s, x.tables, h, id, signature)
    ensures Leads(s, x, [ReadBlock(n, h, id), CheckSignature(n, signature)], z)
    ensures z == System(x.tables, x.tasks[n := HasSignature(h, id, signature)])
  {
    hide Leads;
    var read, check := ReadBlock(n, h, id), CheckSignature(n, signature);
    var y := After(s, x, read);
    z := After(s, y, check);
    LeadsAfter(s, x, read, y);
    LeadsMore(s, x, [read], y, check, z);
    assert [read] + [check] == [read, check];
  }

  /** Storing a valid signature is reading the block, checking the signature and storing it. */
  lemma SignatureIsRun(s: Suite, x: System, n: nat, h: int, id: string, signature: Bytes, now: int)
    requires n !in x.tasks && SignatureReady(s, x.tables, h, id, signature) && InsertSignature(x.tables, h, id, signature, now).Ok?
    ensures Leads(s, x, SigningSteps(n, h, id, signature, now), System(InsertSignature(x.tables, h, id, signature, now).value.0, x.tasks))
  {
    hide Leads;
    var z := CheckedSignature(s, x, n, h, id, signature);
    var store := StoreSignature(n, now);
    var w := After(s, z, store);
    LeadsMore(s, x, [ReadBlock(n, h, id), CheckSignature(n, signature)], z, store, w);
    assert [ReadBlock(n, h, id), CheckSignature(n, signature)] + [store] == SigningSteps(n, h, id, signature, now);
    assert w.tasks == x.tasks;
  }

  function ProposingSteps(n: nat, p: Proposer, limit: nat, now: int): seq<Step> {
    [StartProposal(n, p), ReadSnapshot(n), ReadPending(n, limit), ReadPrevious(n, now), StoreProposal(n)]
  }

  lemma ReadForProposal(s: Suite, x: System, n: nat, p: Proposer, limit: nat) returns (z: System)
    requires n !in x.tasks && p.threshold >= 1 && !ProposalOpen(x.tables)
    requires |ActiveAuthorities(x.tables)| >= p.threshold && Selection(x.tables, limit) != []
    ensures Leads(s, x, [StartProposal(n, p), ReadSnapshot(n), ReadPending(n, limit)], z)
    ensures z == System(x.tables, x.tasks[n := HasEvents(p, ActiveAuthorities(x.tables), Selection(x.tables, limit))])
  {
    hide Leads, Selection, ActiveAuthorities, ProposalOpen;
    var first, second, third := StartProposal(n, p), ReadSnapshot(n), ReadPending(n, limit);
    var y := After(s, x, first);
    var w := After(s, y, second);
    z := After(s, w, third);
    LeadsAfter(s, x, first, y);
    LeadsMore(s, x, [first], y, second, w);
    LeadsMore(s, x, [first] + [second], w, third, z);
    assert [first] + [second] + [third] == [first, second, third];
  }
  lemma StoredProposal(s: Suite, x: System, n: nat, p: Proposer, limit: nat, now: int, header: BlockHeader) returns (z: System)
    requires n !in x.tasks && p.threshold >= 1 && !ProposalOpen(x.tables)
    requires |ActiveAuthorities(x.tables)| >= p.threshold && Selection(x.tables, limit) != []
    requires header == NewHeader(s, p, ActiveAuthorities(x.tables), Selection(x.tables, limit), LastFinal(x.tables), PreviousHash(x.tables, LastFinal(x.tables)), now)
    requires CreateProposal(x.tables, NewBlockRow(s, header), Selection(x.tables, limit), ActiveAuthorities(x.tables)).Ok?
    ensures Leads(s, x, ProposingSteps(n, p, limit, now), z)
    ensures z == System(CreateProposal(x.tables, NewBlockRow(s, header), Selection(x.tables, limit), ActiveAuthorities(x.tables)).value, x.tasks)
  {
    hide Leads, Selection, ActiveAuthorities, ProposalOpen, LastFinal, NewHeader, NewBlockRow, CreateProposal;
    var y := ReadForProposal(s, x, n, p, limit);
    var read, store := ReadPrevious(n, now), StoreProposal(n);
    var w := After(s, y, read);
    z := After(s, w, store);
    var before := [StartProposal(n, p), ReadSnapshot(n), ReadPending(n, limit)];
    LeadsMore(s, x, before, y, read, w);
    LeadsMore(s, x, before + [read], w, store, z);
    assert before + [read] + [store] == ProposingSteps(n, p, limit, now);
    assert z.tasks == x.tasks;
  }

  /** What a successful proposal consists of: its draft was stored, and then signed. */
  lemma ProposalParts(s: Suite, t: Tables, cfg: Settings, id: string, key: KeyPair, maxEvents: int, now: int, signedAt: int)
    returns (d: Draft, u: Tables, signature: Bytes)
    requires Propose(s, t, cfg, id, key, maxEvents, now, signedAt).1.Ok?
    ensures DraftBlock(s, t, cfg, id, key, maxEvents, now) == Ok(d)
    ensures CreateProposal(t, NewBlockRow(s, d.header), d.hashes, d.authorities) == Ok(u)
    ensures SignatureReady(s, u, d.header.height, id, signature)
    ensures InsertSignature(u, d.header.height, id, signature, signedAt).Ok?
    ensures Propose(s, t, cfg, id, key, maxEvents, now, signedAt).0 == InsertSignature(u, d.header.height, id, signature, signedAt).value.0
  {
    hide DraftBlock, CreateProposal, InsertSignature;
    d := DraftBlock(s, t, cfg, id, key, maxEvents, now).value;
    u := CreateProposal(t, NewBlockRow(s, d.header), d.hashes, d.authorities).value;
    signature := key.sign(u.blocks[d.header.height].blockHash);
  }

  /** Proposing a block is eight steps: four reads, storing the proposal, reading the block, checking its own signature and storing it. */
  lemma ProposalIsRun(s: Suite, x: System, n: nat, cfg: Settings, id: string, key: KeyPair, maxEvents: nat, now: int, signedAt: int)
    returns (h: int, signature: Bytes)
    requires n !in x.tasks && cfg.quorumThreshold >= 1 && Propose(s, x.tables, cfg, id, key, maxEvents, now, signedAt).1.Ok?
    ensures Leads(s, x, ProposingSteps(n, Proposer(id, cfg.quorumThreshold, cfg.policyHash), maxEvents, now) + SigningSteps(n, h, id, signature, signedAt),
                  System(Propose(s, x.tables, cfg, id, key, maxEvents, now, signedAt).0, x.tasks))
  {
    hide Leads, Propose, DraftBlock, Selection, ActiveAuthorities, ProposalOpen, LastFinal, NewHeader, NewBlockRow, CreateProposal, InsertSignature, SignatureReady;
    var p := Proposer(id, cfg.quorumThreshold, cfg.policyHash);
    var d, u;
    d, u, signature := ProposalParts(s, x.tables, cfg, id, key, maxEvents, now, signedAt);
    h := d.header.height;
    Outcomes.DraftParts(s, x.tables, cfg, id, key, maxEvents, now, d);
    var y := StoredProposal(s, x, n, p, maxEvents, now, d.header);
    SignatureIsRun(s, y, n, h, id, signature, signedAt);
    LeadsOn(s, x, ProposingSteps(n, p, maxEvents, now), y, SigningSteps(n, h, id, signature, signedAt),
            System(Propose(s, x.tables, cfg, id, key, maxEvents, now, signedAt).0, x.tasks));
  }
  /** From the end of a run, further steps make a longer run. */
  lemma {:induction false} RunGoesOn(s: Suite, states: seq<System>, steps: seq<Step>, more: seq<Step>, y: System) returns (all: seq<System>)
    requires Run(s, states, steps) && Leads(s, states[|states| - 1], more, y)
    ensures Run(s, all, steps + more) && states <= all && all[|all| - 1] == y
    decreases |more|
  {
    hide Next;
    if more == [] {
      all := states;
      assert steps + more == steps;
    } else {
      var z :| Next(s, states[|states| - 1], more[0], z) && Leads(s, z, more[1..], y);
      OneMoreStep(s, states, steps, more[0], z);
      all := RunGoesOn(s, states + [z], steps + [more[0]], more[1..], y);
      assert steps + [more[0]] + more[1..] == steps + more;
    }
  }

  lemma OneMoreStep(s: Suite, states: seq<System>, steps: seq<Step>, step: Step, z: System)
    requires Run(s, states, steps) && Next(s, states[|states| - 1], step, z)
    ensures Run(s, states + [z], steps + [step])
  {
    hide Next;
    var xs, ts := states + [z], steps + [step];
    forall i | 0 <= i < |ts| ensures Next(s, xs[i], ts[i], xs[i + 1]) {
      if i < |steps| {
        assert Next(s, states[i], steps[i], states[i + 1]);
      }
    }
  }
}
