/** Sealing: one call proposes and finalizes a block, and repeating it drains the pending events. */
module Sealing {
  import opened Primitives
  import opened Arithmetic
  import opened Ordering
  import opened Models
  import opened Store
  import opened Invariant
  import opened Proposal
  import opened Signing
  import opened Growth
  import opened Interleaving
  import opened LedgerOperations
  import opened Outcomes
  import opened EdgeChain

  type Keys = seq<(string, KeyPair)>

  /** The gateway's own authorities: distinct, enrolled under the keys it holds, and able to sign. */
  ghost predicate KeysEnrolled(s: Suite, t: Tables, keys: Keys) {
    && (forall i, j :: 0 <= i < j < |keys| ==> keys[i].0 != keys[j].0)
    && (forall i :: 0 <= i < |keys| ==> keys[i].0 in ActiveKeys(t) && ActiveKeys(t)[keys[i].0] == keys[i].1.publicKey)
    && (forall i, m :: 0 <= i < |keys| ==> s.verify(keys[i].1.publicKey, keys[i].1.sign(m), m))
  }

  // ---------------------------------------------------------------------------
  // Signing it
  // ---------------------------------------------------------------------------

  /** The gateway's authorities are members of the snapshot of block h under the keys it holds. */
  ghost predicate KeysAreMembers(s: Suite, t: Tables, h: int, keys: Keys) {
    && h in t.blocks
    && (forall i, j :: 0 <= i < j < |keys| ==> keys[i].0 != keys[j].0)
    && (forall i :: 0 <= i < |keys| ==> keys[i].0 in Members(t, h) && Members(t, h)[keys[i].0] == keys[i].1.publicKey)
    && (forall i, m :: 0 <= i < |keys| ==> s.verify(keys[i].1.publicKey, keys[i].1.sign(m), m))
  }

  function Signers(keys: Keys, k: nat): set<string>
    requires k <= |keys|
  {
    set i | 0 <= i < k :: keys[i].0
  }

  lemma SnapshotHasKeys(s: Suite, t: Tables, u: Tables, row: BlockRow, hashes: seq<Bytes>, keys: Keys)
    requires KeysEnrolled(s, t, keys)
    requires Claims(t, u, row, hashes, ActiveAuthorities(t))
    ensures KeysAreMembers(s, u, row.header.height, keys)
    ensures Signatures(u, row.header.height) == map[]
  {
    var h, authorities := row.header.height, ActiveAuthorities(t);
    assert InIdOrder(authorities);
    forall i | 0 <= i < |keys| ensures keys[i].0 in Members(u, h) && Members(u, h)[keys[i].0] == keys[i].1.publicKey {
      assert keys[i].0 in IdsInOrder(ActiveKeys(t));
      var j :| 0 <= j < |authorities| && IdsInOrder(ActiveKeys(t))[j] == keys[i].0;
      WithMembersAt(authorities, j);
    }
  }

  lemma MoreSigners(keys: Keys, k: nat)
    requires k < |keys| && forall i, j :: 0 <= i < j < |keys| ==> keys[i].0 != keys[j].0
    ensures Signers(keys, k + 1) == Signers(keys, k) + {keys[k].0} && keys[k].0 !in Signers(keys, k)
  {
  }

  lemma SignatureStored(s: Suite, t: Tables, h: int, id: string, signature: Bytes, now: int)
    requires Inv(s, t) && SignatureReady(s, t, h, id, signature) && id !in Signatures(t, h)
    ensures var r := InsertSignature(t, h, id, signature, now);
            && r.Ok? && Inv(s, r.value.0)
            && h in r.value.0.blocks && r.value.0.blocks[h].status == r.value.1
            && r.value.0.blocks[h].header == t.blocks[h].header
            && Signatures(r.value.0, h).Keys == Signatures(t, h).Keys + {id}
            && Members(r.value.0, h) == Members(t, h)
            && Pending(r.value.0) == Pending(t)
            && r.value.0.authorities == t.authorities && r.value.0.blocks.Keys == t.blocks.Keys
            && Extends(t, r.value.0) && SameChains(t, r.value.0)
  {
    hide Inv, Extends, FinalityInv;
    SigningNeverBlocked(s, t, h, id, signature, now);
    SignatureKeepsChains(t, h, id, signature, now);
    var r := InsertSignature(t, h, id, signature, now);
    InsertSignatureKeepsInv(s, t, r.value.0, h, id, signature, now, r.value.1);
    FinalEvents(s, t, h);
    SignatureEffect(t, r.value.0, h, id, signature, now, r.value.1);
    SignedPending(t, r.value.0, h, id, SignatureRow(signature, now));
    SignedExtends(t, r.value.0, h, id, SignatureRow(signature, now));
  }

  /** The next authority's signature is stored, and it is the one that finalizes exactly when it completes the quorum. */
  lemma NextSigner(s: Suite, t: Tables, h: int, keys: Keys, k: nat, now: int)
    requires Inv(s, t) && KeysAreMembers(s, t, h, keys) && k < |keys|
    requires Signatures(t, h).Keys == Signers(keys, k)
    ensures var r := Sign(s, t, h, keys[k].0, keys[k].1, now);
            && r.Ok? && Inv(s, r.value.0) && KeysAreMembers(s, r.value.0, h, keys)
            && Signatures(r.value.0, h).Keys == Signers(keys, k + 1)
            && r.value.1 == r.value.0.blocks[h].status
            && Pending(r.value.0) == Pending(t)
            && r.value.0.blocks[h].header == t.blocks[h].header
            && r.value.0.authorities == t.authorities && r.value.0.blocks.Keys == t.blocks.Keys
            && Extends(t, r.value.0) && SameChains(t, r.value.0)
  {
    MoreSigners(keys, k);
    SignatureStored(s, t, h, keys[k].0, keys[k].1.sign(t.blocks[h].blockHash), now);
  }

  lemma SignedPending(t: Tables, u: Tables, h: int, id: string, signature: SignatureRow)
    requires SignedBy(t, u, h, id, signature)
    ensures Pending(u) == Pending(t)
  {
  }

  // ---------------------------------------------------------------------------
  // Counting what is pending
  // ---------------------------------------------------------------------------

  lemma {:induction false} SameSize(rows: set<(int, Bytes)>, hashes: set<Bytes>)
    requires forall e :: e in hashes <==> exists at :: (at, e) in rows
    requires forall x, y :: x in rows && y in rows && x.1 == y.1 ==> x == y
    ensures |rows| == |hashes|
  {
    if rows == {} {
      forall e ensures e !in hashes {
        assert forall at :: (at, e) !in rows;
      }
      assert hashes == {};
    } else {
      var x :| x in rows;
      var fewer, rest := rows - {x}, hashes - {x.1};
      var at, hash := x.0, x.1;
      assert (at, hash) in rows && hash in hashes;
      forall e ensures e in rest <==> exists at :: (at, e) in fewer {
        if e in rest {
          var at :| (at, e) in rows;
          assert (at, e) in fewer;
        }
        if at :| (at, e) in fewer {
          assert (at, e) in rows && (at, e) != x;
        }
      }
      SameSize(fewer, rest);
    }
  }

  lemma ArrivalsSize(t: Tables)
    ensures |PendingArrivals(t)| == |Pending(t)|
  {
    forall e ensures e in Pending(t) <==> exists at :: (at, e) in PendingArrivals(t) {
      if e in Pending(t) {
        assert (t.events[e].receivedAtMs, e) in PendingArrivals(t);
      }
    }
    SameSize(PendingArrivals(t), Pending(t));
  }

  lemma {:induction false} DistinctMembers<T>(xs: seq<T>, all: set<T>)
    requires forall i, j :: 0 <= i < j < |xs| ==> xs[i] != xs[j]
    requires forall x :: x in xs ==> x in all
    ensures |all - set x | x in xs| == |all| - |xs|
  {
    if xs == [] {
      assert all - (set x | x in xs) == all;
    } else {
      var n := |xs| - 1;
      assert xs == xs[..n] + [xs[n]];
      DistinctMembers(xs[..n], all);
      var rest := all - set x | x in xs[..n];
      assert xs[n] in rest;
      assert all - (set x | x in xs) == rest - {xs[n]};
    }
  }

  lemma ClaimedPending(t: Tables, u: Tables, row: BlockRow, hashes: seq<Bytes>, authorities: Snapshot)
    requires Claims(t, u, row, hashes, authorities)
    ensures Pending(u) == Pending(t) - set e | e in hashes
  {
  }

  /** Storing a proposal claims exactly the selected events. */
  lemma ProposalClaimsSelection(t: Tables, u: Tables, row: BlockRow, limit: nat, authorities: Snapshot)
    requires Claims(t, u, row, Selection(t, limit), authorities)
    ensures |Pending(u)| == if limit < |Pending(t)| then |Pending(t)| - limit else 0
  {
    hide Claims, Pending, PendingArrivals;
    var hashes := Selection(t, limit);
    ArrivalsSize(t);
    ClaimedPending(t, u, row, hashes, authorities);
    DistinctMembers(hashes, Pending(t));
  }

  // ---------------------------------------------------------------------------
  // Sealing one block
  // ---------------------------------------------------------------------------

  lemma EnoughAuthorities(s: Suite, t: Tables, keys: Keys)
    requires KeysEnrolled(s, t, keys)
    ensures |keys| <= |ActiveAuthorities(t)|
  {
    var ids := seq(|keys|, i requires 0 <= i < |keys| => keys[i].0);
    DistinctMembers(ids, ActiveKeys(t).Keys);
  }

  lemma DraftSucceeds(s: Suite, t: Tables, cfg: Settings, keys: Keys, maxEvents: int, now: int)
    requires KeysEnrolled(s, t, keys) && keys != [] && cfg.quorumThreshold <= |keys|
    ensures DraftBlock(s, t, cfg, keys[0].0, keys[0].1, maxEvents, now).Ok?
       <==> 1 <= maxEvents <= 10000 && !ProposalOpen(t) && Pending(t) != {}
  {
    EnoughAuthorities(s, t, keys);
    ArrivalsSize(t);
  }

  /** Block h of u holds the oldest pending events of t, at most `limit`, and nothing else stored in t was touched. */
  ghost predicate Took(t: Tables, u: Tables, h: int, limit: nat) {
    && Extends(t, u) && SameChains(t, u)
    && Slots(u, h) == WithSlots(map[], Selection(t, limit))
  }

  /** The block after those of t is stored in u and signed by the first k of the gateway's authorities. */
  ghost predicate Underway(s: Suite, t: Tables, u: Tables, limit: nat, threshold: int, keys: Keys, k: nat)
    requires k <= |keys|
  {
    var h := |t.blocks| + 1;
    && Took(t, u, h, limit)
    && Inv(s, u) && KeysEnrolled(s, u, keys) && KeysAreMembers(s, u, h, keys)
    && u.blocks.Keys == t.blocks.Keys + {h}
    && Signatures(u, h).Keys == Signers(keys, k)
    && u.blocks[h].header.quorumThreshold == threshold
    && |Pending(u)| == if limit < |Pending(t)| then |Pending(t)| - limit else 0
  }

  lemma KeysStayEnrolled(s: Suite, t: Tables, u: Tables, keys: Keys)
    requires KeysEnrolled(s, t, keys) && u.authorities == t.authorities
    ensures KeysEnrolled(s, u, keys)
  {
    assert ActiveKeys(u) == ActiveKeys(t);
  }

  lemma SignMore(s: Suite, t: Tables, u: Tables, limit: nat, threshold: int, keys: Keys, k: nat, now: int)
    requires k < |keys| && Underway(s, t, u, limit, threshold, keys, k)
    ensures var r := Sign(s, u, |t.blocks| + 1, keys[k].0, keys[k].1, now);
            r.Ok? && Underway(s, t, r.value.0, limit, threshold, keys, k + 1) && r.value.1 == r.value.0.blocks[|t.blocks| + 1].status
  {
    NextSigner(s, u, |t.blocks| + 1, keys, k, now);
    var v := Sign(s, u, |t.blocks| + 1, keys[k].0, keys[k].1, now).value.0;
    KeysStayEnrolled(s, u, v, keys);
    TookMore(t, u, v, |t.blocks| + 1, limit);
  }

  lemma TookMore(t: Tables, u: Tables, v: Tables, h: int, limit: nat)
    requires Took(t, u, h, limit) && Extends(u, v) && SameChains(u, v) && h in u.blocks
    ensures Took(t, v, h, limit)
  {
    ExtendsTransitive(t, u, v);
    assert BlockKept(u, v, h);
  }

  lemma ClaimsUnderway(s: Suite, t: Tables, u: Tables, row: BlockRow, hashes: seq<Bytes>, keys: Keys)
    requires KeysEnrolled(s, t, keys) && Claims(t, u, row, hashes, ActiveAuthorities(t))
    ensures KeysEnrolled(s, u, keys) && KeysAreMembers(s, u, row.header.height, keys)
    ensures u.blocks.Keys == t.blocks.Keys + {row.header.height} && u.blocks[row.header.height] == row
    ensures Signatures(u, row.header.height).Keys == Signers(keys, 0)
  {
    SnapshotHasKeys(s, t, u, row, hashes, keys);
    KeysStayEnrolled(s, t, u, keys);
    assert Signers(keys, 0) == {};
  }

  lemma ProposalTakes(s: Suite, t: Tables, u: Tables, row: BlockRow, limit: nat, authorities: Snapshot)
    requires Inv(s, t) && CreateProposal(t, row, Selection(t, limit), authorities) == Ok(u)
    ensures Took(t, u, row.header.height, limit)
    ensures |Pending(u)| == if limit < |Pending(t)| then |Pending(t)| - limit else 0
  {
    ProposalEffect(t, u, row, Selection(t, limit), authorities);
    ProposalClaimsSelection(t, u, row, limit, authorities);
    CreateProposalExtends(s, t, u, row, Selection(t, limit), authorities);
  }

  lemma ProposalUnsigned(s: Suite, t: Tables, u: Tables, row: BlockRow, hashes: seq<Bytes>, keys: Keys)
    requires ChildrenInv(t) && KeysEnrolled(s, t, keys) && CreateProposal(t, row, hashes, ActiveAuthorities(t)) == Ok(u)
    ensures KeysEnrolled(s, u, keys) && KeysAreMembers(s, u, row.header.height, keys)
    ensures u.blocks.Keys == t.blocks.Keys + {row.header.height} && u.blocks[row.header.height] == row
    ensures Signatures(u, row.header.height).Keys == Signers(keys, 0)
  {
    ProposalEffect(t, u, row, hashes, ActiveAuthorities(t));
    ClaimsUnderway(s, t, u, row, hashes, keys);
  }

  lemma ProposalUnderway(s: Suite, t: Tables, u: Tables, row: BlockRow, limit: nat, keys: Keys)
    requires Inv(s, t) && KeysEnrolled(s, t, keys)
    requires ProposalReady(s, t, row, Selection(t, limit), ActiveAuthorities(t))
    requires CreateProposal(t, row, Selection(t, limit), ActiveAuthorities(t)) == Ok(u)
    ensures row.header.height == |t.blocks| + 1 && Underway(s, t, u, limit, row.header.quorumThreshold, keys, 0)
  {
    CreateProposalKeepsInv(s, t, u, row, Selection(t, limit), ActiveAuthorities(t));
    ProposalExtendsChain(t, row, Selection(t, limit), ActiveAuthorities(t));
    ProposalUnsigned(s, t, u, row, Selection(t, limit), keys);
    ProposalTakes(s, t, u, row, limit, ActiveAuthorities(t));
  }

  ghost predicate NothingToSeal(t: Tables, maxEvents: int) {
    maxEvents < 1 || maxEvents > 10000 || ProposalOpen(t) || Pending(t) == {}
  }

  /** An uninterrupted proposer stores its draft unless the header's hash clashes. */
  lemma DraftUnderway(s: Suite, t: Tables, cfg: Settings, keys: Keys, maxEvents: int, now: int, d: Draft)
    requires Inv(s, t) && KeysEnrolled(s, t, keys) && keys != [] && cfg.quorumThreshold >= 1
    requires DraftBlock(s, t, cfg, keys[0].0, keys[0].1, maxEvents, now) == Ok(d)
    ensures d.header.height == |t.blocks| + 1
    ensures maxEvents >= 1
    ensures match CreateProposal(t, NewBlockRow(s, d.header), d.hashes, d.authorities)
            case Ok(u) => Underway(s, t, u, maxEvents, cfg.quorumThreshold, keys, 0)
            case Err(_) => HashClash(s, t, d.header)
  {
    hide Inv, KeysEnrolled, DraftBlock, CommitsTo, HashClash, Underway, CreateProposal;
    DraftHeads(s, t, cfg, keys[0].0, keys[0].1, maxEvents, now, d);
    DraftIsReady(s, t, cfg, keys[0].0, keys[0].1, maxEvents, now);
    DraftIsStored(s, t, d.header, maxEvents);
    var created := CreateProposal(t, NewBlockRow(s, d.header), d.hashes, d.authorities);
    if created.Ok? {
      ProposalUnderway(s, t, created.value, NewBlockRow(s, d.header), maxEvents, keys);
    }
  }

  /** The header that would be proposed has the hash of a stored block. */
  ghost predicate Blocked(s: Suite, t: Tables, cfg: Settings, keys: Keys, maxEvents: int, now: int)
    requires keys != []
  {
    var draft := DraftBlock(s, t, cfg, keys[0].0, keys[0].1, maxEvents, now);
    draft.Ok? && HashClash(s, t, draft.value.header)
  }

  /** What an uninterrupted call of ProposeBlock by the gateway leads to. */
  ghost predicate FirstSigned(s: Suite, t: Tables, u: Tables, r: Result<ProposalReport, LedgerError>, cfg: Settings, keys: Keys, maxEvents: int, now: int)
    requires keys != []
  {
    match r
    case Ok(report) =>
      && !NothingToSeal(t, maxEvents) && !Blocked(s, t, cfg, keys, maxEvents, now)
      && Underway(s, t, u, maxEvents, cfg.quorumThreshold, keys, 1)
      && report.height == |t.blocks| + 1 && report.status == u.blocks[|t.blocks| + 1].status
    case Err(_) =>
      u == t && (NothingToSeal(t, maxEvents) || Blocked(s, t, cfg, keys, maxEvents, now))
  }

  lemma ProposeUnfolds(s: Suite, t: Tables, cfg: Settings, id: string, key: KeyPair, maxEvents: int, now: int, signedAt: int, d: Draft, u: Tables)
    requires DraftBlock(s, t, cfg, id, key, maxEvents, now) == Ok(d)
    requires CreateProposal(t, NewBlockRow(s, d.header), d.hashes, d.authorities) == Ok(u)
    requires Sign(s, u, d.header.height, id, key, signedAt).Ok?
    ensures var (v, r) := Propose(s, t, cfg, id, key, maxEvents, now, signedAt);
            && v == Sign(s, u, d.header.height, id, key, signedAt).value.0
            && r.Ok? && r.value.height == d.header.height && r.value.status == Sign(s, u, d.header.height, id, key, signedAt).value.1
  {
  }

  lemma StoredIsNotBlocked(s: Suite, t: Tables, cfg: Settings, keys: Keys, maxEvents: int, now: int, d: Draft)
    requires keys != [] && DraftBlock(s, t, cfg, keys[0].0, keys[0].1, maxEvents, now) == Ok(d)
    requires CreateProposal(t, NewBlockRow(s, d.header), d.hashes, d.authorities).Ok?
    ensures !Blocked(s, t, cfg, keys, maxEvents, now)
  {
    hide DraftBlock, SlotConflict, MemberConflict, ProposalOpen, Pending;
  }

  lemma IsFirstSigned(s: Suite, t: Tables, v: Tables, report: ProposalReport, cfg: Settings, keys: Keys, maxEvents: int, now: int)
    requires keys != [] && !NothingToSeal(t, maxEvents) && !Blocked(s, t, cfg, keys, maxEvents, now)
    requires Underway(s, t, v, maxEvents, cfg.quorumThreshold, keys, 1)
    requires report.height == |t.blocks| + 1 && report.status == v.blocks[|t.blocks| + 1].status
    ensures FirstSigned(s, t, v, Ok(report), cfg, keys, maxEvents, now)
  {
    hide Underway, Blocked, Pending, ProposalOpen;
  }

  lemma FirstSignature(s: Suite, t: Tables, cfg: Settings, keys: Keys, maxEvents: int, now: int, signedAt: int, d: Draft, u: Tables)
    requires keys != [] && !NothingToSeal(t, maxEvents) && Underway(s, t, u, maxEvents, cfg.quorumThreshold, keys, 0)
    requires DraftBlock(s, t, cfg, keys[0].0, keys[0].1, maxEvents, now) == Ok(d) && d.header.height == |t.blocks| + 1
    requires CreateProposal(t, NewBlockRow(s, d.header), d.hashes, d.authorities) == Ok(u)
    ensures var (v, r) := Propose(s, t, cfg, keys[0].0, keys[0].1, maxEvents, now, signedAt);
            FirstSigned(s, t, v, r, cfg, keys, maxEvents, now)
  {
    hide Underway, Propose, DraftBlock, CreateProposal, Sign, Blocked, Pending, ProposalOpen, FirstSigned;
    StoredIsNotBlocked(s, t, cfg, keys, maxEvents, now, d);
    SignMore(s, t, u, maxEvents, cfg.quorumThreshold, keys, 0, signedAt);
    ProposeUnfolds(s, t, cfg, keys[0].0, keys[0].1, maxEvents, now, signedAt, d, u);
    var (v, r) := Propose(s, t, cfg, keys[0].0, keys[0].1, maxEvents, now, signedAt);
    IsFirstSigned(s, t, v, r.value, cfg, keys, maxEvents, now);
  }

  /** Proposing stores the block and the first signature, unless there is nothing to seal or the header's hash clashes. */
  lemma ProposeFirst(s: Suite, t: Tables, cfg: Settings, keys: Keys, maxEvents: int, now: int, signedAt: int)
    requires Inv(s, t) && KeysEnrolled(s, t, keys) && keys != [] && 1 <= cfg.quorumThreshold <= |keys|
    ensures var (u, r) := Propose(s, t, cfg, keys[0].0, keys[0].1, maxEvents, now, signedAt);
            FirstSigned(s, t, u, r, cfg, keys, maxEvents, now)
  {
    DraftSucceeds(s, t, cfg, keys, maxEvents, now);
    var draft := DraftBlock(s, t, cfg, keys[0].0, keys[0].1, maxEvents, now);
    if draft.Ok? {
      var d := draft.value;
      DraftUnderway(s, t, cfg, keys, maxEvents, now, d);
      var created := CreateProposal(t, NewBlockRow(s, d.header), d.hashes, d.authorities);
      if created.Ok? {
        FirstSignature(s, t, cfg, keys, maxEvents, now, signedAt, d, created.value);
      }
    }
  }

  /** The outcome of sealing: the next block is final, with exactly a quorum of signatures and the oldest pending events. */
  ghost predicate Sealed(s: Suite, t: Tables, u: Tables, limit: nat, threshold: int, keys: Keys) {
    var h := |t.blocks| + 1;
    && Took(t, u, h, limit)
    && Inv(s, u) && KeysEnrolled(s, u, keys)
    && u.blocks.Keys == t.blocks.Keys + {h}
    && u.blocks[h].status == Finalized && |Signatures(u, h)| == threshold
    && u.blocks[h].header.quorumThreshold == threshold
    && |Pending(u)| == if limit < |Pending(t)| then |Pending(t)| - limit else 0
  }

  lemma {:induction false} SignerCount(keys: Keys, k: nat)
    requires k <= |keys| && forall i, j :: 0 <= i < j < |keys| ==> keys[i].0 != keys[j].0
    ensures |Signers(keys, k)| == k
  {
    if k > 0 {
      SignerCount(keys, k - 1);
      MoreSigners(keys, k - 1);
    }
  }

  lemma SignedByQuorum(s: Suite, t: Tables, u: Tables, limit: nat, threshold: int, keys: Keys, k: nat)
    requires k <= |keys| && Underway(s, t, u, limit, threshold, keys, k)
    ensures |Signatures(u, |t.blocks| + 1)| == k
    ensures u.blocks[|t.blocks| + 1].status == Finalized <==> k >= threshold
    ensures k == threshold ==> Sealed(s, t, u, limit, threshold, keys)
  {
    SignerCount(keys, k);
    assert BlockInv(s, u, |t.blocks| + 1);
    assert |Signatures(u, |t.blocks| + 1).Keys| == k;
  }

  /** Signs with the authorities from number k on until the block is final; the first failure ends it. */
  ghost function SignUntilFinal(s: Suite, t: Tables, h: int, keys: Keys, k: nat, status: BlockStatus, clock: nat -> int)
    : (Tables, Result<BlockStatus, LedgerError>)
    requires k <= |keys|
    decreases |keys| - k
  {
    if status == Finalized || k == |keys| then (t, Ok(status))
    else
      match Sign(s, t, h, keys[k].0, keys[k].1, clock(k + 1))
      case Err(e) => (t, Err(e))
      case Ok((u, next)) => SignUntilFinal(s, u, h, keys, k + 1, next, clock)
  }

  /** Proposing with the gateway's own key and signing with its other authorities: the tables after the call and its result. */
  ghost function Seal(s: Suite, t: Tables, cfg: Settings, keys: Keys, maxEvents: int, clock: nat -> int)
    : (Tables, Result<ProposalReport, LedgerError>)
    requires keys != []
  {
    match Propose(s, t, cfg, keys[0].0, keys[0].1, maxEvents, clock(0), clock(1))
    case (u, Err(e)) => (u, Err(e))
    case (u, Ok(report)) =>
      match SignUntilFinal(s, u, report.height, keys, 1, report.status, clock)
      case (v, Err(e)) => (v, Err(e))
      case (v, Ok(status)) => (v, Ok(report.(status := status, signatures := |Signatures(v, report.height)|)))
  }

  /** The signature that completes the quorum sets the time. */
  lemma SignedSince(s: Suite, t: Tables, u: Tables, limit: nat, threshold: int, keys: Keys, k: nat, now: int)
    requires k < |keys| && k < threshold && Underway(s, t, u, limit, threshold, keys, k)
    ensures var r := Sign(s, u, |t.blocks| + 1, keys[k].0, keys[k].1, now);
            r.Ok? && r.value.1 == Finalized ==> |t.blocks| + 1 in r.value.0.blocks && r.value.0.blocks[|t.blocks| + 1].finalizedAtMs == Some(now)
  {
    hide Inv, KeysEnrolled, KeysAreMembers, Took, OnlySignedAt;
    SignedByQuorum(s, t, u, limit, threshold, keys, k);
    SignOutcome(s, u, |t.blocks| + 1, keys[k].0, keys[k].1, now);
  }

  lemma {:induction false} SigningCompletes(s: Suite, t: Tables, u: Tables, limit: nat, threshold: int, keys: Keys, k: nat, status: BlockStatus, clock: nat -> int)
    requires k <= |keys| && k <= threshold <= |keys| && Underway(s, t, u, limit, threshold, keys, k)
    requires status == u.blocks[|t.blocks| + 1].status
    ensures var (v, r) := SignUntilFinal(s, u, |t.blocks| + 1, keys, k, status, clock);
            && r == Ok(Finalized) && Sealed(s, t, v, limit, threshold, keys)
            && |Signatures(v, |t.blocks| + 1)| == threshold
            && (k < threshold ==> v.blocks[|t.blocks| + 1].finalizedAtMs == Some(clock(threshold)))
    decreases |keys| - k
  {
    hide Inv, KeysEnrolled, KeysAreMembers, Took, Sign, Pending, Signers;
    SignedByQuorum(s, t, u, limit, threshold, keys, k);
    if k < threshold {
      SignedSince(s, t, u, limit, threshold, keys, k, clock(k + 1));
      SignMore(s, t, u, limit, threshold, keys, k, clock(k + 1));
      var (v, next) := Sign(s, u, |t.blocks| + 1, keys[k].0, keys[k].1, clock(k + 1)).value;
      SignedByQuorum(s, t, v, limit, threshold, keys, k + 1);
      SigningCompletes(s, t, v, limit, threshold, keys, k + 1, next, clock);
    }
  }

  /** What sealing leads to: a final block with exactly a quorum of signatures, or nothing. */
  ghost predicate SealingEnds(s: Suite, t: Tables, u: Tables, r: Result<ProposalReport, LedgerError>, cfg: Settings, keys: Keys, maxEvents: int) {
    match r
    case Ok(report) =>
      && maxEvents >= 1 && Sealed(s, t, u, maxEvents, cfg.quorumThreshold, keys)
      && report.height == |t.blocks| + 1 && report.status == Finalized && report.signatures == cfg.quorumThreshold
    case Err(_) => u == t
  }

  /**
   * With a threshold the gateway's own authorities can reach, sealing ends in a final
   * block, except exactly when there is nothing to seal or the header's hash clashes.
   */
  lemma SealOutcome(s: Suite, t: Tables, cfg: Settings, keys: Keys, maxEvents: int, clock: nat -> int)
    requires Inv(s, t) && KeysEnrolled(s, t, keys) && keys != [] && 1 <= cfg.quorumThreshold <= |keys|
    ensures var (u, r) := Seal(s, t, cfg, keys, maxEvents, clock);
            && SealingEnds(s, t, u, r, cfg, keys, maxEvents)
            && (r.Err? <==> NothingToSeal(t, maxEvents) || Blocked(s, t, cfg, keys, maxEvents, clock(0)))
  {
    ProposeFirst(s, t, cfg, keys, maxEvents, clock(0), clock(1));
    var (u, r) := Propose(s, t, cfg, keys[0].0, keys[0].1, maxEvents, clock(0), clock(1));
    if r.Ok? {
      SigningCompletes(s, t, u, maxEvents, cfg.quorumThreshold, keys, 1, r.value.status, clock);
    }
  }

  lemma {:induction false} SigningExtends(s: Suite, t: Tables, h: int, keys: Keys, k: nat, status: BlockStatus, clock: nat -> int)
    requires Inv(s, t) && k <= |keys|
    ensures Extends(t, SignUntilFinal(s, t, h, keys, k, status, clock).0)
    decreases |keys| - k
  {
    hide Inv, Extends, Sign;
    ExtendsSelf(t);
    if status != Finalized && k < |keys| {
      SignKeepsInv(s, t, h, keys[k].0, keys[k].1, clock(k + 1));
      var signed := Sign(s, t, h, keys[k].0, keys[k].1, clock(k + 1));
      if signed.Ok? {
        SigningExtends(s, signed.value.0, h, keys, k + 1, signed.value.1, clock);
        ExtendsTransitive(t, signed.value.0, SignUntilFinal(s, t, h, keys, k, status, clock).0);
      }
    }
  }

  lemma KeptNextBlock(s: Suite, t: Tables, u: Tables, v: Tables, h: int, cfg: Settings, id: string, maxEvents: nat, now: int)
    requires NextBlock(s, t, u, h, cfg, id, maxEvents, now) && Extends(u, v) && v.blocks.Keys == t.blocks.Keys + {h}
    ensures NextBlock(s, t, v, h, cfg, id, maxEvents, now) && v.blocks[h].header == u.blocks[h].header && v.blocks[h].blockHash == u.blocks[h].blockHash
  {
    hide Extends, Selection, Heads, CommitsTo, MembersAreActive, EventHashes, SnapshotAt;
    KeptBlock(u, v, h);
    SameRows(u, v, h);
    SignedActive(t, u, v, h);
  }

  lemma SameRows(u: Tables, v: Tables, h: int)
    requires Slots(v, h) == Slots(u, h) && Members(v, h) == Members(u, h)
    ensures EventHashes(v, h) == EventHashes(u, h) && SnapshotAt(v, h) == SnapshotAt(u, h)
  {
  }

  lemma KeptBlock(u: Tables, v: Tables, h: int)
    requires Extends(u, v) && h in u.blocks
    ensures BlockKept(u, v, h)
  {
  }

  /** More signatures on a proposal leave it the next block, and the report can be brought up to date. */
  lemma MoreSignedReports(s: Suite, t: Tables, p: Tables, u: Tables, first: ProposalReport, cfg: Settings, key: KeyPair, id: string, maxEvents: nat, now: int, signedAt: int)
    requires Proposes(s, t, p, first, cfg, id, key, maxEvents, now, signedAt)
    requires Extends(p, u) && u.blocks.Keys == t.blocks.Keys + {first.height}
    ensures Reports(u, first.(status := u.blocks[first.height].status, signatures := |Signatures(u, first.height)|))
    ensures NextBlock(s, t, u, first.height, cfg, id, maxEvents, now)
  {
    hide Extends, NextBlock;
    KeptNextBlock(s, t, p, u, first.height, cfg, id, maxEvents, now);
  }

  /** The block is final since the reading of the signature that completed its quorum. */
  lemma SealedTime(s: Suite, t: Tables, cfg: Settings, keys: Keys, maxEvents: int, clock: nat -> int)
    requires Inv(s, t) && KeysEnrolled(s, t, keys) && keys != [] && 1 <= cfg.quorumThreshold <= |keys|
    ensures var (u, r) := Seal(s, t, cfg, keys, maxEvents, clock);
            r.Ok? ==> |t.blocks| + 1 in u.blocks && u.blocks[|t.blocks| + 1].finalizedAtMs == Some(clock(cfg.quorumThreshold))
  {
    hide Inv, Propose, NextBlock, KeysEnrolled, KeysAreMembers, Blocked, Took, NothingToSeal, MayPropose, ClashAhead, SignedAlone, Reports, Extends, Pending, Signers;
    ProposeFirst(s, t, cfg, keys, maxEvents, clock(0), clock(1));
    ProposeOutcome(s, t, cfg, keys[0].0, keys[0].1, maxEvents, clock(0), clock(1));
    var (u, r) := Propose(s, t, cfg, keys[0].0, keys[0].1, maxEvents, clock(0), clock(1));
    if r.Ok? {
      SignedByQuorum(s, t, u, maxEvents, cfg.quorumThreshold, keys, 1);
      SigningCompletes(s, t, u, maxEvents, cfg.quorumThreshold, keys, 1, r.value.status, clock);
    }
  }

  lemma SealedAdds(s: Suite, t: Tables, u: Tables, report: ProposalReport, cfg: Settings, keys: Keys, maxEvents: int)
    requires SealingEnds(s, t, u, Ok(report), cfg, keys, maxEvents)
    ensures maxEvents >= 1 && report.height == |t.blocks| + 1 && report.status == Finalized
    ensures u.blocks.Keys == t.blocks.Keys + {report.height} && u.blocks[report.height].status == Finalized
  {
    hide Inv, KeysEnrolled, Took, Pending;
  }

  lemma SealAddsBlock(s: Suite, t: Tables, cfg: Settings, keys: Keys, maxEvents: int, clock: nat -> int)
    requires Inv(s, t) && KeysEnrolled(s, t, keys) && keys != [] && 1 <= cfg.quorumThreshold <= |keys|
    ensures var (u, r) := Seal(s, t, cfg, keys, maxEvents, clock);
            r.Ok? ==> && maxEvents >= 1 && r.value.height == |t.blocks| + 1 && r.value.status == Finalized
                      && u.blocks.Keys == t.blocks.Keys + {r.value.height} && u.blocks[r.value.height].status == Finalized
  {
    hide Inv, Seal, KeysEnrolled, Blocked, NothingToSeal, SealingEnds;
    SealOutcome(s, t, cfg, keys, maxEvents, clock);
    var (u, r) := Seal(s, t, cfg, keys, maxEvents, clock);
    if r.Ok? {
      SealedAdds(s, t, u, r.value, cfg, keys, maxEvents);
    }
  }

  /** The sealed block is the next one, by the gateway's first authority, and the answer reports what is stored of it. */
  lemma SealedBlock(s: Suite, t: Tables, cfg: Settings, keys: Keys, maxEvents: int, clock: nat -> int)
    requires Inv(s, t) && KeysEnrolled(s, t, keys) && keys != [] && 1 <= cfg.quorumThreshold <= |keys|
    ensures var (u, r) := Seal(s, t, cfg, keys, maxEvents, clock);
            r.Ok? ==> maxEvents >= 1 && Reports(u, r.value) && NextBlock(s, t, u, r.value.height, cfg, keys[0].0, maxEvents, clock(0))
  {
    hide Inv, Extends, Propose, NextBlock, KeysEnrolled, MayPropose, ClashAhead, Proposes, Reports, SignUntilFinal;
    SealAddsBlock(s, t, cfg, keys, maxEvents, clock);
    var (u, r) := Seal(s, t, cfg, keys, maxEvents, clock);
    if r.Ok? {
      ProposeOutcome(s, t, cfg, keys[0].0, keys[0].1, maxEvents, clock(0), clock(1));
      ProposeKeepsInv(s, t, cfg, keys[0].0, keys[0].1, maxEvents, clock(0), clock(1));
      var (p, first) := Propose(s, t, cfg, keys[0].0, keys[0].1, maxEvents, clock(0), clock(1));
      SigningExtends(s, p, first.value.height, keys, 1, first.value.status, clock);
      MoreSignedReports(s, t, p, u, first.value, cfg, keys[0].1, keys[0].0, maxEvents, clock(0), clock(1));
    }
  }

  /** The block is the next one, by the gateway's first authority, final since the signature that completed its quorum, and reported as stored. */
  ghost predicate SealedAs(s: Suite, t: Tables, u: Tables, r: ProposalReport, cfg: Settings, keys: Keys, maxEvents: int, clock: nat -> int)
    requires keys != [] && cfg.quorumThreshold >= 1
  {
    && maxEvents >= 1 && NextBlock(s, t, u, r.height, cfg, keys[0].0, maxEvents, clock(0))
    && Reports(u, r) && u.blocks[r.height].finalizedAtMs == Some(clock(cfg.quorumThreshold))
  }

  lemma SealAnswers(s: Suite, t: Tables, cfg: Settings, keys: Keys, maxEvents: int, clock: nat -> int)
    requires Inv(s, t) && KeysEnrolled(s, t, keys) && keys != [] && 1 <= cfg.quorumThreshold <= |keys|
    ensures var (u, r) := Seal(s, t, cfg, keys, maxEvents, clock);
            r.Ok? ==> SealedAs(s, t, u, r.value, cfg, keys, maxEvents, clock)
  {
    hide Inv, KeysEnrolled, Seal, Reports, CommitsTo, MembersAreActive, Selection;
    SealedBlock(s, t, cfg, keys, maxEvents, clock);
    SealedTime(s, t, cfg, keys, maxEvents, clock);
  }

  /** The ledger is sound and the keys can make a quorum. */
  ghost predicate CanSeal(ledger: Ledger, keys: Keys)
    reads ledger.database
  {
    && Inv(ledger.suite, ledger.State()) && KeysEnrolled(ledger.suite, ledger.State(), keys)
    && keys != [] && 1 <= ledger.settings.quorumThreshold <= |keys|
  }

  /** Proposes with the gateway's own key and signs with its other authorities until the block is final. */
  method ProposeAndFinalize(ledger: Ledger, keys: Keys, maxEvents: int, clock: nat -> int) returns (r: Result<ProposalReport, LedgerError>)
    requires keys != []
    modifies ledger.database
    ensures (ledger.State(), r) == Seal(ledger.suite, old(ledger.State()), ledger.settings, keys, maxEvents, clock)
    ensures old(CanSeal(ledger, keys)) && r.Ok? ==> SealedAs(ledger.suite, old(ledger.State()), ledger.State(), r.value, ledger.settings, keys, maxEvents, clock)
  {
    hide Inv, KeysEnrolled, SealedAs;
    if CanSeal(ledger, keys) {
      SealAnswers(ledger.suite, ledger.State(), ledger.settings, keys, maxEvents, clock);
    }
    var first := ledger.ProposeBlock(keys[0].0, keys[0].1, maxEvents, clock(0), clock(1));
    if first.Err? {
      return Err(first.error);
    }
    var h, status, k := first.value.height, first.value.status, 1;
    ghost var whole := SignUntilFinal(ledger.suite, ledger.State(), h, keys, 1, status, clock);
    while status != Finalized && k < |keys|
      invariant 1 <= k <= |keys| && SignUntilFinal(ledger.suite, ledger.State(), h, keys, k, status, clock) == whole
      decreases |keys| - k
    {
      var signed := ledger.SignBlock(h, keys[k].0, keys[k].1, clock(k + 1));
      if signed.Err? {
        return Err(signed.error);
      }
      status, k := signed.value, k + 1;
    }
    r := Ok(first.value.(status := status, signatures := |Signatures(ledger.State(), h)|));
  }

  /** How many blocks of at most `limit` events hold n events. */
  function BlocksFor(n: nat, limit: nat): nat
    requires limit > 0
  {
    (n + limit - 1) / limit
  }

  lemma OneBlockLess(n: nat, limit: nat)
    requires n > 0 && limit > 0
    ensures BlocksFor(n, limit) == 1 + BlocksFor(if limit < n then n - limit else 0, limit)
  {
    QuotientIs(limit - 1, limit, 0, limit - 1);
    if limit < n {
      Distribute(1 + (n - 1) / limit, 1, limit);
      QuotientIs(n + limit - 1, limit, 1 + (n - 1) / limit, (n - 1) % limit);
    } else {
      QuotientIs(n + limit - 1, limit, 1, n - 1);
    }
  }

  /** What holds between two seals. */
  ghost predicate Ready(s: Suite, t: Tables, keys: Keys) {
    Inv(s, t) && KeysEnrolled(s, t, keys) && !ProposalOpen(t)
  }

  function Least(m: int, n: int): int { if m < n then m else n }

  /** Seals until nothing is pending: exactly as many blocks as the events need. */
  method Drain(ledger: Ledger, keys: Keys, blockSize: int, clock: (nat, nat) -> int) returns (sealed: nat, error: Option<LedgerError>)
    requires Ready(ledger.suite, ledger.State(), keys)
    requires keys != [] && 1 <= ledger.settings.quorumThreshold <= |keys|
    requires 1 <= blockSize <= 10000
    modifies ledger.database
    ensures Ready(ledger.suite, ledger.State(), keys)
    ensures |ledger.State().blocks| == |old(ledger.State()).blocks| + sealed
    ensures error.None? ==> Pending(ledger.State()) == {} && sealed == BlocksFor(|Pending(old(ledger.State()))|, blockSize)
    ensures error.Some? ==> Blocked(ledger.suite, ledger.State(), ledger.settings, keys, Least(blockSize, |Pending(ledger.State())|), clock(sealed, 0))
  {
    hide Inv, KeysEnrolled, Blocked, Ready, Pending;
    sealed, error := 0, None;
    var pending := ledger.database.PendingCount();
    while pending > 0
      invariant error.None? && pending == |Pending(ledger.State())| && Ready(ledger.suite, ledger.State(), keys)
      invariant sealed + BlocksFor(pending, blockSize) == BlocksFor(|Pending(old(ledger.State()))|, blockSize)
      invariant |ledger.State().blocks| == |old(ledger.State()).blocks| + sealed
      decreases pending
    {
      OneBlockLess(pending, blockSize);
      var round: nat := sealed;
      error := SealNext(ledger, keys, blockSize, pending, (k: nat) => clock(round, k));
      if error.Some? {
        return;
      }
      pending := ledger.database.PendingCount();
      sealed := sealed + 1;
    }
    QuotientIs(blockSize - 1, blockSize, 0, blockSize - 1);
  }

  /** Sealing what is pending, in a state with nothing open, fails only on a clash and takes a block's worth of events. */
  lemma RoundOutcome(s: Suite, t: Tables, cfg: Settings, keys: Keys, limit: int, clock: nat -> int)
    requires Ready(s, t, keys) && keys != [] && 1 <= cfg.quorumThreshold <= |keys|
    requires 1 <= limit <= 10000 && Pending(t) != {}
    ensures var (u, r) := Seal(s, t, cfg, keys, limit, clock);
            && (r.Ok? ==> Ready(s, u, keys) && |u.blocks| == |t.blocks| + 1)
            && (r.Ok? ==> |Pending(u)| == if limit < |Pending(t)| then |Pending(t)| - limit else 0)
            && (r.Err? ==> u == t && Blocked(s, t, cfg, keys, limit, clock(0)))
  {
    SealOutcome(s, t, cfg, keys, limit, clock);
    var (u, r) := Seal(s, t, cfg, keys, limit, clock);
    if r.Ok? {
      SealedIsClosed(s, t, u, limit, cfg.quorumThreshold, keys);
    }
  }

  /** One round of draining. */
  method SealNext(ledger: Ledger, keys: Keys, blockSize: int, pending: nat, clock: nat -> int) returns (error: Option<LedgerError>)
    requires Ready(ledger.suite, ledger.State(), keys) && pending == |Pending(ledger.State())| > 0
    requires keys != [] && 1 <= ledger.settings.quorumThreshold <= |keys|
    requires 1 <= blockSize <= 10000
    modifies ledger.database
    ensures Ready(ledger.suite, ledger.State(), keys)
    ensures error.None? ==> |ledger.State().blocks| == |old(ledger.State()).blocks| + 1
    ensures error.None? ==> |Pending(ledger.State())| == if blockSize < pending then pending - blockSize else 0
    ensures error.Some? ==> ledger.State() == old(ledger.State())
    ensures error.Some? ==> Blocked(ledger.suite, ledger.State(), ledger.settings, keys, Least(blockSize, pending), clock(0))
  {
    var limit := Least(blockSize, pending);
    RoundOutcome(ledger.suite, ledger.State(), ledger.settings, keys, limit, clock);
    var result := ProposeAndFinalize(ledger, keys, limit, clock);
    error := match result case Ok(_) => None case Err(e) => Some(e);
  }

  lemma SealedIsClosed(s: Suite, t: Tables, u: Tables, limit: nat, threshold: int, keys: Keys)
    requires Inv(s, t) && Sealed(s, t, u, limit, threshold, keys)
    ensures !ProposalOpen(u) && |u.blocks| == |t.blocks| + 1
  {
    var h := |t.blocks| + 1;
    assert h !in t.blocks;
    assert |u.blocks.Keys| == |t.blocks.Keys| + 1;
    forall k | k in u.blocks ensures u.blocks[k].status == Finalized {
      assert BlockInv(s, u, k);
    }
  }
}
