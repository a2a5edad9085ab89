/** The ledger operations over the tables: their checks, in order, and what each stores. */
module LedgerOperations {
  import opened Primitives
  import opened Models
  import opened Store
  import opened Merkle
  import opened MerkleTheory
  import opened Audit
  import opened Invariant
  import opened Proposal
  import opened Growth
  import opened Interleaving

  datatype Settings = Settings(quorumThreshold: int, policyHash: Bytes)

  datatype LedgerError =
    | BadIdentifier | BadKeyLength | BadThreshold
    | BadVersion | SequenceNotPositive | BadEventType | UnknownDevice | InactiveDevice | Unencodable | BadDeviceSignature
    | BadLimit | BlockOpen | TooFewAuthorities | NotAnAuthority | WrongKey | NothingPending
    | UnknownBlock | NotAMember | SelfCheckFailed | BadAuthoritySignature
    | Unassigned | PositionOutOfRange
    | Refused(cause: StoreError)

  predicate GoodName(name: string) { 1 <= |name| <= 128 }

  // ---------------------------------------------------------------------------
  // Accepting an event
  // ---------------------------------------------------------------------------

  /** The checks made before the transaction; None when all of them pass. */
  function Objection(s: Suite, t: Tables, e: SignedEvent): Option<LedgerError> {
    if e.version != 1 then Some(BadVersion)
    else if e.sequence < 1 then Some(SequenceNotPositive)
    else if !GoodName(e.eventType) then Some(BadEventType)
    else if e.deviceId !in t.devices then Some(UnknownDevice)
    else if t.devices[e.deviceId].status != Active then Some(InactiveDevice)
    else if !Encodable(e) then Some(Unencodable)
    else if !s.verify(t.devices[e.deviceId].publicKey, e.signature, SigningBytes(s, e)) then Some(BadDeviceSignature)
    else None
  }

  ghost function Accept(s: Suite, t: Tables, e: SignedEvent, now: int): Result<(Tables, bool), LedgerError> {
    match Objection(s, t, e)
    case Some(error) => Err(error)
    case None =>
      match InsertEvent(s, t, e, s.encode(Map(e.payload)), now)
      case Ok(r) => Ok(r)
      case Err(cause) => Err(Refused(cause))
  }

  lemma AcceptKeepsInv(s: Suite, t: Tables, e: SignedEvent, now: int)
    requires Lawful(s) && Inv(s, t)
    ensures var r := Accept(s, t, e, now); r.Ok? ==> Inv(s, r.value.0) && Extends(t, r.value.0)
  {
    if Objection(s, t, e).None? {
      StoreEventInv(s, t, e, s.encode(Map(e.payload)), now);
    }
  }

  /** The stored event and its device's chain after it, or an exact replay of a stored event. */
  predicate NextInChain(t: Tables, e: SignedEvent) {
    && e.deviceId in t.devices
    && e.sequence == t.devices[e.deviceId].lastSequence + 1
    && e.previousEventHash == t.devices[e.deviceId].lastEventHash
  }

  predicate SameBytes(s: Suite, t: Tables, e: SignedEvent)
    requires EventHash(s, e) in t.events
  {
    t.events[EventHash(s, e)].unsigned == SigningBytes(s, e) && t.events[EventHash(s, e)].signature == e.signature
  }

  lemma NextKeyIsFree(s: Suite, t: Tables, d: string)
    requires Inv(s, t) && d in t.devices
    ensures !KeyInUse(t, (d, t.devices[d].lastSequence + 1))
  {
    forall e | e in t.events ensures EventKey(t, e) != (d, t.devices[d].lastSequence + 1) {
      assert EventInv(s, t, e);
    }
  }

  /** Exactly what is accepted: the next event of its chain as new, a stored one as a duplicate. */
  lemma AcceptIff(s: Suite, t: Tables, e: SignedEvent, now: int)
    requires Inv(s, t)
    ensures Accept(s, t, e, now).Ok? && Accept(s, t, e, now).value.1
       <==> Objection(s, t, e).None? && EventHash(s, e) !in t.events && NextInChain(t, e)
    ensures Accept(s, t, e, now) == Ok((t, false))
       <==> Objection(s, t, e).None? && EventHash(s, e) in t.events && SameBytes(s, t, e)
    ensures Accept(s, t, e, now) != Err(Refused(IntegrityError))
  {
    if e.deviceId in t.devices {
      NextKeyIsFree(s, t, e.deviceId);
    }
  }

  // ---------------------------------------------------------------------------
  // Signing
  // ---------------------------------------------------------------------------

  function StoreSignature(t: Tables, h: int, id: string, signature: Bytes, now: int): Result<(Tables, BlockStatus), LedgerError> {
    match InsertSignature(t, h, id, signature, now)
    case Ok(r) => Ok(r)
    case Err(cause) => Err(Refused(cause))
  }

  function AddSignature(s: Suite, t: Tables, h: int, id: string, signature: Bytes, now: int): Result<(Tables, BlockStatus), LedgerError> {
    if h !in t.blocks then Err(UnknownBlock)
    else if id !in Members(t, h) then Err(NotAMember)
    else if !s.verify(Members(t, h)[id], signature, t.blocks[h].blockHash) then Err(BadAuthoritySignature)
    else StoreSignature(t, h, id, signature, now)
  }

  function Sign(s: Suite, t: Tables, h: int, id: string, key: KeyPair, now: int): Result<(Tables, BlockStatus), LedgerError> {
    if h !in t.blocks then Err(UnknownBlock)
    else if id !in Members(t, h) then Err(NotAMember)
    else if key.publicKey != Members(t, h)[id] then Err(WrongKey)
    else if !s.verify(key.publicKey, key.sign(t.blocks[h].blockHash), t.blocks[h].blockHash) then Err(SelfCheckFailed)
    else StoreSignature(t, h, id, key.sign(t.blocks[h].blockHash), now)
  }

  lemma AddSignatureKeepsInv(s: Suite, t: Tables, h: int, id: string, signature: Bytes, now: int)
    requires Inv(s, t)
    ensures var r := AddSignature(s, t, h, id, signature, now); r.Ok? ==> Inv(s, r.value.0) && Extends(t, r.value.0)
  {
    if AddSignature(s, t, h, id, signature, now).Ok? {
      StoreSignatureInv(s, t, h, id, signature, now);
    }
  }

  lemma SignKeepsInv(s: Suite, t: Tables, h: int, id: string, key: KeyPair, now: int)
    requires Inv(s, t)
    ensures var r := Sign(s, t, h, id, key, now); r.Ok? ==> Inv(s, r.value.0) && Extends(t, r.value.0)
  {
    if Sign(s, t, h, id, key, now).Ok? {
      StoreSignatureInv(s, t, h, id, key.sign(t.blocks[h].blockHash), now);
    }
  }

  // ---------------------------------------------------------------------------
  // Proposing
  // ---------------------------------------------------------------------------

  datatype Draft = Draft(header: BlockHeader, hashes: seq<Bytes>, authorities: Snapshot)

  ghost function DraftBlock(s: Suite, t: Tables, cfg: Settings, proposerId: string, key: KeyPair, maxEvents: int, now: int): Result<Draft, LedgerError> {
    if maxEvents < 1 || maxEvents > 10000 then Err(BadLimit)
    else if ProposalOpen(t) then Err(BlockOpen)
    else
      var authorities := ActiveAuthorities(t);
      if |authorities| < cfg.quorumThreshold then Err(TooFewAuthorities)
      else if proposerId !in ActiveKeys(t) then Err(NotAnAuthority)
      else if key.publicKey != ActiveKeys(t)[proposerId] then Err(WrongKey)
      else
        var hashes := Selection(t, maxEvents);
        if hashes == [] then Err(NothingPending)
        else
          var proposer := Proposer(proposerId, cfg.quorumThreshold, cfg.policyHash);
          Ok(Draft(NewHeader(s, proposer, authorities, hashes, LastFinal(t), PreviousHash(t, LastFinal(t)), now), hashes, authorities))
  }

  datatype ProposalReport = ProposalReport(
    height: int, blockHash: Bytes, eventCount: nat, merkleRoot: Bytes,
    status: BlockStatus, signatures: nat, requiredSignatures: int)

  /** The tables after the call and its result: a failure to sign leaves the stored proposal behind. */
  ghost function Propose(s: Suite, t: Tables, cfg: Settings, proposerId: string, key: KeyPair, maxEvents: int, now: int, signedAt: int)
    : (Tables, Result<ProposalReport, LedgerError>)
  {
    match DraftBlock(s, t, cfg, proposerId, key, maxEvents, now)
    case Err(e) => (t, Err(e))
    case Ok(d) =>
      match CreateProposal(t, NewBlockRow(s, d.header), d.hashes, d.authorities)
      case Err(cause) => (t, Err(Refused(cause)))
      case Ok(u) =>
        match Sign(s, u, d.header.height, proposerId, key, signedAt)
        case Err(e) => (u, Err(e))
        case Ok((v, status)) =>
          (v, Ok(ProposalReport(d.header.height, HeaderHash(s, d.header), |d.hashes|, d.header.merkleRoot,
                                status, |Signatures(v, d.header.height)|, cfg.quorumThreshold)))
  }

  lemma DraftIsReady(s: Suite, t: Tables, cfg: Settings, proposerId: string, key: KeyPair, maxEvents: int, now: int)
    requires Inv(s, t) && cfg.quorumThreshold >= 1
    requires DraftBlock(s, t, cfg, proposerId, key, maxEvents, now).Ok?
    ensures var d := DraftBlock(s, t, cfg, proposerId, key, maxEvents, now).value;
            ProposalReady(s, t, NewBlockRow(s, d.header), d.hashes, d.authorities)
  {
    SnapshotIsReady(s, t);
    HeaderIsReady(s, t, Proposer(proposerId, cfg.quorumThreshold, cfg.policyHash), ActiveAuthorities(t), Selection(t, maxEvents), now);
  }

  lemma ProposeKeepsInv(s: Suite, t: Tables, cfg: Settings, proposerId: string, key: KeyPair, maxEvents: int, now: int, signedAt: int)
    requires Inv(s, t) && cfg.quorumThreshold >= 1
    ensures var u := Propose(s, t, cfg, proposerId, key, maxEvents, now, signedAt).0; Inv(s, u) && Extends(t, u)
  {
    ExtendsSelf(t);
    var draft := DraftBlock(s, t, cfg, proposerId, key, maxEvents, now);
    if draft.Ok? {
      var d := draft.value;
      DraftIsReady(s, t, cfg, proposerId, key, maxEvents, now);
      StoreProposalInv(s, t, NewBlockRow(s, d.header), d.hashes, d.authorities);
      var created := CreateProposal(t, NewBlockRow(s, d.header), d.hashes, d.authorities);
      if created.Ok? {
        SignKeepsInv(s, created.value, d.header.height, proposerId, key, signedAt);
        var signed := Sign(s, created.value, d.header.height, proposerId, key, signedAt);
        if signed.Ok? {
          ExtendsTransitive(t, created.value, signed.value.0);
        }
      }
    }
  }

  // ---------------------------------------------------------------------------
  // Membership proofs
  // ---------------------------------------------------------------------------

  datatype EventProof = EventProof(
    eventHash: Bytes, height: int, blockHash: Bytes, merkleRoot: Bytes, position: int, steps: seq<ProofStep>)

  /** In every state that satisfies the invariant, the proof of an assigned event verifies against the stored root. */
  lemma AssignedEventHasProof(s: Suite, t: Tables, e: Bytes, h: int, p: int)
    requires Inv(s, t) && Occupies(t, h, p, e)
    ensures h in t.blocks && 0 <= p < |EventHashes(t, h)| && EventHashes(t, h)[p] == e
    ensures Accepts(s.sha, e, ProofOf(s.sha, EventHashes(t, h), p), t.blocks[h].header.merkleRoot)
    ensures |ProofOf(s.sha, EventHashes(t, h), p)| == Depth(|EventHashes(t, h)|)
    ensures |EventHashes(t, h)| == t.blocks[h].header.eventCount
  {
    assert h in t.blockEvents;
    assert BlockInv(s, t, h);
    HashAtPosition(t, h, p);
    ProofIsAccepted(s.sha, EventHashes(t, h), p);
  }

  /** In every reachable state the proof of every assigned event verifies against the root of its block. */
  lemma RunEventsHaveProofs(s: Suite, states: seq<System>, steps: seq<Step>, i: nat, e: Bytes) returns (p: int)
    requires Lawful(s) && Run(s, states, steps) && i < |states|
    requires e in states[i].tables.events && states[i].tables.events[e].blockHeight.Some?
    ensures var t := states[i].tables;
            var h := t.events[e].blockHeight.value;
            && h in t.blocks && 0 <= p < |EventHashes(t, h)| && EventHashes(t, h)[p] == e
            && Accepts(s.sha, e, ProofOf(s.sha, EventHashes(t, h), p), t.blocks[h].header.merkleRoot)
            && |ProofOf(s.sha, EventHashes(t, h), p)| == Depth(|EventHashes(t, h)|)
  {
    var t := states[i].tables;
    RunKeepsInv(s, states, steps, i);
    assert EventInv(s, t, e);
    p :| Occupies(t, t.events[e].blockHeight.value, p, e);
    AssignedEventHasProof(s, t, e, t.events[e].blockHeight.value, p);
  }

  lemma HashAtPosition(t: Tables, h: int, p: int)
    requires h in t.blocks && MembershipInv(t, h) && p in Slots(t, h)
    ensures 0 <= p < |EventHashes(t, h)| && EventHashes(t, h)[p] == Slots(t, h)[p]
  {
    var n := t.blocks[h].header.eventCount;
    RangeIsSorted(n, Slots(t, h).Keys);
    assert Positions(t, h) == Range(n);
  }

  /** Conversely, a proof that verifies against the root of a stored block names a member of that block. */
  lemma ProvenEventIsMember(s: Suite, t: Tables, h: int, e: Bytes, steps: seq<ProofStep>)
    requires Inv(s, t) && h in t.blocks && Accepts(s.sha, e, steps, t.blocks[h].header.merkleRoot)
    requires !CollisionIn(s.sha, RootInputs(s.sha, EventHashes(t, h)) + AcceptInputs(s.sha, e, steps))
    ensures e in t.events && t.events[e].blockHeight == Some(h)
  {
    assert BlockInv(s, t, h);
    AcceptedProofIsSound(s.sha, EventHashes(t, h), e, steps);
    assert MemberOk(t, h, e);
  }
}
