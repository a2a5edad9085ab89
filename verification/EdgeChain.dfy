/** The ledger as an object over a database: every operation does exactly what its specification says. */
module EdgeChain {
  import opened Primitives
  import opened Models
  import opened Store
  import opened Merkle
  import opened Invariant
  import opened Signing
  import opened Growth
  import opened Interleaving
  import opened LedgerOperations
  import opened Outcomes
  import opened Gateway
  import Audit
  import FullAudit
  import Tampering

  datatype Receipt = Receipt(duplicate: bool, eventHash: Bytes, deviceId: string, sequence: int)

  datatype Enrolment = Enrolment(created: bool, lastSequence: int, lastEventHash: Bytes)

  class Ledger {
    const database: Database
    const suite: Suite
    const settings: Settings

    constructor (database: Database, suite: Suite, settings: Settings)
      ensures this.database == database && this.suite == suite && this.settings == settings
    {
      this.database, this.suite, this.settings := database, suite, settings;
    }

    static method Open(database: Database, suite: Suite, settings: Settings) returns (r: Result<Ledger, LedgerError>)
      ensures r.Ok? <==> settings.quorumThreshold >= 1
      ensures r.Ok? ==> fresh(r.value) && r.value.database == database && r.value.suite == suite && r.value.settings == settings
    {
      if settings.quorumThreshold < 1 {
        return Err(BadThreshold);
      }
      var ledger := new Ledger(database, suite, settings);
      r := Ok(ledger);
    }

    function State(): Tables
      reads database
    {
      database.State()
    }

    /** The database is one that the ledger's operations can have led to. */
    ghost predicate Sound()
      reads database
    {
      Lawful(suite) && settings.quorumThreshold >= 1 && Inv(suite, State())
    }

    method RegisterDevice(id: string, publicKey: Bytes, keyId: string, now: int) returns (r: Result<Enrolment, LedgerError>)
      modifies database
      ensures r.Ok? <==> GoodName(id) && |publicKey| == 32 && DeviceFits(old(State()), id, publicKey)
      ensures r.Ok? ==> DeviceEnrolled(old(State()), State(), id, publicKey, keyId, now) && r.value.created == (id !in old(State()).devices)
      ensures r.Ok? <==> GoodName(id) && |publicKey| == 32 && Store.RegisterDevice(old(State()), id, publicKey, keyId, now).Ok?
      ensures r.Ok? ==> Store.RegisterDevice(old(State()), id, publicKey, keyId, now).value == (State(), r.value.created)
      ensures r.Ok? ==> id in State().devices && r.value.lastSequence == State().devices[id].lastSequence
      ensures r.Ok? ==> r.value.lastEventHash == State().devices[id].lastEventHash
      ensures r.Err? ==> State() == old(State())
    {
      if !GoodName(id) {
        return Err(BadIdentifier);
      }
      if |publicKey| != 32 {
        return Err(BadKeyLength);
      }
      DeviceOutcome(State(), id, publicKey, keyId, now);
      var created := database.RegisterDevice(id, publicKey, keyId, now);
      if created.Err? {
        return Err(Refused(created.error));
      }
      var row := database.devices[id];
      r := Ok(Enrolment(created.value, row.lastSequence, row.lastEventHash));
    }

    method RegisterAuthority(id: string, publicKey: Bytes, keyId: string, now: int) returns (r: Result<bool, LedgerError>)
      modifies database
      ensures r.Ok? <==> GoodName(id) && |publicKey| == 32 && AuthorityFits(old(State()), id, publicKey)
      ensures r.Ok? ==> AuthorityEnrolled(old(State()), State(), id, publicKey, keyId, now) && r.value == (id !in old(State()).authorities)
      ensures r.Ok? <==> GoodName(id) && |publicKey| == 32 && Store.RegisterAuthority(old(State()), id, publicKey, keyId, now).Ok?
      ensures r.Ok? ==> Store.RegisterAuthority(old(State()), id, publicKey, keyId, now).value == (State(), r.value)
      ensures r.Err? ==> State() == old(State())
    {
      if !GoodName(id) {
        return Err(BadIdentifier);
      }
      if |publicKey| != 32 {
        return Err(BadKeyLength);
      }
      AuthorityOutcome(State(), id, publicKey, keyId, now);
      var created := database.RegisterAuthority(id, publicKey, keyId, now);
      r := match created case Ok(isNew) => Ok(isNew) case Err(cause) => Err(Refused(cause));
    }

    method AcceptEvent(e: SignedEvent, now: int) returns (r: Result<Receipt, LedgerError>)
      modifies database
      ensures r.Ok? ==> Accept(suite, old(State()), e, now) == Ok((State(), !r.value.duplicate))
      ensures r.Ok? ==> r.value == Receipt(r.value.duplicate, EventHash(suite, e), e.deviceId, e.sequence)
      ensures r.Err? ==> Accept(suite, old(State()), e, now) == Err(r.error) && State() == old(State())
      ensures r.Ok? ==> AcceptedAs(suite, old(State()), State(), e, now, !r.value.duplicate)
      ensures old(Sound()) && Admissible(suite, old(State()), e) && NextInChain(old(State()), e) && EventHash(suite, e) !in old(State()).events ==> r.Ok?
      ensures Admissible(suite, old(State()), e) && EventHash(suite, e) in old(State()).events && SameBytes(suite, old(State()), e) ==> r.Ok?
      ensures old(Sound()) && r.Err? ==> EventFault(suite, old(State()), e, r.error)
      ensures old(Sound()) ==> Sound()
    {
      hide Inv, EventFault;
      AcceptOutcome(suite, State(), e, now);
      if Sound() {
        AcceptKeepsInv(suite, State(), e, now);
        if Accept(suite, State(), e, now).Err? {
          AcceptFault(suite, State(), e, now);
        }
      }
      if e.version != 1 {
        return Err(BadVersion);
      }
      if e.sequence < 1 {
        return Err(SequenceNotPositive);
      }
      if e.eventType == "" || |e.eventType| > 128 {
        return Err(BadEventType);
      }
      if e.deviceId !in database.devices {
        return Err(UnknownDevice);
      }
      var device := database.devices[e.deviceId];
      if device.status != Active {
        return Err(InactiveDevice);
      }
      if !Encodable(e) {
        return Err(Unencodable);
      }
      if !suite.verify(device.publicKey, e.signature, SigningBytes(suite, e)) {
        return Err(BadDeviceSignature);
      }
      var inserted := database.InsertVerifiedEvent(suite, e, suite.encode(Map(e.payload)), now);
      if inserted.Err? {
        return Err(Refused(inserted.error));
      }
      r := Ok(Receipt(!inserted.value, EventHash(suite, e), e.deviceId, e.sequence));
    }

    method SignBlock(h: int, id: string, key: KeyPair, now: int) returns (r: Result<BlockStatus, LedgerError>)
      modifies database
      ensures r.Ok? ==> Sign(suite, old(State()), h, id, key, now) == Ok((State(), r.value))
      ensures r.Err? ==> Sign(suite, old(State()), h, id, key, now) == Err(r.error) && State() == old(State())
      ensures old(Sound()) && KeyWorks(suite, key) ==> (r.Ok? <==> IsMember(old(State()), h, id, key))
      ensures old(Sound()) && r.Ok? ==> Countersigned(old(State()), State(), h, id, key.sign(old(State()).blocks[h].blockHash), now)
      ensures old(Sound()) && r.Ok? ==> Sound() && r.value == State().blocks[h].status
    {
      hide Inv, Countersigned;
      if Sound() {
        SignOutcome(suite, State(), h, id, key, now);
        SignKeepsInv(suite, State(), h, id, key, now);
      }
      if h !in database.blocks {
        return Err(UnknownBlock);
      }
      var block, members := database.blocks[h], Members(database.State(), h);
      if id !in members {
        return Err(NotAMember);
      }
      if key.publicKey != members[id] {
        return Err(WrongKey);
      }
      var signature := key.sign(block.blockHash);
      if !suite.verify(members[id], signature, block.blockHash) {
        return Err(SelfCheckFailed);
      }
      var stored := database.InsertBlockSignature(h, id, signature, now);
      r := match stored case Ok(status) => Ok(status) case Err(cause) => Err(Refused(cause));
    }

    method AddExternalSignature(h: int, id: string, signature: Bytes, now: int) returns (r: Result<BlockStatus, LedgerError>)
      modifies database
      ensures r.Ok? ==> AddSignature(suite, old(State()), h, id, signature, now) == Ok((State(), r.value))
      ensures r.Err? ==> AddSignature(suite, old(State()), h, id, signature, now) == Err(r.error) && State() == old(State())
      ensures old(Sound()) ==> (r.Ok? <==> SignatureReady(suite, old(State()), h, id, signature))
      ensures old(Sound()) && r.Err? ==> SignatureFault(suite, old(State()), h, id, signature, r.error)
      ensures old(Sound()) && r.Ok? ==> Countersigned(old(State()), State(), h, id, signature, now)
      ensures old(Sound()) && r.Ok? ==> Sound() && r.value == State().blocks[h].status
    {
      hide Inv, Countersigned;
      if Sound() {
        AddSignatureOutcome(suite, State(), h, id, signature, now);
        AddSignatureKeepsInv(suite, State(), h, id, signature, now);
        if AddSignature(suite, State(), h, id, signature, now).Err? {
          AddSignatureFault(suite, State(), h, id, signature, now);
        }
      }
      if h !in database.blocks {
        return Err(UnknownBlock);
      }
      var block, members := database.blocks[h], Members(database.State(), h);
      if id !in members {
        return Err(NotAMember);
      }
      if !suite.verify(members[id], signature, block.blockHash) {
        return Err(BadAuthoritySignature);
      }
      var stored := database.InsertBlockSignature(h, id, signature, now);
      r := match stored case Ok(status) => Ok(status) case Err(cause) => Err(Refused(cause));
    }

    /** The header of a block on the last finalized block. */
    method BuildHeader(proposerId: string, authorities: Snapshot, hashes: seq<Bytes>, now: int) returns (header: BlockHeader)
      ensures header == NewHeader(suite, Proposer(proposerId, settings.quorumThreshold, settings.policyHash), authorities, hashes,
                                  LastFinal(State()), PreviousHash(State(), LastFinal(State())), now)
    {
      var previous := database.LastFinalizedBlock();
      var height := if previous.None? then 1 else previous.value + 1;
      var previousHash: Bytes := if previous.None? then ZERO_HASH else database.blocks[previous.value].blockHash;
      var root := Root(suite.sha, hashes);
      header := BlockHeader(height, previousHash, now, root, |hashes|, proposerId,
                            SnapshotHash(suite, authorities), settings.quorumThreshold, settings.policyHash, 1);
    }

    /** The reads of a proposer, made here without interruption. */
    method PrepareDraft(proposerId: string, key: KeyPair, maxEvents: int, now: int) returns (r: Result<Draft, LedgerError>)
      ensures r == DraftBlock(suite, State(), settings, proposerId, key, maxEvents, now)
      ensures r.Ok? <==> MayPropose(State(), settings, proposerId, key, maxEvents)
      ensures Sound() && r.Ok? ==> Heads(State(), r.value.header, settings, proposerId, now)
      ensures Sound() && r.Ok? ==> CommitsTo(suite, r.value.header, r.value.hashes, r.value.authorities)
      ensures Sound() && r.Ok? ==> maxEvents >= 1 && r.value.hashes == Selection(State(), maxEvents) && r.value.authorities == ActiveAuthorities(State())
    {
      hide Inv, Heads, CommitsTo, MayPropose, NewHeader, Selection, LastFinal, ActiveAuthorities;
      DraftIff(suite, database.State(), settings, proposerId, key, maxEvents, now);
      ghost var draft := DraftBlock(suite, State(), settings, proposerId, key, maxEvents, now);
      if Sound() && draft.Ok? {
        DraftHeads(suite, State(), settings, proposerId, key, maxEvents, now, draft.value);
      }
      if maxEvents < 1 || maxEvents > 10000 {
        return Err(BadLimit);
      }
      var open := database.FirstProposedBlock();
      if open.Some? {
        return Err(BlockOpen);
      }
      var authorities := database.ActiveAuthoritiesById();
      if |authorities| < settings.quorumThreshold {
        return Err(TooFewAuthorities);
      }
      var keys := ActiveKeys(database.State());
      if proposerId !in keys {
        return Err(NotAnAuthority);
      }
      if key.publicKey != keys[proposerId] {
        return Err(WrongKey);
      }
      var hashes := database.PendingSelection(maxEvents);
      if hashes == [] {
        return Err(NothingPending);
      }
      var header := BuildHeader(proposerId, authorities, hashes, now);
      r := Ok(Draft(header, hashes, authorities));
    }

    method ProposeBlock(proposerId: string, key: KeyPair, maxEvents: int, now: int, signedAt: int)
      returns (r: Result<ProposalReport, LedgerError>)
      modifies database
      ensures (State(), r) == Propose(suite, old(State()), settings, proposerId, key, maxEvents, now, signedAt)
      ensures old(Sound()) && KeyWorks(suite, key) ==>
                (r.Ok? <==> MayPropose(old(State()), settings, proposerId, key, maxEvents)
                            && !ClashAhead(suite, old(State()), settings, proposerId, maxEvents, now))
      ensures old(Sound()) && r.Ok? ==> maxEvents >= 1 && Proposes(suite, old(State()), State(), r.value, settings, proposerId, key, maxEvents, now, signedAt)
      ensures old(Sound()) && !MayPropose(old(State()), settings, proposerId, key, maxEvents) ==> r.Err? && State() == old(State())
      ensures old(Sound()) && r.Err? ==> ProposalFault(suite, old(State()), settings, proposerId, key, maxEvents, now, r.error)
      ensures old(Sound()) && r.Err? && KeyWorks(suite, key) ==> State() == old(State())
      ensures old(Sound()) ==> Sound()
    {
      hide Inv, MayPropose, ClashAhead, Proposes, ProposalFault, DraftBlock, Heads, CommitsTo, SignatureReady, Countersigned, IsMember, NewHeader, Extends;
      if Sound() {
        ProposeOutcome(suite, State(), settings, proposerId, key, maxEvents, now, signedAt);
        ProposeKeepsInv(suite, State(), settings, proposerId, key, maxEvents, now, signedAt);
        if Propose(suite, State(), settings, proposerId, key, maxEvents, now, signedAt).1.Err? {
          ProposeFault(suite, State(), settings, proposerId, key, maxEvents, now, signedAt);
        }
      }
      var draft := PrepareDraft(proposerId, key, maxEvents, now);
      if draft.Err? {
        return Err(draft.error);
      }
      var header := draft.value.header;
      var created := database.CreateProposal(suite, header, draft.value.hashes, draft.value.authorities);
      if created.Err? {
        return Err(Refused(created.error));
      }
      var status := SignBlock(header.height, proposerId, key, signedAt);
      if status.Err? {
        return Err(status.error);
      }
      r := Ok(ProposalReport(header.height, HeaderHash(suite, header), |draft.value.hashes|, header.merkleRoot, status.value,
                             |Signatures(database.State(), header.height)|, settings.quorumThreshold));
    }

    /** Rows of the membership table refer to stored blocks. */
    method ProveEvent(e: Bytes) returns (r: Result<EventProof, LedgerError>)
      requires forall h, p :: Occupies(State(), h, p, e) ==> h in State().blocks
      ensures r == Err(Unassigned) <==> !Taken(State(), e)
      ensures r.Ok? ==> IsProofOf(suite, State(), e, r.value)
      ensures r.Err? ==> r.error == Unassigned || (r.error == PositionOutOfRange && HasStrayPosition(State(), e))
    {
      var place := database.PlaceOf(e);
      if place.None? {
        return Err(Unassigned);
      }
      var h, p := place.value.0, place.value.1;
      assert Occupies(State(), h, p, e);
      var hashes := database.BlockEventHashes(h);
      var steps := Proof(suite.sha, hashes, p);
      if steps.Err? {
        return Err(PositionOutOfRange);
      }
      r := Ok(EventProof(e, h, database.blocks[h].blockHash, database.blocks[h].header.merkleRoot, p, steps.value));
    }

    method VerifyEventProof(proof: EventProof) returns (ok: bool)
      ensures ok <==> Accepts(suite.sha, proof.eventHash, proof.steps, proof.merkleRoot)
    {
      ok := Verify(suite.sha, proof.eventHash, proof.steps, proof.merkleRoot);
    }

    method VerifyAll() returns (r: FullAudit.Report)
      requires Keyed(State())
      ensures r.valid <==> Audit.WellFormed(suite, State())
      ensures r.valid <==> r.errors == []
      ensures r.blocks == |State().blocks| && r.events == |State().events| && r.pending == |Pending(State())|
      ensures r.valid ==> Tampering.Trustworthy(suite, State())
      ensures Sound() ==> r.valid
    {
      hide Inv, Tampering.Trustworthy, Audit.WellFormed;
      if Sound() {
        InvIsWellFormed(suite, State());
      }
      if Audit.WellFormed(suite, State()) {
        Tampering.AuditedIsTrustworthy(suite, State());
      }
      r := FullAudit.VerifyAll(database, suite);
    }
  }

  /** The proof of the place a stored membership row gives the event. */
  ghost predicate IsProofOf(s: Suite, t: Tables, e: Bytes, proof: EventProof) {
    && proof.eventHash == e && Occupies(t, proof.height, proof.position, e) && proof.height in t.blocks
    && proof.blockHash == t.blocks[proof.height].blockHash && proof.merkleRoot == t.blocks[proof.height].header.merkleRoot
    && 0 <= proof.position < |EventHashes(t, proof.height)|
    && proof.steps == ProofOf(s.sha, EventHashes(t, proof.height), proof.position)
  }

  ghost predicate HasStrayPosition(t: Tables, e: Bytes) {
    exists h, p :: Occupies(t, h, p, e) && !(0 <= p < |EventHashes(t, h)|)
  }
}
