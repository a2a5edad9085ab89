/** What each ledger operation demands, stores and answers, said of the tables before and after it. */
module Outcomes {
  import opened Primitives
  import opened Ordering
  import opened Models
  import opened Store
  import opened Merkle
  import opened Audit
  import opened Invariant
  import opened Proposal
  import opened Signing
  import opened Growth
  import opened Interleaving
  import opened LedgerOperations

  // ---------------------------------------------------------------------------
  // Enrolling
  // ---------------------------------------------------------------------------

  /** Nothing is enrolled under the id but an active device with this key. */
  predicate DeviceFits(t: Tables, id: string, publicKey: Bytes) {
    id in t.devices ==> t.devices[id].publicKey == publicKey && t.devices[id].status == Active
  }

  /** The device is enrolled in u: as it was, or new and with an empty chain. */
  predicate DeviceEnrolled(t: Tables, u: Tables, id: string, publicKey: Bytes, keyId: string, now: int) {
    if id in t.devices then u == t
    else
      && id in u.devices && u == t.(devices := t.devices[id := u.devices[id]])
      && u.devices[id].publicKey == publicKey && u.devices[id].keyId == keyId && u.devices[id].status == Active
      && u.devices[id].lastSequence == 0 && u.devices[id].lastEventHash == ZERO_HASH && u.devices[id].enrolledAtMs == now
  }

  /** A device may enrol again under its key, and never under another one. */
  lemma DeviceOutcome(t: Tables, id: string, publicKey: Bytes, keyId: string, now: int)
    ensures var r := RegisterDevice(t, id, publicKey, keyId, now);
            && (r.Ok? <==> DeviceFits(t, id, publicKey))
            && (r.Ok? ==> DeviceEnrolled(t, r.value.0, id, publicKey, keyId, now) && r.value.1 == (id !in t.devices))
  {
  }

  /** The authority is active and enrolled under this key. */
  predicate HasKey(t: Tables, id: string, publicKey: Bytes) {
    id in t.authorities && t.authorities[id].publicKey == publicKey && t.authorities[id].active
  }

  predicate AuthorityFits(t: Tables, id: string, publicKey: Bytes) {
    id in t.authorities ==> HasKey(t, id, publicKey)
  }

  predicate AuthorityEnrolled(t: Tables, u: Tables, id: string, publicKey: Bytes, keyId: string, now: int) {
    if id in t.authorities then u == t
    else
      && id in u.authorities && u == t.(authorities := t.authorities[id := u.authorities[id]])
      && u.authorities[id].publicKey == publicKey && u.authorities[id].keyId == keyId && u.authorities[id].active
      && u.authorities[id].enrolledAtMs == now
  }

  lemma AuthorityOutcome(t: Tables, id: string, publicKey: Bytes, keyId: string, now: int)
    ensures var r := RegisterAuthority(t, id, publicKey, keyId, now);
            && (r.Ok? <==> AuthorityFits(t, id, publicKey))
            && (r.Ok? ==> AuthorityEnrolled(t, r.value.0, id, publicKey, keyId, now) && r.value.1 == (id !in t.authorities))
  {
  }

  // ---------------------------------------------------------------------------
  // Accepting an event
  // ---------------------------------------------------------------------------

  /** Everything that is demanded of an event and its sender, whatever is stored of its chain. */
  predicate Admissible(s: Suite, t: Tables, e: SignedEvent) {
    && e.version == 1 && e.sequence >= 1 && 1 <= |e.eventType| <= 128 && Supported(Map(e.payload))
    && e.deviceId in t.devices && t.devices[e.deviceId].status == Active
    && s.verify(t.devices[e.deviceId].publicKey, e.signature, SigningBytes(s, e))
  }

  /** What accepting an event leads to: new, it was added; a duplicate, it was there already; refused, nothing happened. */
  ghost predicate AcceptedAs(s: Suite, t: Tables, u: Tables, e: SignedEvent, now: int, isNew: bool) {
    if isNew then
      Admissible(s, t, e) && NextInChain(t, e) && Received(s, t, u, e, s.encode(Map(e.payload)), now)
    else
      Admissible(s, t, e) && EventHash(s, e) in t.events && SameBytes(s, t, e) && u == t
  }

  lemma AcceptOutcome(s: Suite, t: Tables, e: SignedEvent, now: int)
    ensures var r := Accept(s, t, e, now); r.Ok? ==> AcceptedAs(s, t, r.value.0, e, now, r.value.1)
    ensures Inv(s, t) && Admissible(s, t, e) && NextInChain(t, e) && EventHash(s, e) !in t.events ==> Accept(s, t, e, now).Ok?
    ensures Admissible(s, t, e) && EventHash(s, e) in t.events && SameBytes(s, t, e) ==> Accept(s, t, e, now).Ok?
  {
    if Accept(s, t, e, now).Ok? {
      InsertedIsReceived(s, t, e, s.encode(Map(e.payload)), now);
    }
    if Inv(s, t) && e.deviceId in t.devices {
      NextKeyIsFree(s, t, e.deviceId);
    }
  }

  // ---------------------------------------------------------------------------
  // Signing a block
  // ---------------------------------------------------------------------------

  /** An external signature is taken exactly when a member of the block's snapshot made it for the block's hash. */
  lemma AddSignatureOutcome(s: Suite, t: Tables, h: int, id: string, signature: Bytes, now: int)
    requires Inv(s, t)
    ensures var r := AddSignature(s, t, h, id, signature, now);
            && (r.Ok? <==> SignatureReady(s, t, h, id, signature))
            && (r.Ok? ==> Countersigned(t, r.value.0, h, id, signature, now) && r.value.1 == r.value.0.blocks[h].status)
  {
    if SignatureReady(s, t, h, id, signature) {
      SignatureOutcome(s, t, h, id, signature, now);
    }
  }

  /** The holder of the key is a member of the block's snapshot under that key. */
  predicate IsMember(t: Tables, h: int, id: string, key: KeyPair) {
    h in t.blocks && id in Members(t, h) && Members(t, h)[id] == key.publicKey
  }

  lemma SignOutcome(s: Suite, t: Tables, h: int, id: string, key: KeyPair, now: int)
    requires Inv(s, t)
    ensures var r := Sign(s, t, h, id, key, now);
            && (r.Ok? ==> IsMember(t, h, id, key) && Countersigned(t, r.value.0, h, id, key.sign(t.blocks[h].blockHash), now))
            && (r.Ok? ==> r.value.1 == r.value.0.blocks[h].status)
            && (KeyWorks(s, key) && IsMember(t, h, id, key) ==> r.Ok?)
  {
    if IsMember(t, h, id, key) && s.verify(key.publicKey, key.sign(t.blocks[h].blockHash), t.blocks[h].blockHash) {
      SignatureOutcome(s, t, h, id, key.sign(t.blocks[h].blockHash), now);
    }
  }

  // ---------------------------------------------------------------------------
  // Storing a proposal
  // ---------------------------------------------------------------------------

  /** A stored block already has the hash of the new header, although their headers differ. */
  ghost predicate HashClash(s: Suite, t: Tables, header: BlockHeader) {
    exists h :: h in t.blocks && t.blocks[h].header != header && t.blocks[h].blockHash == HeaderHash(s, header)
  }

  lemma ClashIsCollision(s: Suite, t: Tables, header: BlockHeader)
    requires Lawful(s) && Inv(s, t) && HashClash(s, t, header)
    ensures CollisionIn(s.sha, {HeaderInput(s, header)} + set h | h in t.blocks :: HeaderInput(s, t.blocks[h].header))
  {
    var h :| h in t.blocks && t.blocks[h].header != header && t.blocks[h].blockHash == HeaderHash(s, header);
    assert BlockInv(s, t, h);
    var x, y := HeaderInput(s, t.blocks[h].header), HeaderInput(s, header);
    if x == y {
      HeaderInputInjective(s, t.blocks[h].header, header);
    }
    assert s.sha(x) == s.sha(y);
  }

  lemma NextHeightIsFree(s: Suite, t: Tables)
    requires Inv(s, t) && !ProposalOpen(t)
    ensures LastFinal(t) == if t.blocks == map[] then None else Some(|t.blocks|)
    ensures |t.blocks| + 1 !in t.blocks
  {
    if t.blocks != map[] {
      assert |t.blocks| in t.blocks;
      forall h | h in t.blocks ensures t.blocks[h].status == Finalized {}
      TipIsLast(t);
    }
  }

  lemma DraftParts(s: Suite, t: Tables, cfg: Settings, proposerId: string, key: KeyPair, maxEvents: int, now: int, d: Draft)
    requires DraftBlock(s, t, cfg, proposerId, key, maxEvents, now) == Ok(d)
    ensures !ProposalOpen(t) && 1 <= maxEvents <= 10000 && HasKey(t, proposerId, key.publicKey)
    ensures d.hashes == Selection(t, maxEvents) != [] && d.authorities == ActiveAuthorities(t) && |d.authorities| >= cfg.quorumThreshold
    ensures d.header == NewHeader(s, Proposer(proposerId, cfg.quorumThreshold, cfg.policyHash), ActiveAuthorities(t), Selection(t, maxEvents),
                                  LastFinal(t), PreviousHash(t, LastFinal(t)), now)
  {
    hide ProposalOpen, Selection, ActiveAuthorities, LastFinal, NewHeader;
  }

  lemma SelectionUnclaimed(s: Suite, t: Tables, h: int, limit: nat)
    requires Inv(s, t) && h !in t.blocks
    ensures !SlotConflict(t, h, Selection(t, limit))
  {
    var hashes := Selection(t, limit);
    NoChildren(t, h);
    forall i | 0 <= i < |hashes| ensures !Taken(t, hashes[i]) {
      assert EventInv(s, t, hashes[i]);
    }
  }

  lemma RowsDistinct(members: map<string, Bytes>)
    ensures !Repeats(Ids(ById(members)))
  {
    TextOrder();
    var ids := IdsInOrder(members);
    assert Ids(ById(members)) == ids;
    forall i, j | 0 <= i < j < |ids| ensures ids[i] != ids[j] {
      assert TextLess(ids[i], ids[j]);
    }
  }

  lemma SnapshotUnclaimed(s: Suite, t: Tables, h: int)
    requires Inv(s, t) && h !in t.blocks
    ensures !MemberConflict(t, h, ActiveAuthorities(t))
  {
    NoChildren(t, h);
    RowsDistinct(ActiveKeys(t));
  }

  lemma FreshBlockConflict(s: Suite, t: Tables, header: BlockHeader)
    requires Keyed(t) && header.height !in t.blocks && BlockConflict(t, NewBlockRow(s, header))
    ensures HashClash(s, t, header)
  {
    var h :| h in t.blocks && t.blocks[h].blockHash == HeaderHash(s, header);
    assert t.blocks[h].header.height == h;
  }

  /** Nothing but a hash clash keeps an uninterrupted proposer from storing its block. */
  lemma DraftIsStored(s: Suite, t: Tables, header: BlockHeader, limit: nat)
    requires Inv(s, t) && !ProposalOpen(t) && header.height == |t.blocks| + 1
    ensures HashClash(s, t, header)
         || CreateProposal(t, NewBlockRow(s, header), Selection(t, limit), ActiveAuthorities(t)).Ok?
  {
    NextHeightIsFree(s, t);
    SelectionUnclaimed(s, t, header.height, limit);
    SnapshotUnclaimed(s, t, header.height);
    if BlockConflict(t, NewBlockRow(s, header)) {
      FreshBlockConflict(s, t, header);
    }
  }

  // ---------------------------------------------------------------------------
  // Proposing a block
  // ---------------------------------------------------------------------------

  /** Everything that is demanded of a proposer: a free chain, enough authorities, its own enrolled key, something to seal. */
  ghost predicate MayPropose(t: Tables, cfg: Settings, id: string, key: KeyPair, maxEvents: int) {
    && 1 <= maxEvents <= 10000
    && (forall h :: h in t.blocks ==> t.blocks[h].status == Finalized)
    && |set a | a in t.authorities && t.authorities[a].active| >= cfg.quorumThreshold
    && HasKey(t, id, key.publicKey)
    && exists e :: e in t.events && t.events[e].blockHeight.None?
  }

  /** The header of the next block of the tables t, by this proposer at this reading. */
  predicate Heads(t: Tables, header: BlockHeader, cfg: Settings, id: string, now: int) {
    && header.height == |t.blocks| + 1 && header.previousHash == PreviousHashAt(t, header.height)
    && header.createdAtMs == now && header.proposerId == id && header.version == 1
    && header.quorumThreshold == cfg.quorumThreshold && header.policyHash == cfg.policyHash
  }

  /** The header counts and commits to these events and authorities. */
  ghost predicate CommitsTo(s: Suite, header: BlockHeader, hashes: seq<Bytes>, authorities: Snapshot) {
    && header.eventCount == |hashes| && header.merkleRoot == RootOf(s.sha, hashes)
    && header.authoritySetHash == SnapshotHash(s, authorities)
  }

  /** The members of block h of u are the active authorities of t, under their enrolled keys. */
  ghost predicate MembersAreActive(t: Tables, u: Tables, h: int) {
    && (forall a :: a in Members(u, h) <==> a in t.authorities && t.authorities[a].active)
    && (forall a :: a in Members(u, h) && a in t.authorities ==> Members(u, h)[a] == t.authorities[a].publicKey)
  }

  /** The report says what is stored of the block. */
  predicate Reports(t: Tables, r: ProposalReport) {
    && r.height in t.blocks
    && r.blockHash == t.blocks[r.height].blockHash && r.status == t.blocks[r.height].status
    && r.eventCount == t.blocks[r.height].header.eventCount && r.merkleRoot == t.blocks[r.height].header.merkleRoot
    && r.signatures == |Signatures(t, r.height)| && r.requiredSignatures == t.blocks[r.height].header.quorumThreshold
  }

  /** Block h of u is the next block of t: by this proposer, of the oldest pending events, for the active authorities. */
  ghost predicate NextBlock(s: Suite, t: Tables, u: Tables, h: int, cfg: Settings, id: string, maxEvents: nat, now: int) {
    && h == |t.blocks| + 1 && h !in t.blocks && u.blocks.Keys == t.blocks.Keys + {h}
    && Heads(t, u.blocks[h].header, cfg, id, now)
    && CommitsTo(s, u.blocks[h].header, EventHashes(u, h), SnapshotAt(u, h))
    && EventHashes(u, h) == Selection(t, maxEvents) && MembersAreActive(t, u, h)
  }

  /** The only signature of block h is this one. */
  predicate SignedAlone(u: Tables, h: int, id: string, key: KeyPair, now: int) {
    h in u.blocks && Signatures(u, h) == map[id := SignatureRow(key.sign(u.blocks[h].blockHash), now)]
  }

  /** The block is final exactly with a quorum, and if so since this reading. */
  predicate FinalWith(u: Tables, h: int, now: int) {
    && h in u.blocks
    && (u.blocks[h].status == Finalized <==> |Signatures(u, h)| >= u.blocks[h].header.quorumThreshold)
    && (u.blocks[h].status == Finalized ==> u.blocks[h].finalizedAtMs == Some(now))
  }

  /** What a successful proposal leads to: the next block, with its proposer's signature, reported as it is stored. */
  ghost predicate Proposes(s: Suite, t: Tables, u: Tables, r: ProposalReport, cfg: Settings, id: string, key: KeyPair, maxEvents: nat, now: int, signedAt: int) {
    && NextBlock(s, t, u, r.height, cfg, id, maxEvents, now)
    && SignedAlone(u, r.height, id, key, signedAt) && FinalWith(u, r.height, signedAt)
    && Reports(u, r) && Extends(t, u) && SameChains(t, u)
  }

  /** The header that the proposer would build has the hash of a stored block. */
  ghost predicate ClashAhead(s: Suite, t: Tables, cfg: Settings, id: string, maxEvents: int, now: int) {
    && maxEvents >= 1
    && exists header :: HashClash(s, t, header) && Heads(t, header, cfg, id, now)
                        && CommitsTo(s, header, Selection(t, maxEvents), ActiveAuthorities(t))
  }

  lemma NextHeads(s: Suite, t: Tables, cfg: Settings, id: string, authorities: Snapshot, hashes: seq<Bytes>, now: int)
    requires Inv(s, t) && !ProposalOpen(t)
    ensures var header := NewHeader(s, Proposer(id, cfg.quorumThreshold, cfg.policyHash), authorities, hashes, LastFinal(t), PreviousHash(t, LastFinal(t)), now);
            Heads(t, header, cfg, id, now) && CommitsTo(s, header, hashes, authorities)
  {
    hide ProposalOpen, LastFinal, RootOf, SnapshotHash, BlockInv, EventInv, DeviceInv, AuthorityInv, Keyed;
    NextHeightIsFree(s, t);
    assert 0 !in t.blocks;
  }

  lemma DraftHeads(s: Suite, t: Tables, cfg: Settings, id: string, key: KeyPair, maxEvents: int, now: int, d: Draft)
    requires Inv(s, t) && DraftBlock(s, t, cfg, id, key, maxEvents, now) == Ok(d)
    ensures !ProposalOpen(t) && 1 <= maxEvents <= 10000 && HasKey(t, id, key.publicKey)
    ensures d.hashes == Selection(t, maxEvents) && d.authorities == ActiveAuthorities(t)
    ensures Heads(t, d.header, cfg, id, now) && CommitsTo(s, d.header, d.hashes, d.authorities)
  {
    hide Inv, DraftBlock, Heads, CommitsTo, NewHeader;
    DraftParts(s, t, cfg, id, key, maxEvents, now, d);
    NextHeads(s, t, cfg, id, d.authorities, d.hashes, now);
  }

  lemma ActiveCount(t: Tables)
    ensures |ActiveAuthorities(t)| == |set a | a in t.authorities && t.authorities[a].active|
  {
    assert ActiveKeys(t).Keys == set a | a in t.authorities && t.authorities[a].active;
    assert |ActiveKeys(t)| == |ActiveKeys(t).Keys|;
  }

  lemma SomethingSelected(t: Tables, limit: nat)
    requires limit >= 1
    ensures Selection(t, limit) != [] <==> exists e :: e in t.events && t.events[e].blockHeight.None?
  {
    if e :| e in t.events && t.events[e].blockHeight.None? {
      assert (t.events[e].receivedAtMs, e) in PendingArrivals(t);
    }
    if Selection(t, limit) != [] {
      assert Selection(t, limit)[0] in Pending(t);
    }
  }

  lemma DraftIff(s: Suite, t: Tables, cfg: Settings, id: string, key: KeyPair, maxEvents: int, now: int)
    ensures DraftBlock(s, t, cfg, id, key, maxEvents, now).Ok? <==> MayPropose(t, cfg, id, key, maxEvents)
  {
    hide Selection, ActiveAuthorities, LastFinal, NewHeader;
    ActiveCount(t);
    if maxEvents >= 1 {
      SomethingSelected(t, maxEvents);
    }
  }

  lemma SameHeader(s: Suite, t: Tables, x: BlockHeader, y: BlockHeader, cfg: Settings, id: string, now: int, hashes: seq<Bytes>, authorities: Snapshot)
    requires Heads(t, x, cfg, id, now) && CommitsTo(s, x, hashes, authorities)
    requires Heads(t, y, cfg, id, now) && CommitsTo(s, y, hashes, authorities)
    ensures x == y
  {
  }

  /** The header is determined by what it is made of, so what clashes is the header of the draft. */
  lemma DraftClashes(s: Suite, t: Tables, cfg: Settings, id: string, key: KeyPair, maxEvents: nat, now: int, d: Draft)
    requires Inv(s, t) && DraftBlock(s, t, cfg, id, key, maxEvents, now) == Ok(d)
    ensures ClashAhead(s, t, cfg, id, maxEvents, now) <==> HashClash(s, t, d.header)
  {
    hide Inv, DraftBlock, Heads, CommitsTo, HashClash, Selection, ActiveAuthorities;
    DraftHeads(s, t, cfg, id, key, maxEvents, now, d);
    if header :| HashClash(s, t, header) && Heads(t, header, cfg, id, now) && CommitsTo(s, header, Selection(t, maxEvents), ActiveAuthorities(t)) {
      SameHeader(s, t, header, d.header, cfg, id, now, d.hashes, d.authorities);
    }
  }

  lemma ClashIsConflict(s: Suite, t: Tables, header: BlockHeader, hashes: seq<Bytes>, authorities: Snapshot)
    requires HashClash(s, t, header)
    ensures CreateProposal(t, NewBlockRow(s, header), hashes, authorities).Err?
  {
    hide ProposalOpen, SlotConflict, MemberConflict, Pending;
  }

  lemma DraftReadyToStore(s: Suite, t: Tables, header: BlockHeader, cfg: Settings, id: string, now: int, limit: nat)
    requires Inv(s, t) && !ProposalOpen(t) && Heads(t, header, cfg, id, now) && !HashClash(s, t, header)
    ensures CreateProposal(t, NewBlockRow(s, header), Selection(t, limit), ActiveAuthorities(t)).Ok?
  {
    DraftIsStored(s, t, header, limit);
  }

  lemma MemberAt(members: map<string, Bytes>, id: string)
    requires InIdOrder(ById(members)) && id in members
    ensures id in WithMembers(map[], ById(members)) && WithMembers(map[], ById(members))[id] == members[id]
  {
    hide WithMembers, InIdOrder;
    var i :| 0 <= i < |ById(members)| && IdsInOrder(members)[i] == id;
    WithMembersAt(ById(members), i);
  }

  lemma RowsInIdOrder(members: map<string, Bytes>)
    ensures InIdOrder(ById(members)) && Ids(ById(members)) == IdsInOrder(members)
  {
    hide TextLess;
  }

  lemma MembersReadBack(members: map<string, Bytes>)
    ensures InIdOrder(ById(members)) && WithMembers(map[], ById(members)) == members
  {
    hide WithMembers, InIdOrder, Ids, ById;
    RowsInIdOrder(members);
    forall id | id in members ensures id in WithMembers(map[], ById(members)) && WithMembers(map[], ById(members))[id] == members[id] {
      MemberAt(members, id);
    }
    forall id | id in WithMembers(map[], ById(members)) ensures id in members {
      assert id in IdsInOrder(members);
    }
  }
  /** What the tables u hold of a proposal that was stored in t and not signed yet. */
  ghost predicate Unsigned(s: Suite, t: Tables, u: Tables, header: BlockHeader, maxEvents: nat) {
    var h := |t.blocks| + 1;
    && h !in t.blocks && u.blocks == t.blocks[h := NewBlockRow(s, header)]
    && EventHashes(u, h) == Selection(t, maxEvents) && SnapshotAt(u, h) == ActiveAuthorities(t)
    && MembersAreActive(t, u, h) && Signatures(u, h) == map[]
    && Extends(t, u) && SameChains(t, u)
  }

  lemma ClaimedMembers(t: Tables, u: Tables, row: BlockRow, hashes: seq<Bytes>)
    requires Claims(t, u, row, hashes, ActiveAuthorities(t))
    ensures EventHashes(u, row.header.height) == hashes && SnapshotAt(u, row.header.height) == ActiveAuthorities(t)
    ensures Members(u, row.header.height) == ActiveKeys(t) && MembersAreActive(t, u, row.header.height)
  {
    MembersReadBack(ActiveKeys(t));
    ReadBack(u, row.header.height, hashes, ActiveAuthorities(t));
  }

  lemma StoredUnsigned(s: Suite, t: Tables, u: Tables, cfg: Settings, id: string, key: KeyPair, maxEvents: nat, now: int, d: Draft)
    requires Inv(s, t) && cfg.quorumThreshold >= 1 && DraftBlock(s, t, cfg, id, key, maxEvents, now) == Ok(d)
    requires CreateProposal(t, NewBlockRow(s, d.header), d.hashes, d.authorities) == Ok(u)
    ensures Inv(s, u) && Unsigned(s, t, u, d.header, maxEvents) && Heads(t, d.header, cfg, id, now)
  {
    hide Inv, DraftBlock, CreateProposal, SameChains, Extends, Claims, CommitsTo, ProposalReady, MembersAreActive, EventHashes, SnapshotAt, Selection, ActiveAuthorities, PreviousHashAt;
    var row := NewBlockRow(s, d.header);
    DraftHeads(s, t, cfg, id, key, maxEvents, now, d);
    DraftIsReady(s, t, cfg, id, key, maxEvents, now);
    StoreProposalInv(s, t, row, d.hashes, d.authorities);
    ProposalKeepsChains(t, row, d.hashes, d.authorities);
    HasChildren(s, t);
    ProposalEffect(t, u, row, d.hashes, d.authorities);
    ClaimedMembers(t, u, row, d.hashes);
    ClaimedRow(t, u, row, d.hashes, d.authorities);
  }

  lemma HasChildren(s: Suite, t: Tables)
    requires Inv(s, t)
    ensures ChildrenInv(t)
  {
  }

  lemma ClaimedRow(t: Tables, u: Tables, row: BlockRow, hashes: seq<Bytes>, authorities: Snapshot)
    requires Claims(t, u, row, hashes, authorities)
    ensures row.header.height !in t.blocks && u.blocks == t.blocks[row.header.height := row]
    ensures Signatures(u, row.header.height) == map[]
  {
  }

  lemma ProposerIsMember(s: Suite, t: Tables, u: Tables, header: BlockHeader, cfg: Settings, id: string, key: KeyPair, maxEvents: nat, now: int)
    requires Unsigned(s, t, u, header, maxEvents) && Heads(t, header, cfg, id, now) && HasKey(t, id, key.publicKey)
    ensures IsMember(u, header.height, id, key) && u.blocks[header.height].blockHash == HeaderHash(s, header)
  {
    hide Extends, SameChains, EventHashes, SnapshotAt, HeaderHash;
  }

  lemma OnlySigner(u: Tables, v: Tables, h: int, id: string, signature: Bytes, now: int)
    requires Countersigned(u, v, h, id, signature, now) && Signatures(u, h) == map[]
    ensures Signatures(v, h) == map[id := SignatureRow(signature, now)]
  {
    hide OnlySignedAt;
    assert Signatures(v, h).Keys == {id};
    assert Signatures(v, h)[id] == SignatureRow(signature, now);
  }

  lemma SignedFinality(u: Tables, v: Tables, h: int, id: string, signature: Bytes, now: int)
    requires Countersigned(u, v, h, id, signature, now) && u.blocks[h].status == Proposed
    ensures FinalWith(v, h, now)
  {
    hide OnlySignedAt;
  }

  lemma SignedContentsKept(u: Tables, v: Tables, h: int, id: string, signature: Bytes, now: int)
    requires Countersigned(u, v, h, id, signature, now)
    ensures v.blocks.Keys == u.blocks.Keys && v.blocks[h].header == u.blocks[h].header && v.blocks[h].blockHash == u.blocks[h].blockHash
    ensures EventHashes(v, h) == EventHashes(u, h) && SnapshotAt(v, h) == SnapshotAt(u, h) && Members(v, h) == Members(u, h)
    ensures SameChains(u, v)
  {
    assert Slots(v, h) == Slots(u, h);
  }

  lemma SignedReports(s: Suite, v: Tables, r: ProposalReport, header: BlockHeader, hashes: seq<Bytes>)
    requires header.height in v.blocks && v.blocks[header.height].header == header && v.blocks[header.height].blockHash == HeaderHash(s, header)
    requires header.eventCount == |hashes|
    requires r == ProposalReport(header.height, HeaderHash(s, header), |hashes|, header.merkleRoot,
                                 v.blocks[header.height].status, |Signatures(v, header.height)|, header.quorumThreshold)
    ensures Reports(v, r)
  {
  }

  lemma SignedActive(t: Tables, u: Tables, v: Tables, h: int)
    requires MembersAreActive(t, u, h) && Members(v, h) == Members(u, h)
    ensures MembersAreActive(t, v, h)
  {
  }

  lemma SignedNextBlock(s: Suite, t: Tables, u: Tables, v: Tables, cfg: Settings, id: string, maxEvents: nat, now: int, header: BlockHeader)
    requires Unsigned(s, t, u, header, maxEvents) && Heads(t, header, cfg, id, now)
    requires CommitsTo(s, header, Selection(t, maxEvents), ActiveAuthorities(t))
    requires v.blocks.Keys == u.blocks.Keys && v.blocks[header.height].header == header
    requires EventHashes(v, header.height) == EventHashes(u, header.height) && SnapshotAt(v, header.height) == SnapshotAt(u, header.height)
    requires MembersAreActive(t, v, header.height)
    ensures NextBlock(s, t, v, header.height, cfg, id, maxEvents, now)
  {
    hide Extends, Selection, ActiveAuthorities, SnapshotHash, RootOf, EventHashes, SnapshotAt, MembersAreActive, Signatures, Members, PreviousHashAt;
  }

  /** The first signature of a new block completes the proposal. */
  lemma SignedProposes(s: Suite, t: Tables, u: Tables, v: Tables, r: ProposalReport, cfg: Settings, id: string, key: KeyPair, maxEvents: nat, now: int, signedAt: int, header: BlockHeader)
    requires Unsigned(s, t, u, header, maxEvents) && Heads(t, header, cfg, id, now)
    requires CommitsTo(s, header, Selection(t, maxEvents), ActiveAuthorities(t))
    requires Countersigned(u, v, header.height, id, key.sign(HeaderHash(s, header)), signedAt) && Extends(u, v)
    requires r == ProposalReport(header.height, HeaderHash(s, header), |Selection(t, maxEvents)|, header.merkleRoot,
                                 v.blocks[header.height].status, |Signatures(v, header.height)|, cfg.quorumThreshold)
    ensures Proposes(s, t, v, r, cfg, id, key, maxEvents, now, signedAt)
  {
    hide Extends, Selection, ActiveAuthorities, SnapshotHash, RootOf, HeaderHash, Countersigned, EventHashes, SnapshotAt, MembersAreActive, Reports, Signatures, Members, NextBlock, FinalWith;
    ExtendsTransitive(t, u, v);
    OnlySigner(u, v, header.height, id, key.sign(HeaderHash(s, header)), signedAt);
    SignedContentsKept(u, v, header.height, id, key.sign(HeaderHash(s, header)), signedAt);
    SignedActive(t, u, v, header.height);
    SignedFinality(u, v, header.height, id, key.sign(HeaderHash(s, header)), signedAt);
    SignedNextBlock(s, t, u, v, cfg, id, maxEvents, now, header);
    SignedReports(s, v, r, header, Selection(t, maxEvents));
  }

  /**
   * What proposing leads to: nothing, without everything that is demanded; with it and a working
   * key, the next block signed by its proposer, unless the header's hash is taken.
   */
  lemma ProposeOutcome(s: Suite, t: Tables, cfg: Settings, id: string, key: KeyPair, maxEvents: int, now: int, signedAt: int)
    requires Inv(s, t) && cfg.quorumThreshold >= 1
    ensures var (u, r) := Propose(s, t, cfg, id, key, maxEvents, now, signedAt);
            && (!MayPropose(t, cfg, id, key, maxEvents) ==> r.Err? && u == t)
            && (r.Ok? ==> maxEvents >= 1 && Proposes(s, t, u, r.value, cfg, id, key, maxEvents, now, signedAt))
            && (MayPropose(t, cfg, id, key, maxEvents) && ClashAhead(s, t, cfg, id, maxEvents, now) ==> r.Err? && u == t)
            && (KeyWorks(s, key) && MayPropose(t, cfg, id, key, maxEvents) && !ClashAhead(s, t, cfg, id, maxEvents, now) ==> r.Ok?)
  {
    hide Inv, DraftBlock, CreateProposal, Sign, MayPropose, ClashAhead, HashClash, Proposes, SameChains, Unsigned, Heads, CommitsTo;
    DraftIff(s, t, cfg, id, key, maxEvents, now);
    var draft := DraftBlock(s, t, cfg, id, key, maxEvents, now);
    if draft.Ok? {
      var d := draft.value;
      DraftHeads(s, t, cfg, id, key, maxEvents, now, d);
      DraftClashes(s, t, cfg, id, key, maxEvents, now, d);
      if HashClash(s, t, d.header) {
        ClashIsConflict(s, t, d.header, d.hashes, d.authorities);
      } else {
        NoClashProposes(s, t, cfg, id, key, maxEvents, now, signedAt, d);
      }
    }
  }

  lemma NoClashProposes(s: Suite, t: Tables, cfg: Settings, id: string, key: KeyPair, maxEvents: nat, now: int, signedAt: int, d: Draft)
    requires Inv(s, t) && cfg.quorumThreshold >= 1 && DraftBlock(s, t, cfg, id, key, maxEvents, now) == Ok(d)
    requires !HashClash(s, t, d.header)
    ensures var (u, r) := Propose(s, t, cfg, id, key, maxEvents, now, signedAt);
            && (r.Ok? ==> Proposes(s, t, u, r.value, cfg, id, key, maxEvents, now, signedAt))
            && (KeyWorks(s, key) ==> r.Ok?)
  {
    hide Inv, DraftBlock, CreateProposal, Sign, HashClash, Proposes, SameChains, Unsigned, Heads, CommitsTo, Countersigned;
    DraftHeads(s, t, cfg, id, key, maxEvents, now, d);
    DraftReadyToStore(s, t, d.header, cfg, id, now, maxEvents);
    var h, u := d.header.height, CreateProposal(t, NewBlockRow(s, d.header), d.hashes, d.authorities).value;
    StoredUnsigned(s, t, u, cfg, id, key, maxEvents, now, d);
    SignOutcome(s, u, h, id, key, signedAt);
    ProposerIsMember(s, t, u, d.header, cfg, id, key, maxEvents, now);
    var signed := Sign(s, u, h, id, key, signedAt);
    if signed.Ok? {
      SignKeepsInv(s, u, h, id, key, signedAt);
      var (v, r) := Propose(s, t, cfg, id, key, maxEvents, now, signedAt);
      SignedProposes(s, t, u, v, r.value, cfg, id, key, maxEvents, now, signedAt, d.header);
    }
  }
  // ---------------------------------------------------------------------------
  // What an error says
  // ---------------------------------------------------------------------------

  /** The error names something that is wrong with the event, or with its place in the stored chain. */
  predicate EventFault(s: Suite, t: Tables, e: SignedEvent, error: LedgerError) {
    match error
    case BadVersion => e.version != 1
    case SequenceNotPositive => e.sequence < 1
    case BadEventType => !(1 <= |e.eventType| <= 128)
    case UnknownDevice => e.deviceId !in t.devices
    case InactiveDevice => e.deviceId in t.devices && t.devices[e.deviceId].status == Revoked
    case Unencodable => !Supported(Map(e.payload))
    case BadDeviceSignature => e.deviceId in t.devices && !s.verify(t.devices[e.deviceId].publicKey, e.signature, SigningBytes(s, e))
    case Refused(HashCollision) => EventHash(s, e) in t.events && !SameBytes(s, t, e)
    case Refused(BadSequence(expected, received)) =>
      e.deviceId in t.devices && expected == t.devices[e.deviceId].lastSequence + 1 && received == e.sequence != expected
    case Refused(BrokenContinuity) => e.deviceId in t.devices && e.previousEventHash != t.devices[e.deviceId].lastEventHash
    case _ => false
  }

  lemma AcceptFault(s: Suite, t: Tables, e: SignedEvent, now: int)
    requires Inv(s, t) && Accept(s, t, e, now).Err?
    ensures EventFault(s, t, e, Accept(s, t, e, now).error)
  {
    hide Inv;
    if e.deviceId in t.devices {
      NextKeyIsFree(s, t, e.deviceId);
    }
  }

  predicate SignatureFault(s: Suite, t: Tables, h: int, id: string, signature: Bytes, error: LedgerError) {
    match error
    case UnknownBlock => h !in t.blocks
    case NotAMember => h in t.blocks && id !in Members(t, h)
    case BadAuthoritySignature => h in t.blocks && id in Members(t, h) && !s.verify(Members(t, h)[id], signature, t.blocks[h].blockHash)
    case _ => false
  }

  lemma AddSignatureFault(s: Suite, t: Tables, h: int, id: string, signature: Bytes, now: int)
    requires Inv(s, t) && AddSignature(s, t, h, id, signature, now).Err?
    ensures SignatureFault(s, t, h, id, signature, AddSignature(s, t, h, id, signature, now).error)
  {
    hide Inv;
    AddSignatureOutcome(s, t, h, id, signature, now);
  }

  /** The error names what is missing for a proposal. */
  ghost predicate ProposalFault(s: Suite, t: Tables, cfg: Settings, id: string, key: KeyPair, maxEvents: int, now: int, error: LedgerError) {
    match error
    case BadLimit => !(1 <= maxEvents <= 10000)
    case BlockOpen => exists h :: h in t.blocks && t.blocks[h].status == Proposed
    case TooFewAuthorities => |set a | a in t.authorities && t.authorities[a].active| < cfg.quorumThreshold
    case NotAnAuthority => !(id in t.authorities && t.authorities[id].active)
    case WrongKey => id in t.authorities && t.authorities[id].active && t.authorities[id].publicKey != key.publicKey
    case NothingPending => forall e :: e in t.events ==> t.events[e].blockHeight.Some?
    case Refused(IntegrityError) => ClashAhead(s, t, cfg, id, maxEvents, now)
    case SelfCheckFailed => !KeyWorks(s, key)
    case _ => false
  }

  lemma DraftFault(s: Suite, t: Tables, cfg: Settings, id: string, key: KeyPair, maxEvents: int, now: int)
    requires DraftBlock(s, t, cfg, id, key, maxEvents, now).Err?
    ensures ProposalFault(s, t, cfg, id, key, maxEvents, now, DraftBlock(s, t, cfg, id, key, maxEvents, now).error)
  {
    hide Selection, ActiveAuthorities, LastFinal, NewHeader, ClashAhead, KeyWorks;
    ActiveCount(t);
    if maxEvents >= 1 {
      SomethingSelected(t, maxEvents);
    }
  }

  lemma NamedFaults(s: Suite, t: Tables, cfg: Settings, id: string, key: KeyPair, maxEvents: int, now: int)
    ensures ClashAhead(s, t, cfg, id, maxEvents, now) ==> ProposalFault(s, t, cfg, id, key, maxEvents, now, Refused(IntegrityError))
    ensures !KeyWorks(s, key) ==> ProposalFault(s, t, cfg, id, key, maxEvents, now, SelfCheckFailed)
  {
    hide ClashAhead, KeyWorks;
  }

  lemma ClashFault(s: Suite, t: Tables, cfg: Settings, id: string, key: KeyPair, maxEvents: nat, now: int, d: Draft)
    requires Inv(s, t) && DraftBlock(s, t, cfg, id, key, maxEvents, now) == Ok(d)
    requires CreateProposal(t, NewBlockRow(s, d.header), d.hashes, d.authorities).Err?
    ensures CreateProposal(t, NewBlockRow(s, d.header), d.hashes, d.authorities) == Err(IntegrityError)
    ensures ProposalFault(s, t, cfg, id, key, maxEvents, now, Refused(IntegrityError))
  {
    hide Inv, DraftBlock, BlockConflict, SlotConflict, MemberConflict, HashClash, ClashAhead, Heads, CommitsTo, ProposalFault;
    DraftHeads(s, t, cfg, id, key, maxEvents, now, d);
    DraftClashes(s, t, cfg, id, key, maxEvents, now, d);
    HeadIsNext(t, d.header, cfg, id, now);
    DraftIsStored(s, t, d.header, maxEvents);
    NamedFaults(s, t, cfg, id, key, maxEvents, now);
  }

  lemma HeadIsNext(t: Tables, header: BlockHeader, cfg: Settings, id: string, now: int)
    requires Heads(t, header, cfg, id, now)
    ensures header.height == |t.blocks| + 1
  {
  }

  lemma SelfCheckFault(s: Suite, t: Tables, u: Tables, cfg: Settings, id: string, key: KeyPair, maxEvents: nat, now: int, signedAt: int, d: Draft)
    requires Inv(s, t) && cfg.quorumThreshold >= 1 && DraftBlock(s, t, cfg, id, key, maxEvents, now) == Ok(d)
    requires CreateProposal(t, NewBlockRow(s, d.header), d.hashes, d.authorities) == Ok(u)
    requires Sign(s, u, d.header.height, id, key, signedAt).Err?
    ensures Sign(s, u, d.header.height, id, key, signedAt) == Err(SelfCheckFailed)
    ensures ProposalFault(s, t, cfg, id, key, maxEvents, now, SelfCheckFailed)
  {
    hide Inv, DraftBlock, CreateProposal, Unsigned, Heads, CommitsTo, Countersigned, InsertSignature, ProposalFault;
    DraftHeads(s, t, cfg, id, key, maxEvents, now, d);
    StoredUnsigned(s, t, u, cfg, id, key, maxEvents, now, d);
    ProposerIsMember(s, t, u, d.header, cfg, id, key, maxEvents, now);
    SignOutcome(s, u, d.header.height, id, key, signedAt);
    NamedFaults(s, t, cfg, id, key, maxEvents, now);
    if s.verify(key.publicKey, key.sign(u.blocks[d.header.height].blockHash), u.blocks[d.header.height].blockHash) {
      SignatureOutcome(s, u, d.header.height, id, key.sign(u.blocks[d.header.height].blockHash), signedAt);
    }
  }

  lemma ProposeFault(s: Suite, t: Tables, cfg: Settings, id: string, key: KeyPair, maxEvents: int, now: int, signedAt: int)
    requires Inv(s, t) && cfg.quorumThreshold >= 1 && Propose(s, t, cfg, id, key, maxEvents, now, signedAt).1.Err?
    ensures ProposalFault(s, t, cfg, id, key, maxEvents, now, Propose(s, t, cfg, id, key, maxEvents, now, signedAt).1.error)
  {
    hide Inv, DraftBlock, CreateProposal, Sign, ProposalFault, Selection, ActiveAuthorities, Heads, CommitsTo, HasKey;
    var draft := DraftBlock(s, t, cfg, id, key, maxEvents, now);
    if draft.Err? {
      DraftFault(s, t, cfg, id, key, maxEvents, now);
    } else {
      var d := draft.value;
      DraftHeads(s, t, cfg, id, key, maxEvents, now, d);
      var created := CreateProposal(t, NewBlockRow(s, d.header), d.hashes, d.authorities);
      if created.Err? {
        ClashFault(s, t, cfg, id, key, maxEvents, now, d);
      } else {
        SelfCheckFault(s, t, created.value, cfg, id, key, maxEvents, now, signedAt, d);
      }
    }
  }
}
