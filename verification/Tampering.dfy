/** What a database that passes the audit guarantees, and which changes of its rows the audit notices. */
module Tampering {
  import opened Primitives
  import opened Models
  import opened Store
  import opened Merkle
  import opened MerkleTheory
  import opened Audit
  import opened Invariant
  import opened Proposal
  import opened Signing
  import opened Commitment
  import opened Columns
  import opened Outcomes

  // ---------------------------------------------------------------------------
  // What a passed audit guarantees
  // ---------------------------------------------------------------------------

  /** The block commits to its contents, every signature stored for it counts, and it is final only with a quorum of them. */
  ghost predicate BlockTrusted(s: Suite, t: Tables, h: int)
    requires h in t.blocks
  {
    && HeaderHash(s, t.blocks[h].header) == t.blocks[h].blockHash
    && CommitsTo(s, t.blocks[h].header, EventHashes(t, h), SnapshotAt(t, h))
    && Signatures(t, h).Keys == ValidSigners(s, t, h)
    && (t.blocks[h].status == Finalized ==> |ValidSigners(s, t, h)| >= t.blocks[h].header.quorumThreshold)
    && (t.blocks[h].status == Proposed ==> h == |t.blocks|)
  }

  /** The event's device is enrolled, and signed it under its enrolled key. */
  predicate EventTrusted(s: Suite, t: Tables, e: Bytes)
    requires e in t.events
  {
    && t.events[e].deviceId in t.devices
    && s.verify(t.devices[t.events[e].deviceId].publicKey, t.events[e].signature, t.events[e].unsigned)
    && s.sha(EventInput(t.events[e].unsigned, t.events[e].signature)) == e
  }

  ghost predicate Trustworthy(s: Suite, t: Tables) {
    && (forall h {:trigger BlockTrusted(s, t, h)} :: h in t.blocks ==> BlockTrusted(s, t, h))
    && (forall e {:trigger EventTrusted(s, t, e)} :: e in t.events ==> EventTrusted(s, t, e))
  }

  lemma AuditedBlock(s: Suite, t: Tables, h: int)
    requires WellFormed(s, t) && h in t.blocks
    ensures BlockTrusted(s, t, h)
  {
    assert BlockOk(s, t, h);
    assert h <= |t.blocks|;
    forall id | id in Signatures(t, h) ensures id in ValidSigners(s, t, h) {
      assert SignatureOk(s, t, h, id);
    }
    assert ValidSigners(s, t, h) == Signatures(t, h).Keys;
  }

  /** A database that passes the audit has a quorum for every final block and its device's signature for every event. */
  lemma AuditedIsTrustworthy(s: Suite, t: Tables)
    requires WellFormed(s, t)
    ensures Trustworthy(s, t)
  {
    hide BlockTrusted;
    forall h | h in t.blocks ensures BlockTrusted(s, t, h) {
      AuditedBlock(s, t, h);
    }
    forall e | e in t.events ensures EventTrusted(s, t, e) {
      assert EventOk(s, t, e);
    }
  }

  function Predecessor(chain: seq<Bytes>, i: nat): Bytes
    requires i <= |chain|
  {
    if i == 0 then ZERO_HASH else chain[i - 1]
  }

  /** The events are numbered 1, 2, ... for the device, each naming the one before it. */
  ghost predicate IsChain(t: Tables, d: string, chain: seq<Bytes>) {
    && (forall i :: 0 <= i < |chain| ==> chain[i] in t.events && EventKey(t, chain[i]) == (d, i + 1))
    && (forall i :: 0 <= i < |chain| ==> t.events[chain[i]].previousEventHash == Predecessor(chain, i))
  }

  lemma LongerChain(t: Tables, d: string, before: seq<Bytes>, e: Bytes)
    requires IsChain(t, d, before) && e in t.events && EventKey(t, e) == (d, |before| + 1)
    requires t.events[e].previousEventHash == Predecessor(before, |before|)
    ensures IsChain(t, d, before + [e])
  {
    var chain := before + [e];
    forall i | 0 <= i < |chain|
      ensures chain[i] in t.events && EventKey(t, chain[i]) == (d, i + 1)
      ensures t.events[chain[i]].previousEventHash == Predecessor(chain, i)
    {
      assert Predecessor(chain, i) == Predecessor(before, i);
    }
  }

  lemma {:induction false} ChainUpTo(s: Suite, t: Tables, e: Bytes, n: nat) returns (chain: seq<Bytes>)
    requires WellFormed(s, t) && e in t.events && n == t.events[e].sequence
    ensures IsChain(t, t.events[e].deviceId, chain) && |chain| == n >= 1 && chain[n - 1] == e
    decreases n
  {
    hide WellFormed, IsChain;
    LinkedEvent(s, t, e);
    var before := [];
    if n == 1 {
      NoChain(t, t.events[e].deviceId);
    } else {
      before := ChainUpTo(s, t, t.events[e].previousEventHash, n - 1);
    }
    LongerChain(t, t.events[e].deviceId, before, e);
    chain := before + [e];
  }

  lemma NoChain(t: Tables, d: string)
    ensures IsChain(t, d, [])
  {
  }

  lemma LinkedEvent(s: Suite, t: Tables, e: Bytes)
    requires WellFormed(s, t) && e in t.events
    ensures Linked(t, e) && t.events[e].deviceId in t.devices && CheckpointOk(t, t.events[e].deviceId)
  {
    assert EventOk(s, t, e);
  }

  /**
   * The events of a device with any are one chain, without a gap, from the zero hash to the
   * sequence and hash that the device's row records.
   */
  lemma AuditedChain(s: Suite, t: Tables, f: Bytes) returns (chain: seq<Bytes>)
    requires WellFormed(s, t) && Keyed(t) && f in t.events
    ensures t.events[f].deviceId in t.devices
    ensures IsChain(t, t.events[f].deviceId, chain)
    ensures forall e :: e in chain <==> e in t.events && t.events[e].deviceId == t.events[f].deviceId
    ensures |chain| == t.devices[t.events[f].deviceId].lastSequence >= 1
    ensures chain[|chain| - 1] == t.devices[t.events[f].deviceId].lastEventHash
  {
    hide WellFormed, Linked;
    var d := t.events[f].deviceId;
    LinkedEvent(s, t, f);
    var last := t.devices[d].lastEventHash;
    assert IsLatest(t, d, last);
    LinkedEvent(s, t, last);
    FirstIsOne(t, last);
    chain := ChainUpTo(s, t, last, t.events[last].sequence);
    forall e | e in t.events && t.events[e].deviceId == d ensures e in chain {
      LinkedEvent(s, t, e);
      FirstIsOne(t, e);
      assert EventKey(t, chain[t.events[e].sequence - 1]) == EventKey(t, e);
    }
  }

  lemma FirstIsOne(t: Tables, e: Bytes)
    requires e in t.events && Linked(t, e)
    ensures t.events[e].sequence >= 1
  {
  }
  // ---------------------------------------------------------------------------
  // What does not concern the blocks, and blocks that were left alone
  // ---------------------------------------------------------------------------

  /** The audit of events, devices and mappings reads nothing of the blocks but their members. */
  lemma EventsStayOk(s: Suite, t: Tables, u: Tables)
    requires WellFormed(s, t) && u.events == t.events && u.devices == t.devices && u.blockEvents == t.blockEvents
    requires u.blocks.Keys == t.blocks.Keys
    ensures HeightsOk(u) && |u.blocks| == |t.blocks|
    ensures forall e :: e in u.events ==> EventOk(s, u, e) && MappingOk(u, e)
    ensures forall d :: d in u.devices ==> CheckpointOk(u, d)
  {
    hide BlockOk, EventOk, MappingOk, CheckpointOk;
    assert |u.blocks.Keys| == |t.blocks.Keys|;
    forall e | e in u.events ensures EventOk(s, u, e) && MappingOk(u, e) {
      assert EventOk(s, t, e) && MappingOk(t, e);
      SameRowOk(s, t, u, e);
      SameMapping(t, u, e);
    }
    forall d | d in u.devices ensures CheckpointOk(u, d) {
      assert CheckpointOk(t, d);
      SameDeviceOk(t, u, d);
    }
  }

  lemma SameMapping(t: Tables, u: Tables, e: Bytes)
    requires e in t.events && u.events == t.events && u.blockEvents == t.blockEvents && MappingOk(t, e)
    ensures MappingOk(u, e)
  {
    if t.events[e].blockHeight.Some? {
      var p :| Occupies(t, t.events[e].blockHeight.value, p, e);
      assert Occupies(u, t.events[e].blockHeight.value, p, e);
    }
  }

  /** A block that was not touched, on the same block as before. */
  lemma SameBlockOk(s: Suite, t: Tables, u: Tables, k: int)
    requires k in t.blocks && k in u.blocks && BlockOk(s, t, k) && u.blocks[k] == t.blocks[k]
    requires PreviousHashAt(u, k) == PreviousHashAt(t, k) && |u.blocks| == |t.blocks|
    requires Slots(u, k) == Slots(t, k) && Members(u, k) == Members(t, k) && Signatures(u, k) == Signatures(t, k)
    requires forall e :: e in EventHashes(t, k) ==> MemberOk(u, k, e)
    ensures BlockOk(s, u, k)
  {
    forall id | id in Signatures(u, k) ensures SignatureOk(s, u, k, id) {
      assert SignatureOk(s, t, k, id);
    }
    ContentsFrame(s, t, u, k);
  }

  lemma SameMembersOk(s: Suite, t: Tables, u: Tables, k: int)
    requires k in t.blocks && k in u.blocks && BlockOk(s, t, k) && u.blocks[k].status == t.blocks[k].status && u.events == t.events
    ensures forall e :: e in EventHashes(t, k) ==> MemberOk(u, k, e)
  {
    forall e | e in EventHashes(t, k) ensures MemberOk(u, k, e) {
      assert MemberOk(t, k, e);
    }
  }

  // ---------------------------------------------------------------------------
  // Signatures
  // ---------------------------------------------------------------------------

  function WithSignatures(t: Tables, h: int, signatures: map<string, SignatureRow>): Tables {
    t.(blockSignatures := t.blockSignatures[h := signatures])
  }

  /** Every one of these signatures of the block is by a member of its snapshot and verifies. */
  predicate AllValid(s: Suite, t: Tables, h: int, signatures: map<string, SignatureRow>)
    requires h in t.blocks
  {
    forall id | id in signatures ::
      id in Members(t, h) && Members(t, h)[id] != [] && s.verify(Members(t, h)[id], signatures[id].signature, t.blocks[h].blockHash)
  }

  lemma ResignedIsValid(s: Suite, t: Tables, h: int, signatures: map<string, SignatureRow>)
    requires h in t.blocks && ContentsOk(s, WithSignatures(t, h, signatures), h)
    ensures AllValid(s, t, h, signatures)
  {
    hide RootOf, HeaderHash, SnapshotHash, EventHashes, SnapshotAt;
    forall id | id in signatures
      ensures id in Members(t, h) && Members(t, h)[id] != [] && s.verify(Members(t, h)[id], signatures[id].signature, t.blocks[h].blockHash)
    {
      assert SignatureOk(s, WithSignatures(t, h, signatures), h, id);
    }
  }

  lemma ValidIsResigned(s: Suite, t: Tables, h: int, signatures: map<string, SignatureRow>)
    requires h in t.blocks && BlockOk(s, t, h) && AllValid(s, t, h, signatures)
    ensures ContentsOk(s, WithSignatures(t, h, signatures), h)
  {
    hide RootOf, HeaderHash, SnapshotHash, EventHashes, SnapshotAt, MemberOk;
    var u := WithSignatures(t, h, signatures);
    SameMembersOk(s, t, u, h);
    forall id | id in Signatures(u, h) ensures SignatureOk(s, u, h, id) {}
    ContentsFrame(s, t, u, h);
  }

  lemma ValidResigned(s: Suite, t: Tables, h: int, signatures: map<string, SignatureRow>)
    requires h in t.blocks && BlockOk(s, t, h)
    ensures ContentsOk(s, WithSignatures(t, h, signatures), h) <==> AllValid(s, t, h, signatures)
  {
    hide BlockOk, ContentsOk, AllValid;
    if AllValid(s, t, h, signatures) {
      ValidIsResigned(s, t, h, signatures);
    }
    if ContentsOk(s, WithSignatures(t, h, signatures), h) {
      ResignedIsValid(s, t, h, signatures);
    }
  }

  lemma ResignedBlockOk(s: Suite, t: Tables, h: int, signatures: map<string, SignatureRow>)
    requires h in t.blocks && BlockOk(s, t, h)
    ensures BlockOk(s, WithSignatures(t, h, signatures), h) <==>
              AllValid(s, t, h, signatures) && (t.blocks[h].status == Finalized ==> |signatures| >= t.blocks[h].header.quorumThreshold)
  {
    hide ContentsOk, AllValid;
    ValidResigned(s, t, h, signatures);
  }

  /**
   * Whatever is done to the signatures of a block goes unnoticed exactly when what is left is
   * valid signatures of members and, for a final block, a quorum of them.
   */
  lemma SignaturesUnnoticedIff(s: Suite, t: Tables, h: int, signatures: map<string, SignatureRow>)
    requires WellFormed(s, t) && h in t.blocks
    ensures WellFormed(s, WithSignatures(t, h, signatures)) <==>
              AllValid(s, t, h, signatures) && (t.blocks[h].status == Finalized ==> |signatures| >= t.blocks[h].header.quorumThreshold)
  {
    hide BlockOk, AllValid, EventOk, MappingOk, CheckpointOk;
    var u := WithSignatures(t, h, signatures);
    EventsStayOk(s, t, u);
    ResignedBlockOk(s, t, h, signatures);
    forall k | k in u.blocks && k != h ensures BlockOk(s, u, k) {
      SameMembersOk(s, t, u, k);
      SameBlockOk(s, t, u, k);
    }
  }

  lemma FewerValid(s: Suite, t: Tables, h: int, signatures: map<string, SignatureRow>, id: string)
    requires h in t.blocks && AllValid(s, t, h, signatures)
    ensures AllValid(s, t, h, signatures - {id})
  {
  }

  /** Deleting a signature of a final block is noticed exactly when that leaves it without a quorum. */
  lemma RemovedSignatureUnnoticedIff(s: Suite, t: Tables, h: int, id: string)
    requires WellFormed(s, t) && h in t.blocks && id in Signatures(t, h)
    ensures WellFormed(s, WithSignatures(t, h, Signatures(t, h) - {id})) <==>
              (t.blocks[h].status == Finalized ==> |ValidSigners(s, t, h)| > t.blocks[h].header.quorumThreshold)
  {
    hide WellFormed, AllValid, CommitsTo, EventHashes, SnapshotAt;
    var rest := Signatures(t, h) - {id};
    AuditedBlock(s, t, h);
    assert rest.Keys == Signatures(t, h).Keys - {id};
    assert |rest| == |rest.Keys| == |ValidSigners(s, t, h)| - 1;
    AuditedSignatures(s, t, h);
    FewerValid(s, t, h, Signatures(t, h), id);
    SignaturesUnnoticedIff(s, t, h, rest);
  }

  lemma AuditedSignatures(s: Suite, t: Tables, h: int)
    requires WellFormed(s, t) && h in t.blocks
    ensures AllValid(s, t, h, Signatures(t, h))
  {
    assert BlockOk(s, t, h);
    forall id | id in Signatures(t, h)
      ensures id in Members(t, h) && Members(t, h)[id] != [] && s.verify(Members(t, h)[id], Signatures(t, h)[id].signature, t.blocks[h].blockHash)
    {
      assert SignatureOk(s, t, h, id);
    }
  }

  // ---------------------------------------------------------------------------
  // Deleted events
  // ---------------------------------------------------------------------------

  function WithoutEvent(t: Tables, e: Bytes): Tables { t.(events := t.events - {e}) }

  /** The event is the only one of its device. */
  ghost predicate OnlyOne(t: Tables, e: Bytes)
    requires e in t.events
  {
    forall f :: f in t.events && t.events[f].deviceId == t.events[e].deviceId ==> f == e
  }

  lemma DeletedFromBlock(s: Suite, t: Tables, e: Bytes)
    requires WellFormed(s, t) && MembershipRefers(t) && e in t.events && t.events[e].blockHeight.Some?
    ensures !WellFormed(s, WithoutEvent(t, e))
  {
    hide BlockOk, EventOk, MappingOk, CheckpointOk;
    var u, h := WithoutEvent(t, e), t.events[e].blockHeight.value;
    NamedBlockHasIt(s, t, e);
    assert EventHashes(u, h) == EventHashes(t, h);
    if WellFormed(s, u) {
      MemberNamesBlock(s, u, h, e);
    }
  }

  /** Two audited databases with the same device rows, one holding no more events: they have all events of a device or none. */
  lemma AllOrNone(s: Suite, t: Tables, u: Tables, e: Bytes, f: Bytes)
    requires WellFormed(s, t) && Keyed(t) && WellFormed(s, u) && Keyed(u) && u.devices == t.devices
    requires forall g :: g in u.events ==> g in t.events && u.events[g] == t.events[g]
    requires e in t.events && f in t.events && t.events[f].deviceId == t.events[e].deviceId
    ensures f in u.events ==> e in u.events
  {
    hide WellFormed;
    if f in u.events {
      var whole := AuditedChain(s, t, e);
      var rest := AuditedChain(s, u, f);
      var i :| 0 <= i < |whole| && whole[i] == e;
      assert EventKey(u, rest[i]) == EventKey(t, rest[i]);
      assert EventKey(t, rest[i]) == EventKey(t, whole[i]);
    }
  }

  lemma DeletedKeyed(t: Tables, e: Bytes)
    requires Keyed(t)
    ensures Keyed(WithoutEvent(t, e))
  {
    var u := WithoutEvent(t, e);
    forall h, p, k, q, f | Occupies(u, h, p, f) && Occupies(u, k, q, f) ensures h == k && p == q {
      assert Occupies(t, h, p, f) && Occupies(t, k, q, f);
    }
    forall f, g | f in u.events && g in u.events && EventKey(u, f) == EventKey(u, g) ensures f == g {
      assert EventKey(t, f) == EventKey(t, g);
    }
  }
  lemma DeletedOnly(s: Suite, t: Tables, e: Bytes)
    requires WellFormed(s, t) && Keyed(t) && e in t.events && WellFormed(s, WithoutEvent(t, e))
    ensures OnlyOne(t, e)
  {
    hide WellFormed;
    DeletedKeyed(t, e);
    forall f | f in t.events && t.events[f].deviceId == t.events[e].deviceId ensures f == e {
      AllOrNone(s, t, WithoutEvent(t, e), e, f);
    }
  }

  lemma UnseenEvent(s: Suite, t: Tables, e: Bytes, f: Bytes)
    requires WellFormed(s, t) && e in t.events && OnlyOne(t, e) && f in t.events && f != e
    ensures EventOk(s, WithoutEvent(t, e), f) && MappingOk(WithoutEvent(t, e), f)
  {
    var u := WithoutEvent(t, e);
    assert EventOk(s, t, f) && MappingOk(t, f);
    assert t.events[f].sequence > 1 ==> EventKey(t, t.events[f].previousEventHash).0 == t.events[f].deviceId;
    if t.events[f].blockHeight.Some? {
      var p :| Occupies(t, t.events[f].blockHeight.value, p, f);
      assert Occupies(u, t.events[f].blockHeight.value, p, f);
    }
  }

  lemma UnseenDevice(t: Tables, e: Bytes, d: string)
    requires e in t.events && OnlyOne(t, e) && d in t.devices && CheckpointOk(t, d)
    ensures CheckpointOk(WithoutEvent(t, e), d)
  {
    if f :| f in t.events && f != e && t.events[f].deviceId == d {
      assert IsLatest(t, d, t.devices[d].lastEventHash);
    }
  }

  lemma UnseenBlock(s: Suite, t: Tables, e: Bytes, h: int)
    requires e in t.events && t.events[e].blockHeight.None? && h in t.blocks && BlockOk(s, t, h)
    ensures BlockOk(s, WithoutEvent(t, e), h)
  {
    forall f | f in EventHashes(t, h) ensures MemberOk(WithoutEvent(t, e), h, f) {
      assert MemberOk(t, h, f);
    }
    SameBlockOk(s, t, WithoutEvent(t, e), h);
  }

  /**
   * Deleting an event goes unnoticed exactly when it is in no block and the only one of its
   * device: then nothing refers to it, and the audit compares no checkpoint of a device without events.
   */
  lemma DeletionUnnoticedIff(s: Suite, t: Tables, e: Bytes)
    requires WellFormed(s, t) && Keyed(t) && MembershipRefers(t) && e in t.events
    ensures WellFormed(s, WithoutEvent(t, e)) <==> t.events[e].blockHeight.None? && OnlyOne(t, e)
  {
    hide BlockOk, EventOk, MappingOk, CheckpointOk, OnlyOne;
    var u := WithoutEvent(t, e);
    if t.events[e].blockHeight.Some? {
      DeletedFromBlock(s, t, e);
    }
    if WellFormed(s, u) {
      DeletedOnly(s, t, e);
    }
    if t.events[e].blockHeight.None? && OnlyOne(t, e) {
      forall h | h in u.blocks ensures BlockOk(s, u, h) {
        assert BlockOk(s, t, h);
        UnseenBlock(s, t, e, h);
      }
      forall f | f in u.events ensures EventOk(s, u, f) && MappingOk(u, f) {
        UnseenEvent(s, t, e, f);
      }
      forall d | d in u.devices ensures CheckpointOk(u, d) {
        assert CheckpointOk(t, d);
        UnseenDevice(t, e, d);
      }
    }
  }

  // ---------------------------------------------------------------------------
  // Membership rows, snapshots and block rows
  // ---------------------------------------------------------------------------

  function WithMembership(t: Tables, h: int, slots: map<int, Bytes>): Tables {
    t.(blockEvents := t.blockEvents[h := slots])
  }

  lemma SameRows(t: Tables, u: Tables, h: int)
    requires Slots(u, h) == Slots(t, h)
    ensures EventHashes(u, h) == EventHashes(t, h)
  {
  }

  lemma RearrangedSignatures(s: Suite, t: Tables, u: Tables, k: int)
    requires u == t.(blockEvents := u.blockEvents) && k in t.blocks && ContentsOk(s, t, k)
    ensures forall id :: id in Signatures(u, k) ==> SignatureOk(s, u, k, id)
  {
    forall id | id in Signatures(u, k) ensures SignatureOk(s, u, k, id) {
      assert SignatureOk(s, t, k, id);
    }
  }

  lemma RearrangedMembers(s: Suite, t: Tables, u: Tables, k: int)
    requires u == t.(blockEvents := u.blockEvents) && k in t.blocks && ContentsOk(s, t, k) && EventHashes(u, k) == EventHashes(t, k)
    ensures forall e :: e in EventHashes(u, k) ==> MemberOk(u, k, e)
  {
    forall e | e in EventHashes(u, k) ensures MemberOk(u, k, e) {
      assert MemberOk(t, k, e);
    }
  }

  lemma RearrangedContents(s: Suite, t: Tables, u: Tables, k: int)
    requires u == t.(blockEvents := u.blockEvents) && k in t.blocks && ContentsOk(s, t, k) && EventHashes(u, k) == EventHashes(t, k)
    ensures ContentsOk(s, u, k)
  {
    hide EventHashes, RootOf, HeaderHash, SnapshotHash, SignatureOk, MemberOk, Signatures;
    RearrangedSignatures(s, t, u, k);
    RearrangedMembers(s, t, u, k);
    assert SnapshotAt(u, k) == SnapshotAt(t, k);
  }

  lemma RearrangedBlock(s: Suite, t: Tables, u: Tables, k: int)
    requires u == t.(blockEvents := u.blockEvents) && k in t.blocks && BlockOk(s, t, k) && EventHashes(u, k) == EventHashes(t, k)
    ensures BlockOk(s, u, k)
  {
    hide EventHashes, ContentsOk;
    RearrangedContents(s, t, u, k);
  }

  lemma RearrangedBlocks(s: Suite, t: Tables, h: int, slots: map<int, Bytes>)
    requires WellFormed(s, t) && h in t.blocks && EventHashes(WithMembership(t, h, slots), h) == EventHashes(t, h)
    ensures forall k :: k in t.blocks ==> BlockOk(s, WithMembership(t, h, slots), k)
  {
    hide EventHashes, BlockOk;
    var u := WithMembership(t, h, slots);
    forall k | k in t.blocks ensures BlockOk(s, u, k) {
      assert BlockOk(s, t, k);
      if k != h {
        SameRows(t, u, k);
      }
      RearrangedBlock(s, t, u, k);
    }
  }

  lemma RearrangedMappings(s: Suite, t: Tables, h: int, slots: map<int, Bytes>)
    requires WellFormed(s, t) && h in t.blocks && EventHashes(WithMembership(t, h, slots), h) == EventHashes(t, h)
    ensures forall e :: e in t.events ==> MappingOk(WithMembership(t, h, slots), e)
  {
    hide EventHashes, BlockOk;
    var u := WithMembership(t, h, slots);
    forall e | e in t.events ensures MappingOk(u, e) {
      assert MappingOk(t, e);
      if t.events[e].blockHeight.Some? {
        var k := t.events[e].blockHeight.value;
        var p :| Occupies(t, k, p, e);
        assert k != h ==> Occupies(u, k, p, e);
        MemberIffOccupies(t, h, e);
        MemberIffOccupies(u, h, e);
      }
    }
  }

  lemma RearrangedIsWellFormed(s: Suite, t: Tables, h: int, slots: map<int, Bytes>)
    requires WellFormed(s, t) && h in t.blocks && EventHashes(WithMembership(t, h, slots), h) == EventHashes(t, h)
    ensures WellFormed(s, WithMembership(t, h, slots))
  {
    hide EventHashes, BlockOk, MappingOk, EventOk, CheckpointOk;
    var u := WithMembership(t, h, slots);
    RearrangedBlocks(s, t, h, slots);
    RearrangedMappings(s, t, h, slots);
    forall e | e in u.events ensures EventOk(s, u, e) {
      assert EventOk(s, t, e);
      SameRowOk(s, t, u, e);
    }
    forall d | d in u.devices ensures CheckpointOk(u, d) {
      assert CheckpointOk(t, d);
      SameDeviceOk(t, u, d);
    }
  }

  lemma SameRowOk(s: Suite, t: Tables, u: Tables, e: Bytes)
    requires u.events == t.events && u.devices == t.devices && e in t.events && EventOk(s, t, e)
    ensures EventOk(s, u, e)
  {
  }

  lemma SameDeviceOk(t: Tables, u: Tables, d: string)
    requires u.events == t.events && u.devices == t.devices && d in t.devices && CheckpointOk(t, d)
    ensures CheckpointOk(u, d)
  {
  }

  /**
   * Whatever is done to the membership rows of a block goes unnoticed exactly when they still
   * list the same events in the same order, or two of the byte strings hashed for its root collide.
   */
  lemma MembershipUnnoticedIff(s: Suite, t: Tables, h: int, slots: map<int, Bytes>)
    requires WellFormed(s, t) && h in t.blocks
    ensures var u := WithMembership(t, h, slots);
            CollisionIn(s.sha, RootInputs(s.sha, EventHashes(t, h)) + RootInputs(s.sha, EventHashes(u, h)))
            || (WellFormed(s, u) <==> EventHashes(u, h) == EventHashes(t, h))
  {
    hide BlockOk, MappingOk, EventOk, CheckpointOk, RootInputs, RootOf;
    var u := WithMembership(t, h, slots);
    if EventHashes(u, h) == EventHashes(t, h) {
      RearrangedIsWellFormed(s, t, h, slots);
    }
    if WellFormed(s, u) && !CollisionIn(s.sha, RootInputs(s.sha, EventHashes(t, h)) + RootInputs(s.sha, EventHashes(u, h))) {
      AuditedContents(s, t, h);
      AuditedContents(s, u, h);
      RootCommitsToList(s.sha, EventHashes(t, h), EventHashes(u, h));
    }
  }

  function WithSnapshot(t: Tables, h: int, members: map<string, Bytes>): Tables {
    t.(blockAuthorities := t.blockAuthorities[h := members])
  }

  /** Any change of a block's authority snapshot is noticed, unless the two encoded snapshots collide. */
  lemma SnapshotChangeNoticed(s: Suite, t: Tables, h: int, members: map<string, Bytes>)
    requires Lawful(s) && WellFormed(s, t) && h in t.blocks && WellFormed(s, WithSnapshot(t, h, members))
    ensures members == Members(t, h)
         || CollisionIn(s.sha, {s.encode(SnapshotValue(ById(Members(t, h)))), s.encode(SnapshotValue(ById(members)))})
  {
    hide WellFormed;
    var u := WithSnapshot(t, h, members);
    var x, y := s.encode(SnapshotValue(ById(Members(t, h)))), s.encode(SnapshotValue(ById(members)));
    AuditedContents(s, t, h);
    AuditedContents(s, u, h);
    assert s.sha(x) == s.sha(y);
    if x == y {
      SnapshotValueInjective(s, ById(Members(t, h)), ById(members));
      MembersReadBack(Members(t, h));
      MembersReadBack(members);
    }
  }

  function WithBlockRow(t: Tables, h: int, row: BlockRow): Tables { t.(blocks := t.blocks[h := row]) }

  /** The members of the block are final if the row says that the block is. */
  predicate MembersFollow(t: Tables, row: BlockRow, hashes: seq<Bytes>) {
    row.status == Finalized ==> forall e | e in hashes && e in t.events :: t.events[e].finalized
  }

  /** The header and hash are the stored ones, and the status is one that the rest of the database supports. */
  ghost predicate SameBlockRow(t: Tables, h: int, row: BlockRow)
    requires h in t.blocks
  {
    && row.header == t.blocks[h].header
    && (row.status == Finalized ==> |Signatures(t, h)| >= row.header.quorumThreshold)
    && MembersFollow(t, row, EventHashes(t, h))
    && (row.status == Proposed ==> h == |t.blocks|)
  }
  lemma ChangedMembers(t: Tables, h: int, row: BlockRow, e: Bytes)
    requires h in t.blocks && MemberOk(t, h, e)
    ensures MemberOk(WithBlockRow(t, h, row), h, e) <==> (row.status == Finalized ==> t.events[e].finalized)
  {
  }

  lemma ChangedSignatures(s: Suite, t: Tables, h: int, row: BlockRow)
    requires h in t.blocks && ContentsOk(s, t, h) && row.blockHash == t.blocks[h].blockHash
    ensures forall id :: id in Signatures(t, h) ==> SignatureOk(s, WithBlockRow(t, h, row), h, id)
  {
    hide EventHashes, SnapshotAt, RootOf, HeaderHash, SnapshotHash;
    forall id | id in Signatures(t, h) ensures SignatureOk(s, WithBlockRow(t, h, row), h, id) {
      assert SignatureOk(s, t, h, id);
    }
  }

  lemma SameChildren(t: Tables, h: int, row: BlockRow)
    requires h in t.blocks
    ensures EventHashes(WithBlockRow(t, h, row), h) == EventHashes(t, h) && SnapshotAt(WithBlockRow(t, h, row), h) == SnapshotAt(t, h)
    ensures Signatures(WithBlockRow(t, h, row), h) == Signatures(t, h)
  {
  }

  lemma ChangedContents(s: Suite, t: Tables, h: int, row: BlockRow)
    requires h in t.blocks && ContentsOk(s, t, h) && row.blockHash == t.blocks[h].blockHash && row.header == t.blocks[h].header
    ensures ContentsOk(s, WithBlockRow(t, h, row), h) <==> MembersFollow(t, row, EventHashes(t, h))
  {
    hide EventHashes, SnapshotAt, RootOf, HeaderHash, SnapshotHash, MemberOk, SignatureOk, Signatures;
    var u := WithBlockRow(t, h, row);
    SameChildren(t, h, row);
    ChangedSignatures(s, t, h, row);
    forall e | e in EventHashes(t, h) ensures e in t.events && (MemberOk(u, h, e) <==> (row.status == Finalized ==> t.events[e].finalized)) {
      assert MemberOk(t, h, e);
      StoredMember(t, h, e);
      ChangedMembers(t, h, row, e);
    }
  }

  lemma StoredMember(t: Tables, h: int, e: Bytes)
    requires h in t.blocks && MemberOk(t, h, e)
    ensures e in t.events
  {
  }

  lemma ChangedRowOk(s: Suite, t: Tables, h: int, row: BlockRow)
    requires h in t.blocks && BlockOk(s, t, h) && row.blockHash == t.blocks[h].blockHash && row.header == t.blocks[h].header
    requires |WithBlockRow(t, h, row).blocks| == |t.blocks| && h <= |t.blocks|
    ensures BlockOk(s, WithBlockRow(t, h, row), h) <==> SameBlockRow(t, h, row)
  {
    hide ContentsOk, EventHashes, MembersFollow;
    ChangedContents(s, t, h, row);
  }

  /**
   * A block row that keeps its hash can be changed without notice exactly in its finalization time
   * and in a status that signatures, events and place support as well; or the two headers collide.
   */
  lemma BlockRowUnnoticedIff(s: Suite, t: Tables, h: int, row: BlockRow)
    requires Lawful(s) && WellFormed(s, t) && h in t.blocks && row.blockHash == t.blocks[h].blockHash
    ensures CollisionIn(s.sha, {HeaderInput(s, t.blocks[h].header), HeaderInput(s, row.header)})
         || (WellFormed(s, WithBlockRow(t, h, row)) <==> SameBlockRow(t, h, row))
  {
    hide BlockOk, MappingOk, EventOk, CheckpointOk, SameBlockRow, HeaderInput;
    var u := WithBlockRow(t, h, row);
    assert u.blocks.Keys == t.blocks.Keys;
    EventsStayOk(s, t, u);
    assert BlockOk(s, t, h);
    if row.header == t.blocks[h].header {
      ChangedRowOk(s, t, h, row);
      forall k | k in u.blocks && k != h ensures BlockOk(s, u, k) {
        SameMembersOk(s, t, u, k);
        SameBlockOk(s, t, u, k);
      }
    } else if WellFormed(s, u) {
      AuditedContents(s, t, h);
      AuditedContents(s, u, h);
      HeadersCollide(s, t.blocks[h].header, row.header);
    } else {
      DifferentHeader(t, h, row);
    }
  }

  lemma HeadersCollide(s: Suite, x: BlockHeader, y: BlockHeader)
    requires Lawful(s) && x != y && HeaderHash(s, x) == HeaderHash(s, y)
    ensures CollisionIn(s.sha, {HeaderInput(s, x), HeaderInput(s, y)})
  {
    var a, b := HeaderInput(s, x), HeaderInput(s, y);
    if a == b {
      HeaderInputInjective(s, x, y);
    }
    assert s.sha(a) == s.sha(b);
  }

  lemma DifferentHeader(t: Tables, h: int, row: BlockRow)
    requires h in t.blocks && row.header != t.blocks[h].header
    ensures !SameBlockRow(t, h, row)
  {
  }
}
