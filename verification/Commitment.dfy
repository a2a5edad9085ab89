/** A finalized block hash commits to the whole history up to that block. */
module Commitment {
  import opened Primitives
  import opened Models
  import opened Store
  import opened MerkleTheory
  import opened Audit

  /** The byte strings that auditing one database hashes. */
  ghost function BlockInputs(s: Suite, t: Tables, h: int): set<Bytes>
    requires h in t.blocks
  {
    {HeaderInput(s, t.blocks[h].header), s.encode(SnapshotValue(SnapshotAt(t, h)))}
    + RootInputs(s.sha, EventHashes(t, h))
  }

  ghost function AuditInputs(s: Suite, t: Tables): set<Bytes> {
    (set h, x | h in t.blocks && x in BlockInputs(s, t, h) :: x)
    + (set e | e in t.events :: EventInput(t.events[e].unsigned, t.events[e].signature))
  }

  lemma BlockInputsAudited(s: Suite, t: Tables, h: int)
    requires h in t.blocks
    ensures BlockInputs(s, t, h) <= AuditInputs(s, t)
  {
  }

  lemma EventInputAudited(s: Suite, t: Tables, e: Bytes)
    requires e in t.events
    ensures EventInput(t.events[e].unsigned, t.events[e].signature) in AuditInputs(s, t)
  {
  }

  /** Two databases tell the same story about a stored event. */
  predicate SameEvent(t: Tables, u: Tables, e: Bytes) {
    && e in t.events && e in u.events
    && t.events[e].unsigned == u.events[e].unsigned
    && t.events[e].signature == u.events[e].signature
    && t.events[e].payload == u.events[e].payload
    && t.events[e].deviceId == u.events[e].deviceId
    && t.events[e].sequence == u.events[e].sequence
  }

  /** Two databases tell the same story about the block at a height. */
  ghost predicate SameBlock(t: Tables, u: Tables, h: int) {
    && h in t.blocks && h in u.blocks
    && t.blocks[h].blockHash == u.blocks[h].blockHash
    && t.blocks[h].header == u.blocks[h].header
    && SnapshotAt(t, h) == SnapshotAt(u, h)
    && EventHashes(t, h) == EventHashes(u, h)
    && forall e :: e in EventHashes(t, h) ==> SameEvent(t, u, e)
  }

  ghost predicate Comparable(s: Suite, t: Tables, u: Tables) {
    && Lawful(s)
    && WellFormed(s, t) && WellFormed(s, u)
    && !CollisionIn(s.sha, AuditInputs(s, t) + AuditInputs(s, u))
  }

  lemma EventHashCommits(s: Suite, t: Tables, u: Tables, e: Bytes)
    requires Comparable(s, t, u) && e in t.events && e in u.events
    ensures SameEvent(t, u, e)
  {
    var x, y := t.events[e], u.events[e];
    EventInputAudited(s, t, e);
    EventInputAudited(s, u, e);
    assert EventOk(s, t, e) && EventOk(s, u, e);
    NoCollision(s.sha, AuditInputs(s, t) + AuditInputs(s, u), EventInput(x.unsigned, x.signature), EventInput(y.unsigned, y.signature));
    EventInputInjective(x.unsigned, x.signature, y.unsigned, y.signature);
    CanonicalDetermines(s, x.unsigned, x.deviceId, x.sequence, x.payload, y.deviceId, y.sequence, y.payload);
  }

  lemma HeaderHashCommits(s: Suite, t: Tables, u: Tables, h: int, k: int)
    requires Comparable(s, t, u) && h in t.blocks && k in u.blocks
    requires t.blocks[h].blockHash == u.blocks[k].blockHash
    ensures t.blocks[h].header == u.blocks[k].header
  {
    BlockInputsAudited(s, t, h);
    BlockInputsAudited(s, u, k);
    AuditedContents(s, t, h);
    AuditedContents(s, u, k);
    NoCollision(s.sha, AuditInputs(s, t) + AuditInputs(s, u), HeaderInput(s, t.blocks[h].header), HeaderInput(s, u.blocks[k].header));
    HeaderInputInjective(s, t.blocks[h].header, u.blocks[k].header);
  }

  lemma SubsetHasNoCollision(sha: Hash, small: set<Bytes>, large: set<Bytes>)
    requires small <= large && !CollisionIn(sha, large)
    ensures !CollisionIn(sha, small)
  {
  }

  lemma MembersCommitted(s: Suite, t: Tables, u: Tables, h: int)
    requires h in t.blocks && h in u.blocks && t.blocks[h].header == u.blocks[h].header
    requires ContentsOk(s, t, h) && ContentsOk(s, u, h)
    requires !CollisionIn(s.sha, BlockInputs(s, t, h) + BlockInputs(s, u, h))
    ensures EventHashes(t, h) == EventHashes(u, h)
  {
    var a, b := EventHashes(t, h), EventHashes(u, h);
    SubsetHasNoCollision(s.sha, RootInputs(s.sha, a) + RootInputs(s.sha, b), BlockInputs(s, t, h) + BlockInputs(s, u, h));
    RootCommitsToList(s.sha, a, b);
  }

  lemma SnapshotCommitted(s: Suite, t: Tables, u: Tables, h: int)
    requires Lawful(s)
    requires h in t.blocks && h in u.blocks && t.blocks[h].header == u.blocks[h].header
    requires ContentsOk(s, t, h) && ContentsOk(s, u, h)
    requires !CollisionIn(s.sha, BlockInputs(s, t, h) + BlockInputs(s, u, h))
    ensures SnapshotAt(t, h) == SnapshotAt(u, h)
  {
    var x, y := SnapshotAt(t, h), SnapshotAt(u, h);
    NoCollision(s.sha, BlockInputs(s, t, h) + BlockInputs(s, u, h), s.encode(SnapshotValue(x)), s.encode(SnapshotValue(y)));
    SnapshotValueInjective(s, x, y);
  }

  lemma AuditedContents(s: Suite, t: Tables, h: int)
    requires WellFormed(s, t) && h in t.blocks
    ensures ContentsOk(s, t, h)
    ensures forall e :: e in EventHashes(t, h) ==> e in t.events
  {
    assert BlockOk(s, t, h);
    forall e | e in EventHashes(t, h) ensures e in t.events {
      assert MemberOk(t, h, e);
    }
  }

  lemma BlockHashCommits(s: Suite, t: Tables, u: Tables, h: int)
    requires Comparable(s, t, u) && h in t.blocks && h in u.blocks
    requires t.blocks[h].blockHash == u.blocks[h].blockHash
    ensures SameBlock(t, u, h)
  {
    HeaderHashCommits(s, t, u, h, h);
    BlockInputsAudited(s, t, h);
    BlockInputsAudited(s, u, h);
    SubsetHasNoCollision(s.sha, BlockInputs(s, t, h) + BlockInputs(s, u, h), AuditInputs(s, t) + AuditInputs(s, u));
    AuditedContents(s, t, h);
    AuditedContents(s, u, h);
    MembersCommitted(s, t, u, h);
    SnapshotCommitted(s, t, u, h);
    forall e | e in EventHashes(t, h) ensures SameEvent(t, u, e) {
      EventHashCommits(s, t, u, e);
    }
  }

  lemma AuditedBlock(s: Suite, t: Tables, h: int)
    requires WellFormed(s, t) && h in t.blocks
    ensures 1 <= h <= |t.blocks| && (h > 1 ==> h - 1 in t.blocks)
    ensures t.blocks[h].header.previousHash == PreviousHashAt(t, h)
  {
    assert BlockOk(s, t, h);
  }

  lemma PreviousCommitted(s: Suite, t: Tables, u: Tables, h: int)
    requires Comparable(s, t, u) && h in t.blocks && h in u.blocks
    requires t.blocks[h].blockHash == u.blocks[h].blockHash
    ensures 1 <= h
    ensures h > 1 ==> h - 1 in t.blocks && h - 1 in u.blocks && t.blocks[h - 1].blockHash == u.blocks[h - 1].blockHash
  {
    AuditedBlock(s, t, h);
    AuditedBlock(s, u, h);
    HeaderHashCommits(s, t, u, h, h);
  }

  lemma {:induction false} PrefixCommitted(s: Suite, t: Tables, u: Tables, h: int)
    requires Comparable(s, t, u) && h in t.blocks && h in u.blocks
    requires t.blocks[h].blockHash == u.blocks[h].blockHash
    ensures 1 <= h && forall j :: 1 <= j <= h ==> SameBlock(t, u, j)
    decreases h
  {
    hide Comparable, SameBlock;
    PreviousCommitted(s, t, u, h);
    BlockHashCommits(s, t, u, h);
    if h > 1 {
      PrefixCommitted(s, t, u, h - 1);
    }
  }

  /**
   * If two databases pass the audit and hold the same block hash, at whatever
   * heights, then the heights are equal and every block up to there is the same in
   * both: header, authority snapshot, ordered members and their signed content.
   * Otherwise two of the byte strings the two audits hash collide.
   */
  lemma BlockHashCommitsToHistory(s: Suite, t: Tables, u: Tables, h: int, k: int)
    requires Lawful(s) && Keyed(t) && Keyed(u) && WellFormed(s, t) && WellFormed(s, u)
    requires h in t.blocks && k in u.blocks && t.blocks[h].blockHash == u.blocks[k].blockHash
    ensures CollisionIn(s.sha, AuditInputs(s, t) + AuditInputs(s, u))
         || (h == k && forall j :: 1 <= j <= h ==> SameBlock(t, u, j))
  {
    if !CollisionIn(s.sha, AuditInputs(s, t) + AuditInputs(s, u)) {
      HeaderHashCommits(s, t, u, h, k);
      PrefixCommitted(s, t, u, h);
    }
  }

  /** The last block of a database with nothing pending: every event is a member of some block. */
  ghost predicate Settled(t: Tables) {
    && Pending(t) == {}
    && t.blockEvents.Keys <= t.blocks.Keys  // the foreign key of the membership table
  }

  lemma SettledEventIsMember(s: Suite, t: Tables, e: Bytes)
    requires WellFormed(s, t) && Settled(t) && e in t.events
    ensures exists h :: h in t.blocks && e in EventHashes(t, h)
  {
    assert e !in Pending(t);
    var h := t.events[e].blockHeight.value;
    assert MappingOk(t, e);
    var p :| Occupies(t, h, p, e);
    MemberIffOccupies(t, h, e);
    assert h in t.blockEvents;
  }

  lemma EventsIncluded(s: Suite, t: Tables, u: Tables)
    requires Comparable(s, t, u) && Settled(t)
    requires forall h :: h in t.blocks ==> SameBlock(t, u, h)
    ensures t.events.Keys <= u.events.Keys
  {
    forall e | e in t.events ensures e in u.events {
      SettledEventIsMember(s, t, e);
      var h :| h in t.blocks && e in EventHashes(t, h);
      assert SameBlock(t, u, h);
    }
  }

  /** The stored chain of a device and its checkpoint are the same in both databases. */
  predicate SameChain(t: Tables, u: Tables, d: string) {
    && d in t.devices && d in u.devices
    && t.devices[d].lastSequence == u.devices[d].lastSequence
    && t.devices[d].lastEventHash == u.devices[d].lastEventHash
  }

  lemma AuditedEvent(s: Suite, t: Tables, e: Bytes)
    requires WellFormed(s, t) && e in t.events
    ensures Linked(t, e) && t.events[e].deviceId in t.devices && CheckpointOk(t, t.events[e].deviceId)
  {
    assert EventOk(s, t, e);
  }

  lemma SameLink(t: Tables, u: Tables, e: Bytes)
    requires Keyed(u) && t.events.Keys == u.events.Keys && e in t.events
    requires forall f :: f in t.events ==> SameEvent(t, u, f)
    requires Linked(t, e) && Linked(u, e)
    ensures t.events[e].previousEventHash == u.events[e].previousEventHash
  {
    assert SameEvent(t, u, e);
    var p, q := t.events[e].previousEventHash, u.events[e].previousEventHash;
    if t.events[e].sequence > 1 {
      assert SameEvent(t, u, p);
      assert EventKey(u, p) == EventKey(u, q);
    }
  }

  lemma SameCheckpoint(t: Tables, u: Tables, e: Bytes)
    requires Keyed(u) && t.events.Keys == u.events.Keys && e in t.events
    requires forall f :: f in t.events ==> SameEvent(t, u, f)
    requires t.events[e].deviceId in t.devices && CheckpointOk(t, t.events[e].deviceId)
    requires u.events[e].deviceId in u.devices && CheckpointOk(u, u.events[e].deviceId)
    ensures SameChain(t, u, t.events[e].deviceId)
  {
    var d := t.events[e].deviceId;
    assert SameEvent(t, u, e);
    var x, y := t.devices[d].lastEventHash, u.devices[d].lastEventHash;
    assert IsLatest(t, d, x) && IsLatest(u, d, y);
    assert SameEvent(t, u, x) && SameEvent(t, u, y);
    assert EventKey(u, x) == EventKey(u, y);
  }

  lemma SameSettledEvents(s: Suite, t: Tables, u: Tables)
    requires Comparable(s, t, u) && Settled(t) && Settled(u)
    requires forall h :: h in t.blocks ==> SameBlock(t, u, h)
    requires forall h :: h in u.blocks ==> SameBlock(t, u, h)
    ensures t.events.Keys == u.events.Keys
  {
    EventsIncluded(s, t, u);
    forall h | h in u.blocks ensures SameBlock(u, t, h) {
      assert SameBlock(t, u, h);
      forall e | e in EventHashes(u, h) ensures SameEvent(u, t, e) {
        assert SameEvent(t, u, e);
      }
    }
    assert AuditInputs(s, u) + AuditInputs(s, t) == AuditInputs(s, t) + AuditInputs(s, u);
    EventsIncluded(s, u, t);
  }

  /** The stored event, its place in the chain and its device's checkpoint are the same in both. */
  predicate SameStored(t: Tables, u: Tables, e: Bytes) {
    && SameEvent(t, u, e)
    && t.events[e].previousEventHash == u.events[e].previousEventHash
    && SameChain(t, u, t.events[e].deviceId)
  }

  lemma SameEventsSameChains(s: Suite, t: Tables, u: Tables)
    requires Comparable(s, t, u) && Keyed(u) && t.events.Keys == u.events.Keys
    ensures forall e :: e in t.events ==> SameStored(t, u, e)
  {
    forall e | e in t.events ensures SameEvent(t, u, e) {
      EventHashCommits(s, t, u, e);
    }
    forall e | e in t.events ensures SameStored(t, u, e) {
      AuditedEvent(s, t, e);
      AuditedEvent(s, u, e);
      SameLink(t, u, e);
      SameCheckpoint(t, u, e);
    }
  }

  /**
   * When the common block is the last one in both databases and nothing is pending,
   * the two hold the same events, linked the same way, and the same checkpoint for
   * every device that has events.
   */
  lemma LastBlockCommitsToChains(s: Suite, t: Tables, u: Tables)
    requires Lawful(s) && Keyed(t) && Keyed(u) && WellFormed(s, t) && WellFormed(s, u)
    requires Settled(t) && Settled(u) && t.blocks != map[] && u.blocks != map[]
    requires |t.blocks| in t.blocks && |u.blocks| in u.blocks
    requires t.blocks[|t.blocks|].blockHash == u.blocks[|u.blocks|].blockHash
    ensures CollisionIn(s.sha, AuditInputs(s, t) + AuditInputs(s, u))
         || (t.events.Keys == u.events.Keys && forall e :: e in t.events ==> SameStored(t, u, e))
  {
    if !CollisionIn(s.sha, AuditInputs(s, t) + AuditInputs(s, u)) {
      BlockHashCommitsToHistory(s, t, u, |t.blocks|, |u.blocks|);
      AuditedBlock(s, t, |t.blocks|);
      AuditedBlock(s, u, |u.blocks|);
      SameSettledEvents(s, t, u);
      SameEventsSameChains(s, t, u);
    }
  }
}
