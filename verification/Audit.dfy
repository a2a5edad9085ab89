/** What it means for a database to pass the full-ledger audit, stated without the audit's loops. */
module Audit {
  import opened Primitives
  import opened Models
  import opened Store
  import opened Merkle

  /** Python equates the booleans with 0 and 1. */
  predicate EqualsNumber(v: Value, n: int) {
    match v
    case Int(i) => i == n
    case Bool(flag) => n == if flag then 1 else 0
    case _ => false
  }

  /** The stored columns that the audit compares with the signed bytes. */
  predicate Canonical(s: Suite, unsigned: Bytes, deviceId: string, sequence: int, payload: Bytes) {
    match Loads(s, unsigned)
    case Ok(Map(m)) =>
      && "device_id" in m && m["device_id"] == Text(deviceId)
      && "sequence" in m && EqualsNumber(m["sequence"], sequence)
      && "payload" in m && Dumps(s, m["payload"]) == Ok(payload)
    case _ => false
  }

  /** The signed bytes determine the columns that are checked against them. */
  lemma CanonicalDetermines(s: Suite, unsigned: Bytes, d: string, n: int, p: Bytes, d': string, n': int, p': Bytes)
    requires Canonical(s, unsigned, d, n, p) && Canonical(s, unsigned, d', n', p')
    ensures d == d' && n == n' && p == p'
  {
  }

  /** The event is the first of its device, or links to the stored event before it. */
  predicate Linked(t: Tables, e: Bytes)
    requires e in t.events
  {
    var row := t.events[e];
    && row.sequence >= 1
    && (row.sequence == 1 ==> row.previousEventHash == ZERO_HASH)
    && (row.sequence > 1 ==> row.previousEventHash in t.events)
    && (row.sequence > 1 ==> EventKey(t, row.previousEventHash) == (row.deviceId, row.sequence - 1))
  }

  predicate Authentic(s: Suite, t: Tables, e: Bytes)
    requires e in t.events
  {
    var row := t.events[e];
    && row.deviceId in t.devices
    && Canonical(s, row.unsigned, row.deviceId, row.sequence, row.payload)
    && s.verify(t.devices[row.deviceId].publicKey, row.signature, row.unsigned)
    && s.sha(EventInput(row.unsigned, row.signature)) == e
  }

  predicate EventOk(s: Suite, t: Tables, e: Bytes)
    requires e in t.events
  {
    Linked(t, e) && Authentic(s, t, e)
  }

  predicate IsLatest(t: Tables, d: string, e: Bytes) {
    e in t.events && t.events[e].deviceId == d
    && forall f | f in t.events && t.events[f].deviceId == d :: t.events[f].sequence <= t.events[e].sequence
  }

  /** The device row records the sequence and hash of the device's latest event, if it has any. */
  predicate CheckpointOk(t: Tables, d: string)
    requires d in t.devices
  {
    (exists e | e in t.events :: t.events[e].deviceId == d)
    ==> IsLatest(t, d, t.devices[d].lastEventHash)
        && t.events[t.devices[d].lastEventHash].sequence == t.devices[d].lastSequence
  }

  predicate MemberOk(t: Tables, h: int, e: Bytes)
    requires h in t.blocks
  {
    && e in t.events
    && t.events[e].blockHeight == Some(h)
    && (t.blocks[h].status == Finalized ==> t.events[e].finalized)
  }

  predicate SignatureOk(s: Suite, t: Tables, h: int, id: string)
    requires h in t.blocks && id in Signatures(t, h)
  {
    && id in Members(t, h) && Members(t, h)[id] != []
    && s.verify(Members(t, h)[id], Signatures(t, h)[id].signature, t.blocks[h].blockHash)
  }

  function PreviousHashAt(t: Tables, h: int): Bytes {
    if h - 1 in t.blocks then t.blocks[h - 1].blockHash else ZERO_HASH
  }

  /** The block's header, members and snapshot agree with each other. */
  ghost predicate ContentsOk(s: Suite, t: Tables, h: int)
    requires h in t.blocks
  {
    var b := t.blocks[h];
    && HeaderHash(s, b.header) == b.blockHash
    && |EventHashes(t, h)| == b.header.eventCount
    && RootOf(s.sha, EventHashes(t, h)) == b.header.merkleRoot
    && (forall e {:trigger MemberOk(t, h, e)} :: e in EventHashes(t, h) ==> MemberOk(t, h, e))
    && SnapshotHash(s, SnapshotAt(t, h)) == b.header.authoritySetHash
    && (forall id {:trigger SignatureOk(s, t, h, id)} :: id in Signatures(t, h) ==> SignatureOk(s, t, h, id))
  }

  ghost predicate BlockOk(s: Suite, t: Tables, h: int)
    requires h in t.blocks
  {
    && t.blocks[h].header.previousHash == PreviousHashAt(t, h)
    && ContentsOk(s, t, h)
    && (t.blocks[h].status == Finalized ==> |Signatures(t, h)| >= t.blocks[h].header.quorumThreshold)
    && (h < |t.blocks| ==> t.blocks[h].status == Finalized)
  }

  ghost predicate HeightsOk(t: Tables) {
    forall h :: h in t.blocks <==> 1 <= h <= |t.blocks|
  }

  /** An event that names a block is a member of that block. */
  ghost predicate MappingOk(t: Tables, e: Bytes)
    requires e in t.events
  {
    t.events[e].blockHeight.Some? ==> exists p :: Occupies(t, t.events[e].blockHeight.value, p, e)
  }

  ghost predicate WellFormed(s: Suite, t: Tables) {
    && HeightsOk(t)
    && (forall h {:trigger BlockOk(s, t, h)} :: h in t.blocks ==> BlockOk(s, t, h))
    && (forall e {:trigger EventOk(s, t, e)} :: e in t.events ==> EventOk(s, t, e))
    && (forall d {:trigger CheckpointOk(t, d)} :: d in t.devices ==> CheckpointOk(t, d))
    && (forall e {:trigger MappingOk(t, e)} :: e in t.events ==> MappingOk(t, e))
  }

  lemma MemberIffOccupies(t: Tables, h: int, e: Bytes)
    ensures e in EventHashes(t, h) <==> exists p :: Occupies(t, h, p, e)
  {
    var ps, hashes := Positions(t, h), EventHashes(t, h);
    if e in hashes {
      var i :| 0 <= i < |hashes| && hashes[i] == e;
      assert Occupies(t, h, ps[i], e);
    }
    if exists p :: Occupies(t, h, p, e) {
      var p :| Occupies(t, h, p, e);
      assert p in ps;
      var i :| 0 <= i < |ps| && ps[i] == p;
      assert hashes[i] == e;
    }
  }
}
