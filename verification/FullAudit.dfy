/** The full-ledger audit: its loops report no error exactly when the database is well formed. */
module FullAudit {
  import opened Primitives
  import opened Ordering
  import opened Models
  import opened Store
  import opened Merkle
  import opened Audit
  import opened Gateway

  datatype AuditError =
    | HeightGap(height: int) | PreviousHashMismatch(height: int) | BlockHashMismatch(height: int)
    | EventCountMismatch(height: int) | MerkleRootMismatch(height: int)
    | MissingEvent(height: int, event: Bytes) | InconsistentHeight(height: int, event: Bytes) | EventNotFinal(height: int, event: Bytes)
    | SnapshotMismatch(height: int) | InvalidSignature(height: int, signer: string) | NoQuorum(height: int) | OpenBlockNotLast(height: int)
    | DeviceUnknown(device: string) | SequenceMismatch(event: Bytes) | LinkMismatch(event: Bytes)
    | NotCanonicalData(event: Bytes) | InvalidEventSignature(event: Bytes) | EventHashMismatch(event: Bytes)
    | SequenceCheckpoint(device: string) | HashCheckpoint(device: string) | BlockMapping(event: Bytes)

  // ---------------------------------------------------------------------------
  // Blocks
  // ---------------------------------------------------------------------------

  function FinalCount(t: Tables, hs: seq<int>, i: nat): nat
    requires i <= |hs| && forall j :: 0 <= j < i ==> hs[j] in t.blocks
  {
    if i == 0 then 0 else FinalCount(t, hs, i - 1) + if t.blocks[hs[i - 1]].status == Finalized then 1 else 0
  }

  function LastFinalHash(t: Tables, hs: seq<int>, i: nat): Bytes
    requires i <= |hs| && forall j :: 0 <= j < i ==> hs[j] in t.blocks
  {
    if i == 0 then ZERO_HASH
    else if t.blocks[hs[i - 1]].status == Finalized then t.blocks[hs[i - 1]].blockHash
    else LastFinalHash(t, hs, i - 1)
  }

  /** What the audit checks of a block by itself. */
  ghost predicate BlockSound(s: Suite, t: Tables, h: int)
    requires h in t.blocks
  {
    ContentsOk(s, t, h) && (t.blocks[h].status == Finalized ==> |Signatures(t, h)| >= t.blocks[h].header.quorumThreshold)
  }

  /** What the audit checks of a block's place, given the height and previous hash it expects and the last height of all. */
  predicate BlockPlaced(t: Tables, h: int, expected: int, previous: Bytes, last: int)
    requires h in t.blocks
  {
    && h == expected
    && t.blocks[h].header.previousHash == previous
    && (t.blocks[h].status != Finalized ==> h == last)
  }

  predicate PlacedAt(t: Tables, hs: seq<int>, i: nat)
    requires i < |hs| && forall j :: 0 <= j < |hs| ==> hs[j] in t.blocks
  {
    BlockPlaced(t, hs[i], 1 + FinalCount(t, hs, i), LastFinalHash(t, hs, i), hs[|hs| - 1])
  }

  lemma {:induction false} AllFinalSoFar(t: Tables, hs: seq<int>, i: nat)
    requires i <= |hs| && forall j :: 0 <= j < i ==> hs[j] in t.blocks && t.blocks[hs[j]].status == Finalized
    ensures FinalCount(t, hs, i) == i
    ensures LastFinalHash(t, hs, i) == if i == 0 then ZERO_HASH else t.blocks[hs[i - 1]].blockHash
  {
    if i > 0 {
      AllFinalSoFar(t, hs, i - 1);
    }
  }

  lemma PlacedHeights(t: Tables, hs: seq<int>, i: nat)
    requires Lists(hs, t.blocks.Keys, IntLess) && forall j :: 0 <= j < |hs| ==> hs[j] in t.blocks
    requires forall j: nat :: j < |hs| ==> PlacedAt(t, hs, j)
    requires i < |hs|
    ensures hs[i] == i + 1
    ensures t.blocks[hs[i]].header.previousHash == if i == 0 then ZERO_HASH else t.blocks[hs[i - 1]].blockHash
    ensures i < |hs| - 1 ==> t.blocks[hs[i]].status == Finalized
  {
    forall j | 0 <= j < |hs| - 1 ensures t.blocks[hs[j]].status == Finalized {
      assert PlacedAt(t, hs, j);
      assert IntLess(hs[j], hs[|hs| - 1]);
    }
    AllFinalSoFar(t, hs, i);
    assert PlacedAt(t, hs, i);
  }

  lemma HeightsAreRange(t: Tables, hs: seq<int>)
    requires Lists(hs, t.blocks.Keys, IntLess) && |hs| == |t.blocks|
    ensures HeightsOk(t) <==> forall i :: 0 <= i < |hs| ==> hs[i] == i + 1
  {
    if HeightsOk(t) {
      var r := seq(|hs|, i => i + 1);
      forall h ensures h in r <==> h in t.blocks.Keys {
        if h in t.blocks {
          assert r[h - 1] == h;
        }
      }
      IntOrder();
      ListingUnique(hs, r, t.blocks.Keys, IntLess);
    }
    if forall i :: 0 <= i < |hs| ==> hs[i] == i + 1 {
      forall h ensures h in t.blocks <==> 1 <= h <= |hs| {
        if 1 <= h <= |hs| {
          assert hs[h - 1] == h;
        }
      }
    }
  }

  /** Where the definition of a well-formed database puts a block. */
  predicate InPlace(t: Tables, h: int)
    requires h in t.blocks
  {
    t.blocks[h].header.previousHash == PreviousHashAt(t, h) && (h < |t.blocks| ==> t.blocks[h].status == Finalized)
  }

  lemma PlacedBlocksInPlace(t: Tables, hs: seq<int>)
    requires Lists(hs, t.blocks.Keys, IntLess) && |hs| == |t.blocks| && forall j :: 0 <= j < |hs| ==> hs[j] in t.blocks
    requires forall i: nat :: i < |hs| ==> PlacedAt(t, hs, i)
    ensures HeightsOk(t) && forall h :: h in t.blocks ==> InPlace(t, h)
  {
    forall i | 0 <= i < |hs| ensures hs[i] == i + 1 {
      PlacedHeights(t, hs, i);
    }
    HeightsAreRange(t, hs);
    forall h | h in t.blocks ensures InPlace(t, h) {
      PlacedHeights(t, hs, h - 1);
    }
  }

  lemma InPlaceBlockIsPlaced(t: Tables, hs: seq<int>, i: nat)
    requires i < |hs| == |t.blocks| && 0 !in t.blocks
    requires forall j :: 0 <= j < |hs| ==> hs[j] == j + 1 && hs[j] in t.blocks
    requires forall h :: h in t.blocks ==> InPlace(t, h)
    ensures PlacedAt(t, hs, i)
  {
    forall j | 0 <= j < i ensures t.blocks[hs[j]].status == Finalized {
      assert InPlace(t, hs[j]);
    }
    AllFinalSoFar(t, hs, i);
    assert InPlace(t, hs[i]);
  }

  lemma OkIffSoundInPlace(s: Suite, t: Tables, h: int)
    requires h in t.blocks
    ensures BlockOk(s, t, h) <==> BlockSound(s, t, h) && InPlace(t, h)
  {
  }

  ghost predicate BlocksClean(s: Suite, t: Tables, hs: seq<int>, n: nat)
    requires n <= |hs| && forall j :: 0 <= j < |hs| ==> hs[j] in t.blocks
  {
    forall i: nat :: i < n ==> PlacedAt(t, hs, i) && BlockSound(s, t, hs[i])
  }

  lemma BlocksCleanStep(s: Suite, t: Tables, hs: seq<int>, n: nat)
    requires n < |hs| && forall j :: 0 <= j < |hs| ==> hs[j] in t.blocks
    ensures BlocksClean(s, t, hs, n + 1) <==> BlocksClean(s, t, hs, n) && PlacedAt(t, hs, n) && BlockSound(s, t, hs[n])
  {
  }

  lemma CleanBlocksAreOk(s: Suite, t: Tables, hs: seq<int>)
    requires hs == Heights(t) && |hs| == |t.blocks| && BlocksClean(s, t, hs, |hs|)
    ensures HeightsOk(t) && forall h {:trigger BlockOk(s, t, h)} :: h in t.blocks ==> BlockOk(s, t, h)
  {
    PlacedBlocksInPlace(t, hs);
    forall h | h in t.blocks ensures BlockOk(s, t, h) {
      assert h in hs;
      OkIffSoundInPlace(s, t, h);
    }
  }

  lemma OkBlocksAreClean(s: Suite, t: Tables, hs: seq<int>)
    requires hs == Heights(t) && |hs| == |t.blocks| && HeightsOk(t)
    requires forall h {:trigger BlockOk(s, t, h)} :: h in t.blocks ==> BlockOk(s, t, h)
    ensures BlocksClean(s, t, hs, |hs|)
  {
    forall h | h in t.blocks ensures InPlace(t, h) && BlockSound(s, t, h) {
      OkIffSoundInPlace(s, t, h);
    }
    HeightsAreRange(t, hs);
    forall i: nat | i < |hs| ensures PlacedAt(t, hs, i) {
      InPlaceBlockIsPlaced(t, hs, i);
    }
  }

  lemma BlocksCleanIff(s: Suite, t: Tables, hs: seq<int>)
    requires hs == Heights(t) && |hs| == |t.blocks|
    ensures BlocksClean(s, t, hs, |hs|)
       <==> HeightsOk(t) && forall h {:trigger BlockOk(s, t, h)} :: h in t.blocks ==> BlockOk(s, t, h)
  {
    if BlocksClean(s, t, hs, |hs|) {
      CleanBlocksAreOk(s, t, hs);
    }
    if HeightsOk(t) && forall h {:trigger BlockOk(s, t, h)} :: h in t.blocks ==> BlockOk(s, t, h) {
      OkBlocksAreClean(s, t, hs);
    }
  }

  // ---------------------------------------------------------------------------
  // Device chains
  // ---------------------------------------------------------------------------

  /** The latest event of a device among the first i rows. */
  function LatestOf(t: Tables, rows: seq<Bytes>, i: nat, d: string): (r: Option<Bytes>)
    requires i <= |rows| && forall j :: 0 <= j < i ==> rows[j] in t.events
    ensures r.Some? ==> r.value in t.events && t.events[r.value].deviceId == d
  {
    if i == 0 then None
    else if t.events[rows[i - 1]].deviceId == d then Some(rows[i - 1])
    else LatestOf(t, rows, i - 1, d)
  }

  /** The sequence and previous hash the audit expects after the latest event of a device. */
  function Expected(t: Tables, latest: Option<Bytes>): (int, Bytes)
    requires latest.Some? ==> latest.value in t.events
  {
    if latest.Some? then (t.events[latest.value].sequence + 1, latest.value) else (1, ZERO_HASH)
  }

  /** What the audit checks of one event, given what it expects of the event's device. */
  predicate EventClean(s: Suite, t: Tables, e: Bytes, expected: (int, Bytes))
    requires e in t.events
  {
    Authentic(s, t, e) && t.events[e].sequence == expected.0 && t.events[e].previousEventHash == expected.1
  }

  ghost predicate EventCleanAt(s: Suite, t: Tables, rows: seq<Bytes>, i: nat)
    requires i < |rows| && forall j :: 0 <= j < |rows| ==> rows[j] in t.events
  {
    EventClean(s, t, rows[i], Expected(t, LatestOf(t, rows, i, t.events[rows[i]].deviceId)))
  }

  predicate SameDeviceBefore(t: Tables, rows: seq<Bytes>, i: nat)
    requires i < |rows| && forall j :: 0 <= j < |rows| ==> rows[j] in t.events
  {
    i > 0 && t.events[rows[i - 1]].deviceId == t.events[rows[i]].deviceId
  }

  lemma {:induction false} LatestOfHas(t: Tables, rows: seq<Bytes>, i: nat, d: string)
    requires i <= |rows| && forall j :: 0 <= j < i ==> rows[j] in t.events
    requires LatestOf(t, rows, i, d).Some?
    ensures exists j :: 0 <= j < i && rows[j] == LatestOf(t, rows, i, d).value
  {
    if t.events[rows[i - 1]].deviceId != d {
      LatestOfHas(t, rows, i - 1, d);
    }
  }

  /** Rows of one device are adjacent, because the query orders by device. */
  lemma ExpectedOfPrevious(t: Tables, rows: seq<Bytes>, i: nat)
    requires InEventOrder(t, rows) && i < |rows|
    ensures LatestOf(t, rows, i, t.events[rows[i]].deviceId)
         == if SameDeviceBefore(t, rows, i) then Some(rows[i - 1]) else None
  {
    var d := t.events[rows[i]].deviceId;
    if LatestOf(t, rows, i, d).Some? {
      LatestOfHas(t, rows, i, d);
      var j :| 0 <= j < i && rows[j] == LatestOf(t, rows, i, d).value;
      BetweenSameDevice(t, rows, j, i - 1, i);
    }
  }

  lemma BetweenSameDevice(t: Tables, rows: seq<Bytes>, i: nat, j: nat, k: nat)
    requires InEventOrder(t, rows) && i <= j < k < |rows|
    requires t.events[rows[i]].deviceId == t.events[rows[k]].deviceId
    ensures t.events[rows[j]].deviceId == t.events[rows[k]].deviceId
  {
    TextOrder();
    assert EventKeyLess(EventKey(t, rows[j]), EventKey(t, rows[k]));
    assert i < j ==> EventKeyLess(EventKey(t, rows[i]), EventKey(t, rows[j]));
  }

  lemma CleanFields(s: Suite, t: Tables, rows: seq<Bytes>, i: nat)
    requires InEventOrder(t, rows) && i < |rows| && EventCleanAt(s, t, rows, i)
    ensures Authentic(s, t, rows[i])
    ensures t.events[rows[i]].sequence == if SameDeviceBefore(t, rows, i) then t.events[rows[i - 1]].sequence + 1 else 1
    ensures t.events[rows[i]].previousEventHash == if SameDeviceBefore(t, rows, i) then rows[i - 1] else ZERO_HASH
  {
    ExpectedOfPrevious(t, rows, i);
  }

  lemma {:induction false} CleanEventIsOk(s: Suite, t: Tables, rows: seq<Bytes>, i: nat)
    requires InEventOrder(t, rows) && i < |rows|
    requires forall j: nat :: j < |rows| ==> EventCleanAt(s, t, rows, j)
    ensures EventOk(s, t, rows[i])
  {
    if i > 0 {
      CleanEventIsOk(s, t, rows, i - 1);
    }
    CleanFields(s, t, rows, i);
  }

  lemma OrderedRows(t: Tables, rows: seq<Bytes>, i: nat, j: nat)
    requires InEventOrder(t, rows) && i <= j < |rows|
    ensures i == j || TextLess(t.events[rows[i]].deviceId, t.events[rows[j]].deviceId)
         || (t.events[rows[i]].deviceId == t.events[rows[j]].deviceId && t.events[rows[i]].sequence < t.events[rows[j]].sequence)
  {
    assert i < j ==> EventKeyLess(EventKey(t, rows[i]), EventKey(t, rows[j]));
  }

  lemma AdjacentRows(t: Tables, rows: seq<Bytes>, j: nat, i: nat)
    requires InEventOrder(t, rows) && j < |rows| && i < |rows|
    requires t.events[rows[j]].deviceId == t.events[rows[i]].deviceId
    requires t.events[rows[j]].sequence + 1 == t.events[rows[i]].sequence
    ensures i > 0 && j == i - 1
  {
    TextOrder();
    if i <= j {
      OrderedRows(t, rows, i, j);
    } else {
      OrderedRows(t, rows, j, i - 1);
      OrderedRows(t, rows, i - 1, i);
    }
  }

  lemma PreviousRow(t: Tables, rows: seq<Bytes>, i: nat)
    requires InEventOrder(t, rows) && i < |rows| && Linked(t, rows[i])
    requires t.events[rows[i]].sequence > 1
    ensures SameDeviceBefore(t, rows, i) && rows[i - 1] == t.events[rows[i]].previousEventHash
  {
    var p := t.events[rows[i]].previousEventHash;
    assert p in rows;
    var j :| 0 <= j < |rows| && rows[j] == p;
    AdjacentRows(t, rows, j, i);
  }

  lemma FirstRow(t: Tables, rows: seq<Bytes>, i: nat)
    requires InEventOrder(t, rows) && i < |rows| && t.events[rows[i]].sequence == 1
    requires forall j :: 0 <= j < |rows| ==> Linked(t, rows[j])
    ensures !SameDeviceBefore(t, rows, i)
  {
    if i > 0 {
      TextOrder();
      assert EventKeyLess(EventKey(t, rows[i - 1]), EventKey(t, rows[i]));
      assert Linked(t, rows[i - 1]);
    }
  }

  lemma OkEventIsClean(s: Suite, t: Tables, rows: seq<Bytes>, i: nat)
    requires Keyed(t) && InEventOrder(t, rows) && i < |rows|
    requires forall j :: 0 <= j < |rows| ==> EventOk(s, t, rows[j])
    ensures EventCleanAt(s, t, rows, i)
  {
    assert EventOk(s, t, rows[i]);
    forall j | 0 <= j < |rows| ensures Linked(t, rows[j]) && t.events[rows[j]].deviceId in t.devices {
      assert EventOk(s, t, rows[j]);
    }
    if t.events[rows[i]].sequence == 1 {
      FirstRow(t, rows, i);
    } else {
      PreviousRow(t, rows, i);
    }
    ExpectedOfPrevious(t, rows, i);
  }

  ghost predicate EventsClean(s: Suite, t: Tables, rows: seq<Bytes>, n: nat)
    requires n <= |rows| && forall j :: 0 <= j < |rows| ==> rows[j] in t.events
  {
    forall i: nat :: i < n ==> EventCleanAt(s, t, rows, i)
  }

  lemma EventsCleanStep(s: Suite, t: Tables, rows: seq<Bytes>, n: nat)
    requires n < |rows| && forall j :: 0 <= j < |rows| ==> rows[j] in t.events
    ensures EventsClean(s, t, rows, n + 1) <==> EventsClean(s, t, rows, n) && EventCleanAt(s, t, rows, n)
    ensures EventCleanAt(s, t, rows, n) ==> t.events[rows[n]].deviceId in t.devices
  {
  }

  lemma EventsCleanIff(s: Suite, t: Tables, rows: seq<Bytes>)
    requires Keyed(t) && InEventOrder(t, rows)
    ensures EventsClean(s, t, rows, |rows|)
       <==> forall e {:trigger EventOk(s, t, e)} :: e in t.events ==> EventOk(s, t, e)
  {
    if EventsClean(s, t, rows, |rows|) {
      forall e | e in t.events ensures EventOk(s, t, e) {
        assert e in rows;
        var i :| 0 <= i < |rows| && rows[i] == e;
        CleanEventIsOk(s, t, rows, i);
      }
    }
    if forall e {:trigger EventOk(s, t, e)} :: e in t.events ==> EventOk(s, t, e) {
      forall i: nat | i < |rows| ensures EventCleanAt(s, t, rows, i) {
        forall j | 0 <= j < |rows| ensures EventOk(s, t, rows[j]) {}
        OkEventIsClean(s, t, rows, i);
      }
    }
  }

  // ---------------------------------------------------------------------------
  // Checkpoints
  // ---------------------------------------------------------------------------

  predicate CheckpointClean(t: Tables, d: string, latest: Bytes)
    requires latest in t.events
  {
    d in t.devices ==> t.devices[d].lastSequence == t.events[latest].sequence && t.devices[d].lastEventHash == latest
  }

  lemma {:induction false} LatestOfIsLatest(t: Tables, rows: seq<Bytes>, i: nat, d: string, j: nat)
    requires InEventOrder(t, rows) && j < i <= |rows| && t.events[rows[j]].deviceId == d
    ensures LatestOf(t, rows, i, d).Some?
    ensures t.events[rows[j]].sequence <= t.events[LatestOf(t, rows, i, d).value].sequence
  {
    if t.events[rows[i - 1]].deviceId == d {
      TextOrder();
      OrderedRows(t, rows, j, i - 1);
    } else {
      LatestOfIsLatest(t, rows, i - 1, d, j);
    }
  }

  lemma CheckpointCleanIff(t: Tables, rows: seq<Bytes>, d: string)
    requires Keyed(t) && InEventOrder(t, rows) && d in t.devices
    ensures CheckpointOk(t, d)
       <==> LatestOf(t, rows, |rows|, d).Some? ==> CheckpointClean(t, d, LatestOf(t, rows, |rows|, d).value)
  {
    forall e | e in t.events && t.events[e].deviceId == d
      ensures LatestOf(t, rows, |rows|, d).Some?
      ensures t.events[e].sequence <= t.events[LatestOf(t, rows, |rows|, d).value].sequence
    {
      assert e in rows;
      var j :| 0 <= j < |rows| && rows[j] == e;
      LatestOfIsLatest(t, rows, |rows|, d, j);
    }
    if LatestOf(t, rows, |rows|, d).Some? {
      var latest := LatestOf(t, rows, |rows|, d).value;
      assert IsLatest(t, d, latest);
      if CheckpointOk(t, d) {
        assert EventKey(t, t.devices[d].lastEventHash) == EventKey(t, latest);
      }
    }
  }

  // ---------------------------------------------------------------------------
  // The audit's loops
  // ---------------------------------------------------------------------------

  method AuditMembers(db: Database, h: int, final: bool, hashes: seq<Bytes>) returns (errors: seq<AuditError>)
    requires h in db.blocks && (final <==> db.blocks[h].status == Finalized)
    ensures errors == [] <==> forall e {:trigger MemberOk(db.State(), h, e)} :: e in hashes ==> MemberOk(db.State(), h, e)
  {
    errors := [];
    for i := 0 to |hashes|
      invariant errors == [] <==> forall j :: 0 <= j < i ==> MemberOk(db.State(), h, hashes[j])
    {
      if hashes[i] !in db.events {
        errors := errors + [MissingEvent(h, hashes[i])];
        continue;
      }
      var row := db.events[hashes[i]];
      if row.blockHeight != Some(h) {
        errors := errors + [InconsistentHeight(h, hashes[i])];
      }
      if final && !row.finalized {
        errors := errors + [EventNotFinal(h, hashes[i])];
      }
    }
  }

  method AuditSignatures(db: Database, s: Suite, h: int) returns (errors: seq<AuditError>, valid: nat)
    requires h in db.blocks
    ensures errors == [] <==>
      forall id {:trigger SignatureOk(s, db.State(), h, id)} :: id in Signatures(db.State(), h) ==> SignatureOk(s, db.State(), h, id)
    ensures errors == [] ==> valid == |Signatures(db.State(), h)|
  {
    errors, valid := [], 0;
    var members, signatures := Members(db.State(), h), Signatures(db.State(), h);
    var ids := db.BlockSignatures(h);
    for i := 0 to |ids|
      invariant errors == [] <==> forall j :: 0 <= j < i ==> SignatureOk(s, db.State(), h, ids[j])
      invariant errors == [] ==> valid == i
    {
      var id := ids[i];
      if id in members && members[id] != [] && s.verify(members[id], signatures[id].signature, db.blocks[h].blockHash) {
        valid := valid + 1;
      } else {
        errors := errors + [InvalidSignature(h, id)];
      }
    }
    assert forall id :: id in signatures <==> id in ids;
  }

  function OnlyIf(bad: bool, error: AuditError): (r: seq<AuditError>)
    ensures r == [] <==> !bad
  {
    if bad then [error] else []
  }

  method AuditContents(db: Database, s: Suite, h: int) returns (errors: seq<AuditError>)
    requires h in db.blocks
    ensures errors == [] <==> BlockSound(s, db.State(), h)
  {
    var block := db.blocks[h];
    errors := OnlyIf(HeaderHash(s, block.header) != block.blockHash, BlockHashMismatch(h));
    var hashes := db.BlockEventHashes(h);
    errors := errors + OnlyIf(|hashes| != block.header.eventCount, EventCountMismatch(h));
    var root := Root(s.sha, hashes);
    errors := errors + OnlyIf(root != block.header.merkleRoot, MerkleRootMismatch(h));
    var memberErrors := AuditMembers(db, h, block.status == Finalized, hashes);
    errors := errors + memberErrors;
    var authorities := db.BlockAuthorities(h);
    errors := errors + OnlyIf(SnapshotHash(s, authorities) != block.header.authoritySetHash, SnapshotMismatch(h));
    var signatureErrors, valid := AuditSignatures(db, s, h);
    errors := errors + signatureErrors;
    errors := errors + OnlyIf(block.status == Finalized && valid < block.header.quorumThreshold, NoQuorum(h));
  }

  /** One round of the loop over blocks: what it finds, and what it expects of the next block. */
  method AuditBlock(db: Database, s: Suite, heights: seq<int>, i: nat, expected: int, previous: Bytes)
    returns (errors: seq<AuditError>, nextExpected: int, nextPrevious: Bytes)
    requires i < |heights| && forall j :: 0 <= j < |heights| ==> heights[j] in db.blocks
    requires expected == 1 + FinalCount(db.State(), heights, i) && previous == LastFinalHash(db.State(), heights, i)
    ensures errors == [] <==> PlacedAt(db.State(), heights, i) && BlockSound(s, db.State(), heights[i])
    ensures nextExpected == 1 + FinalCount(db.State(), heights, i + 1)
    ensures nextPrevious == LastFinalHash(db.State(), heights, i + 1)
  {
    var h := heights[i];
    var block := db.blocks[h];
    errors := OnlyIf(h != expected, HeightGap(h)) + OnlyIf(block.header.previousHash != previous, PreviousHashMismatch(h));
    var found := AuditContents(db, s, h);
    errors := errors + found;
    if block.status == Finalized {
      nextPrevious := block.blockHash;
      nextExpected := expected + 1;
    } else {
      errors := errors + OnlyIf(h != heights[|heights| - 1], OpenBlockNotLast(h));
      nextPrevious, nextExpected := previous, expected;
    }
  }

  method AuditBlocks(db: Database, s: Suite) returns (errors: seq<AuditError>)
    ensures errors == [] <==>
      HeightsOk(db.State()) && forall h {:trigger BlockOk(s, db.State(), h)} :: h in db.State().blocks ==> BlockOk(s, db.State(), h)
  {
    errors := [];
    var previous: Bytes, expected := ZERO_HASH, 1;
    var heights := db.AllBlocks();
    for i := 0 to |heights|
      invariant errors == [] <==> BlocksClean(s, db.State(), heights, i)
      invariant expected == 1 + FinalCount(db.State(), heights, i)
      invariant previous == LastFinalHash(db.State(), heights, i)
    {
      var found;
      found, expected, previous := AuditBlock(db, s, heights, i, expected, previous);
      BlocksCleanStep(s, db.State(), heights, i);
      errors := errors + found;
    }
    BlocksCleanIff(s, db.State(), heights);
  }

  /** What the loop's dictionary holds after i rows: for each known device, what its latest event leads to expect. */
  ghost function ChainState(t: Tables, rows: seq<Bytes>, i: nat): map<string, (int, Bytes)>
    requires i <= |rows| && forall j :: 0 <= j < i ==> rows[j] in t.events
  {
    map d | d in t.devices && LatestOf(t, rows, i, d).Some? :: Expected(t, LatestOf(t, rows, i, d))
  }

  lemma ChainStep(t: Tables, rows: seq<Bytes>, i: nat)
    requires i < |rows| && forall j :: 0 <= j < |rows| ==> rows[j] in t.events
    ensures ChainState(t, rows, i + 1)
         == if t.events[rows[i]].deviceId in t.devices
            then ChainState(t, rows, i)[t.events[rows[i]].deviceId := (t.events[rows[i]].sequence + 1, rows[i])]
            else ChainState(t, rows, i)
  {
  }

  method AuditRow(db: Database, s: Suite, e: Bytes, expected: (int, Bytes)) returns (errors: seq<AuditError>)
    requires e in db.events && db.events[e].deviceId in db.devices
    ensures errors == [] <==> EventClean(s, db.State(), e, expected)
  {
    var row := db.events[e];
    errors := OnlyIf(row.sequence != expected.0, SequenceMismatch(e)) + OnlyIf(row.previousEventHash != expected.1, LinkMismatch(e));
    errors := errors + OnlyIf(!Canonical(s, row.unsigned, row.deviceId, row.sequence, row.payload), NotCanonicalData(e));
    errors := errors + OnlyIf(!s.verify(db.devices[row.deviceId].publicKey, row.signature, row.unsigned), InvalidEventSignature(e));
    errors := errors + OnlyIf(s.sha(EventInput(row.unsigned, row.signature)) != e, EventHashMismatch(e));
  }

  /** One round of the loop over events: what it finds, and the dictionary after it. */
  method AuditEvent(db: Database, s: Suite, rows: seq<Bytes>, i: nat, chain: map<string, (int, Bytes)>)
    returns (errors: seq<AuditError>, next: map<string, (int, Bytes)>)
    requires i < |rows| && forall j :: 0 <= j < |rows| ==> rows[j] in db.events
    requires chain == ChainState(db.State(), rows, i)
    ensures errors == [] <==> EventCleanAt(s, db.State(), rows, i)
    ensures next == ChainState(db.State(), rows, i + 1)
  {
    var e := rows[i];
    var d := db.events[e].deviceId;
    ChainStep(db.State(), rows, i);
    if d !in db.devices {
      return [DeviceUnknown(d)], chain;
    }
    errors := AuditRow(db, s, e, if d in chain then chain[d] else (1, ZERO_HASH));
    next := chain[d := (db.events[e].sequence + 1, e)];
  }

  method AuditEvents(db: Database, s: Suite, rows: seq<Bytes>) returns (errors: seq<AuditError>, chain: map<string, (int, Bytes)>)
    requires forall j :: 0 <= j < |rows| ==> rows[j] in db.events
    ensures errors == [] <==> EventsClean(s, db.State(), rows, |rows|)
    ensures chain == ChainState(db.State(), rows, |rows|)
  {
    errors, chain := [], map[];
    for i := 0 to |rows|
      invariant errors == [] <==> EventsClean(s, db.State(), rows, i)
      invariant chain == ChainState(db.State(), rows, i)
    {
      var found;
      found, chain := AuditEvent(db, s, rows, i, chain);
      EventsCleanStep(s, db.State(), rows, i);
      errors := errors + found;
    }
  }

  method AuditCheckpoints(db: Database, ghost rows: seq<Bytes>, chain: map<string, (int, Bytes)>) returns (errors: seq<AuditError>)
    requires Keyed(db.State()) && InEventOrder(db.State(), rows) && chain == ChainState(db.State(), rows, |rows|)
    ensures errors == [] <==> forall d {:trigger CheckpointOk(db.State(), d)} :: d in db.State().devices ==> CheckpointOk(db.State(), d)
  {
    errors := [];
    var rest := chain.Keys;
    while rest != {}
      invariant rest <= chain.Keys
      invariant errors == [] <==> forall d {:trigger CheckpointOk(db.State(), d)} :: d in chain && d !in rest ==> CheckpointOk(db.State(), d)
      decreases rest
    {
      var d :| d in rest;
      CheckpointCleanIff(db.State(), rows, d);
      errors := errors + OnlyIf(db.devices[d].lastSequence != chain[d].0 - 1, SequenceCheckpoint(d));
      errors := errors + OnlyIf(db.devices[d].lastEventHash != chain[d].1, HashCheckpoint(d));
      rest := rest - {d};
    }
    forall d | d in db.State().devices && d !in chain ensures CheckpointOk(db.State(), d) {
      CheckpointCleanIff(db.State(), rows, d);
    }
  }

  lemma MappingIff(t: Tables, e: Bytes, place: Option<(int, int)>)
    requires Keyed(t) && e in t.events && t.events[e].blockHeight.Some?
    requires place.Some? ==> Occupies(t, place.value.0, place.value.1, e)
    requires place.None? ==> !Taken(t, e)
    ensures MappingOk(t, e) <==> place.Some? && Some(place.value.0) == t.events[e].blockHeight
  {
    var h := t.events[e].blockHeight.value;
    if p :| Occupies(t, h, p, e) {
      assert Taken(t, e);
    }
  }

  method AuditMappings(db: Database) returns (errors: seq<AuditError>)
    requires Keyed(db.State())
    ensures errors == [] <==> forall e {:trigger MappingOk(db.State(), e)} :: e in db.State().events ==> MappingOk(db.State(), e)
  {
    errors := [];
    var rest := set e | e in db.events && db.events[e].blockHeight.Some?;
    while rest != {}
      invariant forall e :: e in rest ==> e in db.events && db.events[e].blockHeight.Some?
      invariant errors == [] <==> forall e {:trigger MappingOk(db.State(), e)} :: e in db.events && e !in rest ==> MappingOk(db.State(), e)
      decreases rest
    {
      var e :| e in rest;
      var place := db.PlaceOf(e);
      MappingIff(db.State(), e, place);
      errors := errors + OnlyIf(place.None? || Some(place.value.0) != db.events[e].blockHeight, BlockMapping(e));
      rest := rest - {e};
    }
  }

  datatype Report = Report(valid: bool, errors: seq<AuditError>, blocks: nat, events: nat, pending: nat)

  /** The audit is exact: it reports valid if and only if the database is well formed. */
  method VerifyAll(db: Database, s: Suite) returns (r: Report)
    requires Keyed(db.State())
    ensures r.valid <==> WellFormed(s, db.State())
    ensures r.valid <==> r.errors == []
    ensures r.blocks == |db.State().blocks| && r.events == |db.State().events| && r.pending == |Pending(db.State())|
  {
    var blockErrors := AuditBlocks(db, s);
    var rows := db.AllEvents();
    var eventErrors, chain := AuditEvents(db, s, rows);
    EventsCleanIff(s, db.State(), rows);
    var checkpointErrors := AuditCheckpoints(db, rows, chain);
    var mappingErrors := AuditMappings(db);
    var errors := blockErrors + eventErrors + checkpointErrors + mappingErrors;
    var pending := db.PendingCount();
    r := Report(errors == [], errors, |db.blocks|, |rows|, pending);
  }
}
