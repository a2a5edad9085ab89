/** The gateway's database: the tables as mutable fields, each transaction as a method. */
module Gateway {
  import opened Primitives
  import opened Ordering
  import opened Models
  import opened Store

  class Database {
    var devices: map<string, DeviceRow>
    var authorities: map<string, AuthorityRow>
    var events: map<Bytes, EventRow>
    var blocks: map<int, BlockRow>
    var blockEvents: map<int, map<int, Bytes>>
    var blockAuthorities: map<int, map<string, Bytes>>
    var blockSignatures: map<int, map<string, SignatureRow>>

    function State(): Tables
      reads this
    {
      Tables(devices, authorities, events, blocks, blockEvents, blockAuthorities, blockSignatures)
    }

    constructor ()
      ensures State() == EMPTY
    {
      devices, authorities, events, blocks := map[], map[], map[], map[];
      blockEvents, blockAuthorities, blockSignatures := map[], map[], map[];
    }

    /** ROLLBACK. */
    method Restore(saved: Tables)
      modifies this
      ensures State() == saved
    {
      devices, authorities, events, blocks := saved.devices, saved.authorities, saved.events, saved.blocks;
      blockEvents, blockAuthorities, blockSignatures := saved.blockEvents, saved.blockAuthorities, saved.blockSignatures;
    }

    // -------------------------------------------------------------------------
    // Transactions
    // -------------------------------------------------------------------------

    method RegisterDevice(id: string, publicKey: Bytes, keyId: string, now: int) returns (r: Result<bool, StoreError>)
      modifies this
      ensures match Store.RegisterDevice(old(State()), id, publicKey, keyId, now)
              case Ok(after) => State() == after.0 && r == Ok(after.1)
              case Err(e) => State() == old(State()) && r == Err(e)
    {
      if id in devices {
        if devices[id].publicKey != publicKey {
          return Err(DeviceKeyConflict);
        }
        if devices[id].status != Active {
          return Err(DeviceNotActive);
        }
        return Ok(false);
      }
      devices := devices[id := DeviceRow(publicKey, keyId, Active, 0, ZERO_HASH, now)];
      r := Ok(true);
    }

    method RegisterAuthority(id: string, publicKey: Bytes, keyId: string, now: int) returns (r: Result<bool, StoreError>)
      modifies this
      ensures match Store.RegisterAuthority(old(State()), id, publicKey, keyId, now)
              case Ok(after) => State() == after.0 && r == Ok(after.1)
              case Err(e) => State() == old(State()) && r == Err(e)
    {
      if id in authorities {
        if authorities[id].publicKey != publicKey {
          return Err(AuthorityKeyConflict);
        }
        if !authorities[id].active {
          return Err(AuthorityNotActive);
        }
        return Ok(false);
      }
      authorities := authorities[id := AuthorityRow(publicKey, keyId, true, now)];
      r := Ok(true);
    }

    method InsertVerifiedEvent(s: Suite, e: SignedEvent, payload: Bytes, now: int) returns (r: Result<bool, StoreError>)
      modifies this
      ensures match InsertEvent(s, old(State()), e, payload, now)
              case Ok(after) => State() == after.0 && r == Ok(after.1)
              case Err(e) => State() == old(State()) && r == Err(e)
      ensures r == Ok(true) ==> Received(s, old(State()), State(), e, payload, now)
      ensures r != Ok(true) ==> State() == old(State())
    {
      var hash := EventHash(s, e);
      if hash in events {
        if events[hash].unsigned != SigningBytes(s, e) || events[hash].signature != e.signature {
          return Err(HashCollision);
        }
        return Ok(false);
      }
      if e.deviceId !in devices {
        return Err(NotEnrolled);
      }
      var device := devices[e.deviceId];
      if device.status != Active {
        return Err(DeviceNotActive);
      }
      if e.sequence != device.lastSequence + 1 {
        return Err(BadSequence(device.lastSequence + 1, e.sequence));
      }
      if e.previousEventHash != device.lastEventHash {
        return Err(BrokenContinuity);
      }
      if exists f | f in events :: events[f].deviceId == e.deviceId && events[f].sequence == e.sequence {
        assert KeyInUse(State(), (e.deviceId, e.sequence));
        return Err(IntegrityError);
      }
      events := events[hash := NewEventRow(s, e, payload, now)];
      devices := devices[e.deviceId := device.(lastSequence := e.sequence, lastEventHash := hash)];
      r := Ok(true);
    }

    /** INSERT INTO blocks, refused by the two keys of that table. */
    method InsertBlock(row: BlockRow) returns (ok: bool)
      modifies this
      ensures ok <==> !BlockConflict(old(State()), row)
      ensures State() == if ok then WithBlock(old(State()), row) else old(State())
    {
      var h := row.header.height;
      ok := h !in blocks && forall k | k in blocks :: blocks[k].blockHash != row.blockHash;
      if ok {
        blocks := blocks[h := row];
        blockEvents := blockEvents[h := Under(blockEvents, h)];
        blockAuthorities := blockAuthorities[h := Under(blockAuthorities, h)];
        blockSignatures := blockSignatures[h := Under(blockSignatures, h)];
      }
    }

    /** INSERT INTO block_events, refused by the two keys of that table, and the UPDATE of the event. */
    method InsertSlot(h: int, p: int, e: Bytes) returns (ok: bool)
      requires e in events
      modifies this
      ensures ok <==> p !in Slots(old(State()), h) && !Taken(old(State()), e)
      ensures State() == if ok then WithSlot(old(State()), h, p, e) else old(State())
    {
      ok := p !in Under(blockEvents, h)
         && !exists k | k in blockEvents :: exists q | q in blockEvents[k] :: blockEvents[k][q] == e;
      assert Taken(State(), e) <==> exists k | k in blockEvents :: exists q | q in blockEvents[k] :: blockEvents[k][q] == e by {
        if k, q :| Occupies(State(), k, q, e) {
          assert k in blockEvents && q in blockEvents[k];
        }
        if k :| k in blockEvents && exists q | q in blockEvents[k] :: blockEvents[k][q] == e {
          var q :| q in blockEvents[k] && blockEvents[k][q] == e;
          assert Occupies(State(), k, q, e);
        }
      }
      if ok {
        blockEvents := blockEvents[h := Under(blockEvents, h)[p := e]];
        events := events[e := events[e].(blockHeight := Some(h))];
      }
    }

    /** INSERT INTO block_authorities, refused by the key of that table. */
    method InsertMember(h: int, member: (string, Bytes)) returns (ok: bool)
      modifies this
      ensures ok <==> member.0 !in Members(old(State()), h)
      ensures State() == if ok then WithMember(old(State()), h, member) else old(State())
    {
      ok := member.0 !in Under(blockAuthorities, h);
      if ok {
        blockAuthorities := blockAuthorities[h := Under(blockAuthorities, h)[member.0 := member.1]];
      }
    }

    method CreateProposal(s: Suite, header: BlockHeader, hashes: seq<Bytes>, members: Snapshot) returns (r: Result<(), StoreError>)
      modifies this
      ensures r.Ok? ==> Store.CreateProposal(old(State()), NewBlockRow(s, header), hashes, members) == Ok(State())
      ensures r.Err? ==> Store.CreateProposal(old(State()), NewBlockRow(s, header), hashes, members) == Err(r.error)
      ensures r.Err? ==> State() == old(State())
    {
      if exists k | k in blocks :: blocks[k].status == Proposed {
        return Err(AwaitingQuorum);
      }
      var pending := Pending(State());
      if exists i | 0 <= i < |hashes| :: hashes[i] !in pending {
        return Err(EventsClaimed);
      }
      var ok := InsertProposal(NewBlockRow(s, header), hashes, members);
      r := if ok then Ok(()) else Err(IntegrityError);
    }

    /** The rows of a proposal, inserted one by one; a row that is refused takes all of them back. */
    method InsertProposal(row: BlockRow, hashes: seq<Bytes>, members: Snapshot) returns (ok: bool)
      requires forall i :: 0 <= i < |hashes| ==> hashes[i] in Pending(State())
      modifies this
      ensures ok <==> !(BlockConflict(old(State()), row) || SlotConflict(old(State()), row.header.height, hashes)
                        || MemberConflict(old(State()), row.header.height, members))
      ensures State() == if ok then ProposalTables(old(State()), row, hashes, members) else old(State())
    {
      var saved := State();
      ok := InsertBlock(row);
      ProposalStart(saved, row);
      if ok {
        ok := InsertSlots(row, hashes, saved);
      }
      if ok {
        ok := InsertMembers(row, hashes, members, saved);
      }
      if !ok {
        Restore(saved);
      }
    }

    method InsertSlots(row: BlockRow, hashes: seq<Bytes>, ghost saved: Tables) returns (ok: bool)
      requires State() == ProposalTables(saved, row, [], [])
      requires forall i :: 0 <= i < |hashes| ==> hashes[i] in saved.events
      modifies this
      ensures ok <==> !SlotConflict(saved, row.header.height, hashes)
      ensures ok ==> State() == ProposalTables(saved, row, hashes, [])
    {
      for i := 0 to |hashes|
        invariant State() == ProposalTables(saved, row, hashes[..i], [])
        invariant !SlotConflict(saved, row.header.height, hashes[..i])
      {
        SlotConflictStep(saved, State(), row, hashes, i);
        SlotStep(saved, row, hashes, i);
        ok := InsertSlot(row.header.height, i, hashes[i]);
        if !ok {
          return;
        }
      }
      assert hashes[..|hashes|] == hashes;
      ok := true;
    }

    method InsertMembers(row: BlockRow, ghost hashes: seq<Bytes>, members: Snapshot, ghost saved: Tables) returns (ok: bool)
      requires State() == ProposalTables(saved, row, hashes, [])
      modifies this
      ensures ok <==> !MemberConflict(saved, row.header.height, members)
      ensures ok ==> State() == ProposalTables(saved, row, hashes, members)
    {
      for j := 0 to |members|
        invariant State() == ProposalTables(saved, row, hashes, members[..j])
        invariant !MemberConflict(saved, row.header.height, members[..j])
      {
        MemberConflictStep(saved, State(), row, hashes, members, j);
        MemberStep(saved, row, hashes, members, j);
        ok := InsertMember(row.header.height, members[j]);
        if !ok {
          return;
        }
      }
      assert members[..|members|] == members;
      ok := true;
    }

    /** INSERT OR IGNORE INTO block_signatures. */
    method InsertSignatureRow(h: int, id: string, row: SignatureRow) returns (count: nat)
      modifies this
      ensures State() == old(State()).(blockSignatures := old(blockSignatures)[h := WithSignature(Signatures(old(State()), h), id, row)])
      ensures count == |WithSignature(Signatures(old(State()), h), id, row)|
    {
      blockSignatures := blockSignatures[h := WithSignature(Under(blockSignatures, h), id, row)];
      count := |blockSignatures[h]|;
    }

    /** The two UPDATEs that make a block and its events final. */
    method MarkFinal(h: int, now: int)
      requires h in blocks
      modifies this
      ensures State() == old(State()).(blocks := old(blocks)[h := FinalizedRow(old(blocks)[h], now)],
                                       events := FinalizedEvents(old(events), h))
    {
      blocks := blocks[h := FinalizedRow(blocks[h], now)];
      events := FinalizedEvents(events, h);
    }

    method InsertBlockSignature(h: int, id: string, signature: Bytes, now: int) returns (r: Result<BlockStatus, StoreError>)
      modifies this
      ensures r.Ok? ==> InsertSignature(old(State()), h, id, signature, now) == Ok((State(), r.value))
      ensures r.Err? ==> InsertSignature(old(State()), h, id, signature, now) == Err(r.error)
      ensures r.Err? ==> State() == old(State())
    {
      var saved := State();
      if h !in blocks {
        return Err(NoSuchBlock);
      }
      var block := blocks[h];
      if block.status == Finalized && id in Under(blockSignatures, h) {
        return Ok(Finalized);
      }
      if id !in Under(blockAuthorities, h) {
        return Err(NotInSnapshot);
      }
      var count := InsertSignatureRow(h, id, SignatureRow(signature, now));
      if count < block.header.quorumThreshold {
        return Ok(block.status);
      }
      if !PreviousIsFinal(block) {
        Restore(saved);
        return Err(PreviousNotFinalized);
      }
      MarkFinal(h, now);
      r := Ok(Finalized);
    }

    predicate PreviousIsFinal(block: BlockRow)
      reads this
      ensures PreviousIsFinal(block) == PreviousFinalized(State(), block)
    {
      var k := block.header.height - 1;
      if k > 0 then k in blocks && blocks[k].status == Finalized && blocks[k].blockHash == block.header.previousHash
      else k == 0 && block.header.previousHash == ZERO_HASH
    }

    // -------------------------------------------------------------------------
    // Queries with an ORDER BY
    // -------------------------------------------------------------------------

    method AllBlocks() returns (r: seq<int>)
      ensures r == Heights(State())
    {
      IntOrder();
      r := Enumerate(blocks.Keys, IntLess);
    }

    method FirstProposedBlock() returns (r: Option<int>)
      ensures r.Some? <==> ProposalOpen(State())
      ensures r.Some? ==> r.value in HeightsWith(State(), Proposed)
      ensures forall h :: h in HeightsWith(State(), Proposed) ==> r.Some? && r.value <= h
    {
      IntOrder();
      var heights := Enumerate(HeightsWith(State(), Proposed), IntLess);
      r := None;
      if heights != [] {
        assert heights[0] in HeightsWith(State(), Proposed);
        r := Some(heights[0]);
        forall h | h in HeightsWith(State(), Proposed) ensures heights[0] <= h {
          assert h in heights;
        }
      } else {
        forall h | h in blocks ensures blocks[h].status != Proposed {
          assert h in HeightsWith(State(), Proposed) ==> h in heights;
        }
      }
    }

    method LastFinalizedBlock() returns (r: Option<int>)
      ensures r == LastFinal(State())
    {
      IntOrder();
      var heights := Enumerate(HeightsWith(State(), Finalized), IntLess);
      r := if heights == [] then None else Some(heights[|heights| - 1]);
    }

    method ActiveAuthoritiesById() returns (r: Snapshot)
      ensures r == ActiveAuthorities(State())
    {
      var keys := ActiveKeys(State());
      TextOrder();
      var ids := Enumerate(keys.Keys, TextLess);
      r := seq(|ids|, i requires 0 <= i < |ids| && ids[i] in keys => (ids[i], keys[ids[i]]));
      assert IdsInOrder(keys) == ids;
    }

    method BlockAuthorities(h: int) returns (r: Snapshot)
      ensures r == SnapshotAt(State(), h)
    {
      var keys := Members(State(), h);
      TextOrder();
      var ids := Enumerate(keys.Keys, TextLess);
      r := seq(|ids|, i requires 0 <= i < |ids| && ids[i] in keys => (ids[i], keys[ids[i]]));
      assert IdsInOrder(keys) == ids;
    }

    method BlockSignatures(h: int) returns (r: seq<string>)
      ensures r == IdsInOrder(Signatures(State(), h))
    {
      TextOrder();
      r := Enumerate(Signatures(State(), h).Keys, TextLess);
    }

    method BlockEventHashes(h: int) returns (r: seq<Bytes>)
      ensures r == EventHashes(State(), h)
    {
      var slots := Slots(State(), h);
      IntOrder();
      var positions := Enumerate(slots.Keys, IntLess);
      assert positions == Positions(State(), h);
      r := seq(|positions|, i requires 0 <= i < |positions| && positions[i] in slots => slots[positions[i]]);
    }

    method PendingSelection(limit: nat) returns (r: seq<Bytes>)
      ensures r == Selection(State(), limit)
    {
      ArrivalOrder();
      var rows := Enumerate(PendingArrivals(State()), ArrivalLess);
      r := FirstHashes(rows, limit);
    }

    /** The membership row of an event; its hash is a unique key of that table. */
    method PlaceOf(e: Bytes) returns (r: Option<(int, int)>)
      ensures r.Some? ==> Occupies(State(), r.value.0, r.value.1, e)
      ensures r.None? ==> !Taken(State(), e)
    {
      if h :| h in blockEvents && exists p | p in blockEvents[h] :: blockEvents[h][p] == e {
        var p :| p in blockEvents[h] && blockEvents[h][p] == e;
        r := Some((h, p));
      } else {
        r := None;
        forall h, p ensures !Occupies(State(), h, p, e) {
          assert h in blockEvents && p in blockEvents[h] ==> blockEvents[h][p] != e;
        }
      }
    }

    method PendingCount() returns (n: nat)
      ensures n == |Pending(State())|
    {
      n := |Pending(State())|;
    }

    method RowWithKey(key: (string, int)) returns (e: Bytes)
      requires key in EventKeys(State())
      ensures e in events && EventKey(State(), e) == key
    {
      e :| e in events && events[e].deviceId == key.0 && events[e].sequence == key.1;
    }

    method AllEvents() returns (r: seq<Bytes>)
      requires Keyed(State())
      ensures InEventOrder(State(), r) && |r| == |events|
    {
      EventKeyOrder();
      var keys := Enumerate(EventKeys(State()), EventKeyLess);
      r := [];
      for i := 0 to |keys|
        invariant RowsOfKeys(State(), r, keys[..i])
      {
        assert keys[i] in EventKeys(State());
        var e := RowWithKey(keys[i]);
        RowsOfMoreKeys(State(), r, keys, e);
        r := r + [e];
      }
      assert keys[..|keys|] == keys;
      RowsInOrder(State(), r, keys);
      EventRowsDistinct(State(), r);
    }
  }

  predicate RowsOfKeys(t: Tables, rows: seq<Bytes>, keys: seq<(string, int)>) {
    |rows| == |keys| && forall i | 0 <= i < |rows| :: rows[i] in t.events && EventKey(t, rows[i]) == keys[i]
  }

  lemma RowsOfMoreKeys(t: Tables, rows: seq<Bytes>, keys: seq<(string, int)>, e: Bytes)
    requires |rows| < |keys| && RowsOfKeys(t, rows, keys[..|rows|])
    requires e in t.events && EventKey(t, e) == keys[|rows|]
    ensures RowsOfKeys(t, rows + [e], keys[..|rows| + 1])
  {
  }

  lemma RowsInOrder(t: Tables, rows: seq<Bytes>, keys: seq<(string, int)>)
    requires Keyed(t) && RowsOfKeys(t, rows, keys)
    requires Lists(keys, EventKeys(t), EventKeyLess)
    ensures InEventOrder(t, rows)
  {
    forall e | e in t.events ensures e in rows {
      assert EventKey(t, e) in EventKeys(t);
      var i :| 0 <= i < |keys| && keys[i] == EventKey(t, e);
      assert EventKey(t, rows[i]) == EventKey(t, e);
      assert rows[i] == e;
    }
  }

  lemma EventRowsDistinct(t: Tables, r: seq<Bytes>)
    requires InEventOrder(t, r)
    ensures |r| == |t.events|
  {
    EventKeyOrder();
    forall i, j | 0 <= i < j < |r| ensures r[i] != r[j] {
      assert EventKeyLess(EventKey(t, r[i]), EventKey(t, r[j]));
    }
    DistinctSize(r, t.events.Keys);
  }

  lemma {:induction false} DistinctSize<T>(r: seq<T>, s: set<T>)
    requires forall i, j :: 0 <= i < j < |r| ==> r[i] != r[j]
    requires forall x :: x in s <==> x in r
    ensures |r| == |s|
  {
    if r == [] {
      assert s == {};
    } else {
      var last := r[|r| - 1];
      assert r == r[..|r| - 1] + [last];
      DistinctSize(r[..|r| - 1], s - {last});
    }
  }

  // ---------------------------------------------------------------------------
  // One inserted row at a time
  // ---------------------------------------------------------------------------

  function WithBlock(t: Tables, row: BlockRow): Tables {
    var h := row.header.height;
    t.(blocks := t.blocks[h := row], blockEvents := t.blockEvents[h := Slots(t, h)],
       blockAuthorities := t.blockAuthorities[h := Members(t, h)],
       blockSignatures := t.blockSignatures[h := Signatures(t, h)])
  }

  function WithSlot(t: Tables, h: int, p: int, e: Bytes): Tables
    requires e in t.events
  {
    t.(blockEvents := t.blockEvents[h := Slots(t, h)[p := e]],
       events := t.events[e := t.events[e].(blockHeight := Some(h))])
  }

  function WithMember(t: Tables, h: int, member: (string, Bytes)): Tables {
    t.(blockAuthorities := t.blockAuthorities[h := Members(t, h)[member.0 := member.1]])
  }

  lemma ProposalStart(t: Tables, row: BlockRow)
    ensures WithBlock(t, row) == ProposalTables(t, row, [], [])
  {
    var h := row.header.height;
    assert Assigned(t.events, [], h) == t.events;
    assert WithSlots(Slots(t, h), []) == Slots(t, h);
  }

  lemma UpdateTwice<K, V>(m: map<K, V>, k: K, v: V, w: V)
    ensures m[k := v][k := w] == m[k := w]
  {
  }

  lemma AssignedStep(events: map<Bytes, EventRow>, hashes: seq<Bytes>, h: int, e: Bytes)
    requires e in events
    ensures var done := Assigned(events, hashes, h);
            done[e := done[e].(blockHeight := Some(h))] == Assigned(events, hashes + [e], h)
  {
  }

  lemma WithSlotsStep(slots: map<int, Bytes>, hashes: seq<Bytes>, e: Bytes)
    ensures WithSlots(slots, hashes)[|hashes| := e] == WithSlots(slots, hashes + [e])
  {
  }

  lemma SlotStep(t: Tables, row: BlockRow, hashes: seq<Bytes>, i: nat)
    requires i < |hashes| && hashes[i] in t.events
    ensures WithSlot(ProposalTables(t, row, hashes[..i], []), row.header.height, i, hashes[i])
         == ProposalTables(t, row, hashes[..i + 1], [])
  {
    assert hashes[..i + 1] == hashes[..i] + [hashes[i]];
    AssignedStep(t.events, hashes[..i], row.header.height, hashes[i]);
    WithSlotsStep(Slots(t, row.header.height), hashes[..i], hashes[i]);
    UpdateTwice(t.blockEvents, row.header.height, WithSlots(Slots(t, row.header.height), hashes[..i]),
                WithSlots(Slots(t, row.header.height), hashes[..i + 1]));
  }

  lemma SlotsSoFar(t: Tables, u: Tables, row: BlockRow, hashes: seq<Bytes>, k: int, p: int, e: Bytes)
    requires u == ProposalTables(t, row, hashes, [])
    ensures Occupies(u, k, p, e)
       <==> if k == row.header.height && 0 <= p < |hashes| then hashes[p] == e else Occupies(t, k, p, e)
  {
  }

  lemma TakenSoFar(t: Tables, u: Tables, row: BlockRow, hashes: seq<Bytes>, e: Bytes)
    requires u == ProposalTables(t, row, hashes, []) && !SlotConflict(t, row.header.height, hashes)
    ensures Taken(u, e) <==> Taken(t, e) || e in hashes
  {
    hide ProposalTables;
    if Taken(t, e) {
      var k, p :| Occupies(t, k, p, e);
      SlotsSoFar(t, u, row, hashes, k, p, e);
    }
    if e in hashes {
      var p :| 0 <= p < |hashes| && hashes[p] == e;
      SlotsSoFar(t, u, row, hashes, row.header.height, p, e);
    }
    if Taken(u, e) {
      var k, p :| Occupies(u, k, p, e);
      SlotsSoFar(t, u, row, hashes, k, p, e);
    }
  }

  lemma RepeatsStep<T>(xs: seq<T>, x: T)
    ensures Repeats(xs + [x]) <==> Repeats(xs) || x in xs
  {
    var more := xs + [x];
    if Repeats(more) {
      var i, j :| 0 <= i < j < |more| && more[i] == more[j];
      if j < |xs| {
        assert xs[i] == xs[j];
      }
    }
    if Repeats(xs) {
      var i, j :| 0 <= i < j < |xs| && xs[i] == xs[j];
      assert more[i] == more[j];
    }
    if x in xs {
      var i :| 0 <= i < |xs| && xs[i] == x;
      assert more[i] == more[|xs|];
    }
  }

  lemma SlotConflictAppend(t: Tables, h: int, hashes: seq<Bytes>, e: Bytes)
    ensures SlotConflict(t, h, hashes + [e])
       <==> SlotConflict(t, h, hashes) || e in hashes || |hashes| in Slots(t, h) || Taken(t, e)
  {
    var more := hashes + [e];
    RepeatsStep(hashes, e);
    if i :| 0 <= i < |more| && (i in Slots(t, h) || Taken(t, more[i])) {
      if i < |hashes| {
        assert more[i] == hashes[i];
      }
    }
    if i :| 0 <= i < |hashes| && (i in Slots(t, h) || Taken(t, hashes[i])) {
      assert more[i] == hashes[i];
    }
    assert more[|hashes|] == e;
  }

  lemma SlotConflictGrows(t: Tables, h: int, hashes: seq<Bytes>, i: nat)
    requires i <= |hashes| && SlotConflict(t, h, hashes[..i])
    ensures SlotConflict(t, h, hashes)
  {
    var done := hashes[..i];
    if Repeats(done) {
      var j, k :| 0 <= j < k < |done| && done[j] == done[k];
      assert hashes[j] == hashes[k];
    } else {
      var j :| 0 <= j < |done| && (j in Slots(t, h) || Taken(t, done[j]));
      assert hashes[j] == done[j];
    }
  }

  /** The next membership row conflicts exactly when one more hash makes the whole list conflict. */
  lemma SlotConflictStep(t: Tables, u: Tables, row: BlockRow, hashes: seq<Bytes>, i: nat)
    requires i < |hashes| && u == ProposalTables(t, row, hashes[..i], [])
    requires !SlotConflict(t, row.header.height, hashes[..i])
    ensures i in Slots(u, row.header.height) || Taken(u, hashes[i]) <==> SlotConflict(t, row.header.height, hashes[..i + 1])
    ensures SlotConflict(t, row.header.height, hashes[..i + 1]) ==> SlotConflict(t, row.header.height, hashes)
  {
    var h := row.header.height;
    assert hashes[..i + 1] == hashes[..i] + [hashes[i]];
    TakenSoFar(t, u, row, hashes[..i], hashes[i]);
    SlotConflictAppend(t, h, hashes[..i], hashes[i]);
    assert i in Slots(u, h) <==> i in Slots(t, h);
    if SlotConflict(t, h, hashes[..i + 1]) {
      SlotConflictGrows(t, h, hashes, i + 1);
    }
  }

  lemma WithMembersStep(members: map<string, Bytes>, authorities: Snapshot, a: (string, Bytes))
    ensures WithMembers(members, authorities)[a.0 := a.1] == WithMembers(members, authorities + [a])
  {
    assert (authorities + [a])[..|authorities|] == authorities;
  }

  lemma MemberStep(t: Tables, row: BlockRow, hashes: seq<Bytes>, members: Snapshot, j: nat)
    requires j < |members|
    ensures WithMember(ProposalTables(t, row, hashes, members[..j]), row.header.height, members[j])
         == ProposalTables(t, row, hashes, members[..j + 1])
  {
    assert members[..j + 1] == members[..j] + [members[j]];
    WithMembersStep(Members(t, row.header.height), members[..j], members[j]);
    UpdateTwice(t.blockAuthorities, row.header.height, WithMembers(Members(t, row.header.height), members[..j]),
                WithMembers(Members(t, row.header.height), members[..j + 1]));
  }

  lemma MemberConflictAppend(t: Tables, h: int, members: Snapshot, a: (string, Bytes))
    ensures MemberConflict(t, h, members + [a])
       <==> MemberConflict(t, h, members) || a.0 in Ids(members) || a.0 in Members(t, h)
  {
    var more := members + [a];
    assert Ids(more) == Ids(members) + [a.0];
    RepeatsStep(Ids(members), a.0);
    if k :| 0 <= k < |more| && more[k].0 in Members(t, h) {
      if k < |members| {
        assert more[k] == members[k];
      }
    }
    if k :| 0 <= k < |members| && members[k].0 in Members(t, h) {
      assert more[k] == members[k];
    }
    assert more[|members|] == a;
  }

  lemma MemberConflictGrows(t: Tables, h: int, members: Snapshot, j: nat)
    requires j <= |members| && MemberConflict(t, h, members[..j])
    ensures MemberConflict(t, h, members)
  {
    var done := members[..j];
    if Repeats(Ids(done)) {
      var k, l :| 0 <= k < l < |done| && Ids(done)[k] == Ids(done)[l];
      assert Ids(members)[k] == Ids(members)[l];
    } else {
      var k :| 0 <= k < |done| && done[k].0 in Members(t, h);
      assert members[k] == done[k];
    }
  }

  lemma MemberConflictStep(t: Tables, u: Tables, row: BlockRow, hashes: seq<Bytes>, members: Snapshot, j: nat)
    requires j < |members| && u == ProposalTables(t, row, hashes, members[..j])
    requires !MemberConflict(t, row.header.height, members[..j])
    ensures members[j].0 in Members(u, row.header.height) <==> MemberConflict(t, row.header.height, members[..j + 1])
    ensures MemberConflict(t, row.header.height, members[..j + 1]) ==> MemberConflict(t, row.header.height, members)
  {
    var h := row.header.height;
    assert members[..j + 1] == members[..j] + [members[j]];
    MemberConflictAppend(t, h, members[..j], members[j]);
    if MemberConflict(t, h, members[..j + 1]) {
      MemberConflictGrows(t, h, members, j + 1);
    }
  }
}
