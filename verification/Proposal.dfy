/** Storing a proposed block keeps the invariant, however stale the reads it was built from. */
module Proposal {
  import opened Primitives
  import opened Ordering
  import opened Models
  import opened Store
  import opened Merkle
  import opened Audit
  import opened Invariant

  // ---------------------------------------------------------------------------
  // Reading back what was inserted
  // ---------------------------------------------------------------------------

  function Range(n: nat): (r: seq<int>)
    ensures |r| == n && forall i :: 0 <= i < n ==> r[i] == i
  {
    seq(n, i => i)
  }

  lemma RangeIsSorted(n: nat, keys: set<int>)
    requires forall p :: p in keys <==> 0 <= p < n
    ensures StrictOrder(IntLess) && Sorted(keys, IntLess) == Range(n)
  {
    IntOrder();
    var r := Range(n);
    forall k ensures k in r <==> k in keys {
      if k in keys {
        assert r[k] == k;
      }
    }
    SortedIs(r, keys, IntLess);
  }

  lemma HashesOfSlots(t: Tables, h: int, hashes: seq<Bytes>)
    requires forall p :: p in Slots(t, h) <==> 0 <= p < |hashes|
    requires forall p :: 0 <= p < |hashes| ==> Slots(t, h)[p] == hashes[p]
    ensures EventHashes(t, h) == hashes
  {
    RangeIsSorted(|hashes|, Slots(t, h).Keys);
    assert Positions(t, h) == Range(|hashes|);
  }

  /** A list of authorities as the ORDER BY authority_id of a query returns it. */
  ghost predicate InIdOrder(authorities: Snapshot) {
    forall i, j :: 0 <= i < j < |authorities| ==> TextLess(authorities[i].0, authorities[j].0)
  }

  lemma {:induction false} WithMembersAt(authorities: Snapshot, i: nat)
    requires InIdOrder(authorities) && i < |authorities|
    ensures authorities[i].0 in WithMembers(map[], authorities)
    ensures WithMembers(map[], authorities)[authorities[i].0] == authorities[i].1
    decreases |authorities|
  {
    var last := |authorities| - 1;
    TextOrder();
    if i < last {
      WithMembersAt(authorities[..last], i);
      assert TextLess(authorities[i].0, authorities[last].0);
    }
  }

  lemma ByIdOfMembers(authorities: Snapshot)
    requires InIdOrder(authorities)
    ensures ById(WithMembers(map[], authorities)) == authorities
    ensures |WithMembers(map[], authorities)| == |authorities|
  {
    hide WithMembers, TextLess, InIdOrder;
    var members := WithMembers(map[], authorities);
    IdsOfMembers(authorities);
    forall i | 0 <= i < |authorities| ensures ById(members)[i] == authorities[i] {
      WithMembersAt(authorities, i);
    }
    assert |members.Keys| == |authorities|;
  }

  lemma IdsOfMembers(authorities: Snapshot)
    requires InIdOrder(authorities)
    ensures IdsInOrder(WithMembers(map[], authorities)) == Ids(authorities)
  {
    hide WithMembers;
    TextOrder();
    SortedIs(Ids(authorities), WithMembers(map[], authorities).Keys, TextLess);
  }

  lemma {:induction false} WithMembersValues(authorities: Snapshot, id: string)
    requires id in WithMembers(map[], authorities)
    ensures exists i :: 0 <= i < |authorities| && WithMembers(map[], authorities)[id] == authorities[i].1
    decreases |authorities|
  {
    var last := |authorities| - 1;
    if authorities[last].0 == id {
      assert WithMembers(map[], authorities)[id] == authorities[last].1;
    } else {
      WithMembersValues(authorities[..last], id);
      var i :| 0 <= i < last && WithMembers(map[], authorities[..last])[id] == authorities[i].1;
      assert WithMembers(map[], authorities)[id] == authorities[i].1;
    }
  }

  // ---------------------------------------------------------------------------
  // What a proposer has put together when it starts the transaction
  // ---------------------------------------------------------------------------

  ghost predicate SnapshotReady(authorities: Snapshot) {
    && InIdOrder(authorities)
    && forall i :: 0 <= i < |authorities| ==> |authorities[i].1| == 32
  }

  /** The header names the last final block its proposer saw, which may be out of date. */
  predicate ExtendsFinal(t: Tables, header: BlockHeader) {
    if header.height == 1 then
      header.previousHash == ZERO_HASH
    else
      && header.height > 1 && header.height - 1 in t.blocks
      && t.blocks[header.height - 1].status == Finalized
      && t.blocks[header.height - 1].blockHash == header.previousHash
  }

  /** The row is a fresh proposal whose counts fit its members and snapshot. */
  predicate RowFits(row: BlockRow, hashes: seq<Bytes>, authorities: Snapshot) {
    && row.status == Proposed && row.finalizedAtMs.None?
    && hashes != [] && row.header.eventCount == |hashes|
    && 1 <= row.header.quorumThreshold <= |authorities|
  }

  /** The hashes of the row are those of its header, members and snapshot. */
  ghost predicate RowCommits(s: Suite, row: BlockRow, hashes: seq<Bytes>, authorities: Snapshot) {
    && row.blockHash == HeaderHash(s, row.header)
    && row.header.merkleRoot == RootOf(s.sha, hashes)
    && row.header.authoritySetHash == SnapshotHash(s, authorities)
  }

  ghost predicate ProposalReady(s: Suite, t: Tables, row: BlockRow, hashes: seq<Bytes>, authorities: Snapshot) {
    && RowFits(row, hashes, authorities)
    && RowCommits(s, row, hashes, authorities)
    && SnapshotReady(authorities)
    && ExtendsFinal(t, row.header)
  }

  // ---------------------------------------------------------------------------
  // The transaction
  // ---------------------------------------------------------------------------

  /** The checks of the transaction force the new block to extend the current last block. */
  lemma ProposalExtendsChain(t: Tables, row: BlockRow, hashes: seq<Bytes>, authorities: Snapshot)
    requires HeightsOk(t) && ExtendsFinal(t, row.header)
    requires CreateProposal(t, row, hashes, authorities).Ok?
    ensures row.header.height == |t.blocks| + 1
    ensures row.header.previousHash == PreviousHashAt(t, row.header.height)
    ensures forall h :: h in t.blocks ==> t.blocks[h].status == Finalized
  {
    forall h | h in t.blocks ensures t.blocks[h].status == Finalized {
      assert !ProposalOpen(t);
    }
    assert 0 !in t.blocks;
  }

  /** What the tables u with the stored proposal look like beside the tables t before it. */
  ghost predicate Claims(t: Tables, u: Tables, row: BlockRow, hashes: seq<Bytes>, authorities: Snapshot) {
    var h := row.header.height;
    && u.devices == t.devices && u.authorities == t.authorities
    && u.events == Assigned(t.events, hashes, h)
    && h !in t.blocks && u.blocks == t.blocks[h := row]
    && (forall k :: Slots(u, k) == if k == h then WithSlots(map[], hashes) else Slots(t, k))
    && (forall k :: Members(u, k) == if k == h then WithMembers(map[], authorities) else Members(t, k))
    && (forall k :: Signatures(u, k) == if k == h then map[] else Signatures(t, k))
  }

  ghost predicate AllPending(t: Tables, hashes: seq<Bytes>) {
    forall e :: e in hashes ==> e in t.events && t.events[e].blockHeight.None?
  }

  lemma ProposalPending(t: Tables, u: Tables, row: BlockRow, hashes: seq<Bytes>, authorities: Snapshot)
    requires CreateProposal(t, row, hashes, authorities) == Ok(u)
    ensures AllPending(t, hashes)
    ensures !SlotConflict(t, row.header.height, hashes) && !BlockConflict(t, row)
  {
    forall e | e in hashes ensures e in Pending(t) {
      var i :| 0 <= i < |hashes| && hashes[i] == e;
    }
  }

  lemma NoChildren(t: Tables, h: int)
    requires ChildrenInv(t) && h !in t.blocks
    ensures Slots(t, h) == map[] && Members(t, h) == map[] && Signatures(t, h) == map[]
  {
  }

  lemma ProposalChildren(t: Tables, row: BlockRow, hashes: seq<Bytes>, authorities: Snapshot)
    requires ChildrenInv(t)
    ensures ChildrenInv(ProposalTables(t, row, hashes, authorities))
  {
  }

  lemma ProposalClaims(t: Tables, row: BlockRow, hashes: seq<Bytes>, authorities: Snapshot)
    requires row.header.height !in t.blocks
    requires Slots(t, row.header.height) == map[] && Members(t, row.header.height) == map[]
    requires Signatures(t, row.header.height) == map[]
    ensures Claims(t, ProposalTables(t, row, hashes, authorities), row, hashes, authorities)
  {
  }

  lemma ProposalEffect(t: Tables, u: Tables, row: BlockRow, hashes: seq<Bytes>, authorities: Snapshot)
    requires ChildrenInv(t) && CreateProposal(t, row, hashes, authorities) == Ok(u)
    ensures Claims(t, u, row, hashes, authorities) && ChildrenInv(u)
  {
    NoChildren(t, row.header.height);
    ProposalChildren(t, row, hashes, authorities);
    ProposalClaims(t, row, hashes, authorities);
  }

  lemma NewSlotsFresh(t: Tables, h: int, hashes: seq<Bytes>, j: int, p: int, i: nat)
    requires !SlotConflict(t, h, hashes) && i < |hashes|
    ensures !Occupies(t, j, p, hashes[i])
  {
    assert !Taken(t, hashes[i]);
  }

  lemma NoRepeats(t: Tables, h: int, hashes: seq<Bytes>, i: nat, j: nat)
    requires !SlotConflict(t, h, hashes) && i < |hashes| && j < |hashes| && hashes[i] == hashes[j]
    ensures i == j
  {
    assert !Repeats(hashes);
  }

  lemma ClaimedSlots(t: Tables, u: Tables, row: BlockRow, hashes: seq<Bytes>, authorities: Snapshot, k: int, p: int, e: Bytes)
    requires Claims(t, u, row, hashes, authorities)
    ensures Occupies(u, k, p, e) <==>
      if k == row.header.height then 0 <= p < |hashes| && hashes[p] == e else Occupies(t, k, p, e)
  {
  }

  lemma SlotsStayUnique(t: Tables, u: Tables, row: BlockRow, hashes: seq<Bytes>, authorities: Snapshot,
                        j: int, p: int, k: int, q: int, e: Bytes)
    requires Keyed(t) && Claims(t, u, row, hashes, authorities) && !SlotConflict(t, row.header.height, hashes)
    requires Occupies(u, j, p, e) && Occupies(u, k, q, e)
    ensures j == k && p == q
  {
    var h := row.header.height;
    ClaimedSlots(t, u, row, hashes, authorities, j, p, e);
    ClaimedSlots(t, u, row, hashes, authorities, k, q, e);
    if j == h {
      NewSlotsFresh(t, h, hashes, k, q, p);
      NoRepeats(t, h, hashes, p, if k == h then q else p);
    } else if k == h {
      NewSlotsFresh(t, h, hashes, j, p, q);
    }
  }

  lemma ProposalKeyed(t: Tables, u: Tables, row: BlockRow, hashes: seq<Bytes>, authorities: Snapshot)
    requires Keyed(t) && Claims(t, u, row, hashes, authorities)
    requires !SlotConflict(t, row.header.height, hashes) && !BlockConflict(t, row)
    ensures Keyed(u)
  {
    forall e, f | e in u.events && f in u.events && EventKey(u, e) == EventKey(u, f) ensures e == f {
      assert EventKey(t, e) == EventKey(u, e) && EventKey(t, f) == EventKey(u, f);
    }
    forall j, p, k, q, e | Occupies(u, j, p, e) && Occupies(u, k, q, e) ensures j == k && p == q {
      SlotsStayUnique(t, u, row, hashes, authorities, j, p, k, q, e);
    }
  }

  lemma ProposalPlacement(t: Tables, u: Tables, row: BlockRow, hashes: seq<Bytes>, authorities: Snapshot, e: Bytes)
    requires Claims(t, u, row, hashes, authorities) && AllPending(t, hashes) && row.status == Proposed
    requires e in t.events && PlacementInv(t, e)
    ensures PlacementInv(u, e)
  {
    var h := row.header.height;
    if e in hashes {
      var i :| 0 <= i < |hashes| && hashes[i] == e;
      ClaimedSlots(t, u, row, hashes, authorities, h, i, e);
    } else {
      match t.events[e].blockHeight
      case None =>
        forall k, p ensures !Occupies(u, k, p, e) {
          ClaimedSlots(t, u, row, hashes, authorities, k, p, e);
          assert !Occupies(t, k, p, e);
        }
      case Some(k) =>
        var p :| Occupies(t, k, p, e);
        ClaimedSlots(t, u, row, hashes, authorities, k, p, e);
    }
  }

  lemma ProposalEvent(s: Suite, t: Tables, u: Tables, row: BlockRow, hashes: seq<Bytes>, authorities: Snapshot, e: Bytes)
    requires Claims(t, u, row, hashes, authorities) && AllPending(t, hashes) && row.status == Proposed
    requires e in t.events && EventInv(s, t, e)
    ensures EventInv(s, u, e)
  {
    forall f | f in t.events ensures f in u.events && EventKey(u, f) == EventKey(t, f) {}
    EventOkFrame(s, t, u, e);
    ProposalPlacement(t, u, row, hashes, authorities, e);
  }

  lemma ProposalOldBlock(s: Suite, t: Tables, u: Tables, row: BlockRow, hashes: seq<Bytes>, authorities: Snapshot, k: int)
    requires Claims(t, u, row, hashes, authorities) && AllPending(t, hashes)
    requires k in t.blocks && BlockInv(s, t, k) && t.blocks[k].status == Finalized
    requires k != row.header.height && k - 1 != row.header.height
    ensures BlockInv(s, u, k)
  {
    hide MembershipInv, FinalityInv;
    forall e | e in EventHashes(t, k) ensures MemberOk(u, k, e) {
      assert MemberOk(t, k, e);
    }
    BlockFrame(s, t, u, k);
  }

  lemma ProposalNewContents(s: Suite, u: Tables, h: int, hashes: seq<Bytes>, authorities: Snapshot)
    requires h in u.blocks && RowFits(u.blocks[h], hashes, authorities)
    requires RowCommits(s, u.blocks[h], hashes, authorities)
    requires EventHashes(u, h) == hashes && SnapshotAt(u, h) == authorities
    requires Signatures(u, h) == map[]
    requires forall e :: e in hashes ==> e in u.events && u.events[e].blockHeight == Some(h)
    ensures ContentsOk(s, u, h)
  {
  }

  lemma ReadBack(u: Tables, h: int, hashes: seq<Bytes>, authorities: Snapshot)
    requires InIdOrder(authorities)
    requires Slots(u, h) == WithSlots(map[], hashes)
    requires Members(u, h) == WithMembers(map[], authorities)
    ensures EventHashes(u, h) == hashes && SnapshotAt(u, h) == authorities
  {
    HashesOfSlots(u, h, hashes);
    ByIdOfMembers(authorities);
  }

  lemma ProposalNewMembership(u: Tables, h: int, hashes: seq<Bytes>, authorities: Snapshot)
    requires h in u.blocks && RowFits(u.blocks[h], hashes, authorities) && SnapshotReady(authorities)
    requires Slots(u, h) == WithSlots(map[], hashes)
    requires Members(u, h) == WithMembers(map[], authorities)
    ensures MembershipInv(u, h)
  {
    ByIdOfMembers(authorities);
    forall id | id in Members(u, h) ensures |Members(u, h)[id]| == 32 {
      WithMembersValues(authorities, id);
    }
  }

  lemma ProposalNewFinality(u: Tables, h: int, hashes: seq<Bytes>, authorities: Snapshot)
    requires h in u.blocks && RowFits(u.blocks[h], hashes, authorities)
    requires Signatures(u, h) == map[] && |u.blocks| == h
    ensures FinalityInv(u, h)
  {
  }

  lemma ProposalNewBlock(s: Suite, u: Tables, h: int, hashes: seq<Bytes>, authorities: Snapshot)
    requires h in u.blocks && RowFits(u.blocks[h], hashes, authorities)
    requires RowCommits(s, u.blocks[h], hashes, authorities) && SnapshotReady(authorities)
    requires Slots(u, h) == WithSlots(map[], hashes)
    requires Members(u, h) == WithMembers(map[], authorities)
    requires Signatures(u, h) == map[] && |u.blocks| == h
    requires u.blocks[h].header.previousHash == PreviousHashAt(u, h)
    requires forall e :: e in hashes ==> e in u.events && u.events[e].blockHeight == Some(h)
    ensures BlockInv(s, u, h)
  {
    ReadBack(u, h, hashes, authorities);
    ProposalNewContents(s, u, h, hashes, authorities);
    ProposalNewMembership(u, h, hashes, authorities);
    ProposalNewFinality(u, h, hashes, authorities);
  }

  lemma NextHeight(t: Tables, u: Tables, row: BlockRow)
    requires HeightsOk(t) && row.header.height == |t.blocks| + 1
    requires u.blocks == t.blocks[row.header.height := row]
    ensures HeightsOk(u) && |u.blocks| == row.header.height
  {
    var n := |t.blocks|;
    assert n + 1 !in t.blocks;
    assert |u.blocks| == n + 1;
    forall h ensures h in u.blocks <==> 1 <= h <= n + 1 {
    }
  }

  lemma ProposalEvents(s: Suite, t: Tables, u: Tables, row: BlockRow, hashes: seq<Bytes>, authorities: Snapshot)
    requires Inv(s, t) && Claims(t, u, row, hashes, authorities) && AllPending(t, hashes) && row.status == Proposed
    ensures forall e :: e in u.events ==> EventInv(s, u, e)
  {
    forall e | e in u.events ensures EventInv(s, u, e) {
      assert EventInv(s, t, e);
      ProposalEvent(s, t, u, row, hashes, authorities, e);
    }
  }

  lemma ProposalRest(s: Suite, t: Tables, u: Tables, row: BlockRow, hashes: seq<Bytes>, authorities: Snapshot)
    requires Inv(s, t) && Claims(t, u, row, hashes, authorities)
    ensures forall d :: d in u.devices ==> DeviceInv(u, d)
    ensures forall a :: a in u.authorities ==> AuthorityInv(u, a)
  {
    forall d | d in u.devices ensures DeviceInv(u, d) {
      assert DeviceInv(t, d);
    }
    forall a | a in u.authorities ensures AuthorityInv(u, a) {
      assert AuthorityInv(t, a);
    }
  }

  lemma ProposalLatestBlock(s: Suite, t: Tables, u: Tables, row: BlockRow, hashes: seq<Bytes>, authorities: Snapshot)
    requires Claims(t, u, row, hashes, authorities) && AllPending(t, hashes)
    requires RowFits(row, hashes, authorities) && RowCommits(s, row, hashes, authorities) && SnapshotReady(authorities)
    requires row.header.height == |u.blocks| && row.header.previousHash == PreviousHashAt(t, row.header.height)
    ensures BlockInv(s, u, row.header.height)
  {
    assert PreviousHashAt(u, row.header.height) == PreviousHashAt(t, row.header.height);
    ProposalNewBlock(s, u, row.header.height, hashes, authorities);
  }

  lemma ProposalBlocks(s: Suite, t: Tables, u: Tables, row: BlockRow, hashes: seq<Bytes>, authorities: Snapshot)
    requires Inv(s, t) && Claims(t, u, row, hashes, authorities) && AllPending(t, hashes)
    requires RowFits(row, hashes, authorities) && RowCommits(s, row, hashes, authorities) && SnapshotReady(authorities)
    requires row.header.height == |t.blocks| + 1 == |u.blocks|
    requires row.header.previousHash == PreviousHashAt(t, row.header.height)
    requires forall h :: h in t.blocks ==> t.blocks[h].status == Finalized
    ensures forall h :: h in u.blocks ==> BlockInv(s, u, h)
  {
    ProposalLatestBlock(s, t, u, row, hashes, authorities);
    forall h | h in u.blocks ensures BlockInv(s, u, h) {
      if h != row.header.height {
        assert BlockInv(s, t, h);
        ProposalOldBlock(s, t, u, row, hashes, authorities, h);
      }
    }
  }

  lemma ClaimsKeepInv(s: Suite, t: Tables, u: Tables, row: BlockRow, hashes: seq<Bytes>, authorities: Snapshot)
    requires Inv(s, t) && Claims(t, u, row, hashes, authorities) && AllPending(t, hashes) && ChildrenInv(u)
    requires !SlotConflict(t, row.header.height, hashes) && !BlockConflict(t, row)
    requires RowFits(row, hashes, authorities) && RowCommits(s, row, hashes, authorities) && SnapshotReady(authorities)
    requires row.header.height == |t.blocks| + 1 && row.header.previousHash == PreviousHashAt(t, row.header.height)
    requires forall h :: h in t.blocks ==> t.blocks[h].status == Finalized
    ensures Inv(s, u)
  {
    ProposalKeyed(t, u, row, hashes, authorities);
    NextHeight(t, u, row);
    ProposalEvents(s, t, u, row, hashes, authorities);
    ProposalRest(s, t, u, row, hashes, authorities);
    ProposalBlocks(s, t, u, row, hashes, authorities);
  }

  lemma CreateProposalKeepsInv(s: Suite, t: Tables, u: Tables, row: BlockRow, hashes: seq<Bytes>, authorities: Snapshot)
    requires Inv(s, t) && ProposalReady(s, t, row, hashes, authorities)
    requires CreateProposal(t, row, hashes, authorities) == Ok(u)
    ensures Inv(s, u)
  {
    ProposalPending(t, u, row, hashes, authorities);
    ProposalEffect(t, u, row, hashes, authorities);
    ProposalExtendsChain(t, row, hashes, authorities);
    ClaimsKeepInv(s, t, u, row, hashes, authorities);
  }
}
