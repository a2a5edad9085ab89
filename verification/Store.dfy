/** The gateway's tables, their key constraints, and what each transaction does to them. */
module Store {
  import opened Primitives
  import opened Ordering
  import opened Models

  datatype DeviceStatus = Active | Revoked

  datatype DeviceRow = DeviceRow(
    publicKey: Bytes, keyId: string, status: DeviceStatus,
    lastSequence: int, lastEventHash: Bytes, enrolledAtMs: int)

  datatype AuthorityRow = AuthorityRow(publicKey: Bytes, keyId: string, active: bool, enrolledAtMs: int)

  datatype EventRow = EventRow(
    deviceId: string, sequence: int, deviceTimeMs: int, eventType: string,
    payload: Bytes, previousEventHash: Bytes, signature: Bytes, unsigned: Bytes,
    receivedAtMs: int, blockHeight: Option<int>, finalized: bool)

  datatype BlockStatus = Proposed | Finalized

  datatype BlockRow = BlockRow(blockHash: Bytes, header: BlockHeader, status: BlockStatus, finalizedAtMs: Option<int>)

  datatype SignatureRow = SignatureRow(signature: Bytes, signedAtMs: int)

  /** One map per table, from primary key to row; the three child tables are grouped by block. */
  datatype Tables = Tables(
    devices: map<string, DeviceRow>,
    authorities: map<string, AuthorityRow>,
    events: map<Bytes, EventRow>,
    blocks: map<int, BlockRow>,
    blockEvents: map<int, map<int, Bytes>>,
    blockAuthorities: map<int, map<string, Bytes>>,
    blockSignatures: map<int, map<string, SignatureRow>>)

  const EMPTY: Tables := Tables(map[], map[], map[], map[], map[], map[], map[])

  function Under<K, V>(table: map<int, map<K, V>>, height: int): map<K, V> {
    if height in table then table[height] else map[]
  }

  function Slots(t: Tables, height: int): map<int, Bytes> { Under(t.blockEvents, height) }

  function Members(t: Tables, height: int): map<string, Bytes> { Under(t.blockAuthorities, height) }

  function Signatures(t: Tables, height: int): map<string, SignatureRow> { Under(t.blockSignatures, height) }

  predicate Occupies(t: Tables, h: int, p: int, e: Bytes) {
    p in Slots(t, h) && Slots(t, h)[p] == e
  }

  /** The event hash has a row in the membership table. */
  ghost predicate Taken(t: Tables, e: Bytes) { exists h, p :: Occupies(t, h, p, e) }

  /** The PRIMARY KEY and UNIQUE constraints, which SQLite enforces on every database file. */
  ghost predicate Keyed(t: Tables) {
    && (forall h :: h in t.blocks ==> t.blocks[h].header.height == h)
    && (forall h, k :: h in t.blocks && k in t.blocks && t.blocks[h].blockHash == t.blocks[k].blockHash ==> h == k)
    && (forall e, f :: e in t.events && f in t.events && EventKey(t, e) == EventKey(t, f) ==> e == f)
    && (forall h, p, k, q, e :: Occupies(t, h, p, e) && Occupies(t, k, q, e) ==> h == k && p == q)
  }

  function EventKey(t: Tables, e: Bytes): (string, int)
    requires e in t.events
  {
    (t.events[e].deviceId, t.events[e].sequence)
  }

  // ---------------------------------------------------------------------------
  // Ordered queries
  // ---------------------------------------------------------------------------

  ghost function Heights(t: Tables): (r: seq<int>)
    ensures Lists(r, t.blocks.Keys, IntLess) && |r| == |t.blocks|
    ensures forall i :: 0 <= i < |r| ==> r[i] in t.blocks
  {
    IntOrder();
    Sorted(t.blocks.Keys, IntLess)
  }

  ghost function Positions(t: Tables, height: int): (r: seq<int>)
    ensures Lists(r, Slots(t, height).Keys, IntLess)
    ensures forall i :: 0 <= i < |r| ==> r[i] in Slots(t, height)
  {
    IntOrder();
    Sorted(Slots(t, height).Keys, IntLess)
  }

  /** The event hashes of a block, in the order of their positions. */
  ghost function EventHashes(t: Tables, height: int): (r: seq<Bytes>)
    ensures |r| == |Positions(t, height)|
    ensures forall i :: 0 <= i < |r| ==> r[i] == Slots(t, height)[Positions(t, height)[i]]
  {
    var ps := Positions(t, height);
    seq(|ps|, i requires 0 <= i < |ps| => Slots(t, height)[ps[i]])
  }

  ghost function IdsInOrder<V>(members: map<string, V>): (r: seq<string>)
    ensures Lists(r, members.Keys, TextLess) && |r| == |members.Keys|
    ensures forall i :: 0 <= i < |r| ==> r[i] in members
  {
    TextOrder();
    Sorted(members.Keys, TextLess)
  }

  ghost function ById(members: map<string, Bytes>): (r: Snapshot)
    ensures |r| == |IdsInOrder(members)|
    ensures forall i :: 0 <= i < |r| ==> r[i] == (IdsInOrder(members)[i], members[IdsInOrder(members)[i]])
  {
    var ids := IdsInOrder(members);
    seq(|ids|, i requires 0 <= i < |ids| => (ids[i], members[ids[i]]))
  }

  /** The authority snapshot stored with a block. */
  ghost function SnapshotAt(t: Tables, height: int): Snapshot { ById(Members(t, height)) }

  function ActiveKeys(t: Tables): map<string, Bytes> {
    map a | a in t.authorities && t.authorities[a].active :: t.authorities[a].publicKey
  }

  /** The authorities a proposer reads. */
  ghost function ActiveAuthorities(t: Tables): Snapshot { ById(ActiveKeys(t)) }

  function PendingArrivals(t: Tables): set<(int, Bytes)> {
    set e | e in t.events && t.events[e].blockHeight.None? :: (t.events[e].receivedAtMs, e)
  }

  function Pending(t: Tables): set<Bytes> {
    set e | e in t.events && t.events[e].blockHeight.None?
  }

  /** LIMIT applied to the pending rows, keeping the event hash column. */
  function FirstHashes(rows: seq<(int, Bytes)>, limit: nat): (r: seq<Bytes>)
    ensures |r| == if limit < |rows| then limit else |rows|
    ensures forall i :: 0 <= i < |r| ==> r[i] == rows[i].1
  {
    seq(if limit < |rows| then limit else |rows|, i requires 0 <= i < |rows| => rows[i].1)
  }

  /** The pending events a proposer selects: oldest arrivals first, at most `limit`. */
  ghost function Selection(t: Tables, limit: nat): (r: seq<Bytes>)
    ensures |r| == if limit < |PendingArrivals(t)| then limit else |PendingArrivals(t)|
    ensures forall i :: 0 <= i < |r| ==> r[i] in Pending(t)
    ensures forall i, j :: 0 <= i < j < |r| ==> r[i] != r[j]
  {
    ArrivalOrder();
    var rows := Sorted(PendingArrivals(t), ArrivalLess);
    ArrivalsDistinct(t, rows);
    FirstHashes(rows, limit)
  }

  /** In the order of arrival, events that arrived together in the order of their hashes. */
  predicate ArrivedBefore(t: Tables, a: Bytes, b: Bytes)
    requires a in t.events && b in t.events
  {
    ArrivalLess((t.events[a].receivedAtMs, a), (t.events[b].receivedAtMs, b))
  }

  /** The order of a block is the order of arrival at the gateway, whatever the devices' own sequences say. */
  lemma SelectionIsOldest(t: Tables, limit: nat, e: Bytes)
    ensures forall i, j :: 0 <= i < j < |Selection(t, limit)| ==> ArrivedBefore(t, Selection(t, limit)[i], Selection(t, limit)[j])
    ensures e in Pending(t) && e !in Selection(t, limit) ==>
              forall i :: 0 <= i < |Selection(t, limit)| ==> ArrivedBefore(t, Selection(t, limit)[i], e)
  {
    ArrivalOrder();
    var rows, selected := Sorted(PendingArrivals(t), ArrivalLess), Selection(t, limit);
    forall i | 0 <= i < |rows| ensures rows[i].1 in Pending(t) && rows[i] == (t.events[rows[i].1].receivedAtMs, rows[i].1) {
      assert rows[i] in PendingArrivals(t);
    }
    assert forall i :: 0 <= i < |selected| ==> selected[i] == rows[i].1;
    if e in Pending(t) && e !in selected {
      assert (t.events[e].receivedAtMs, e) in PendingArrivals(t);
      var j :| 0 <= j < |rows| && rows[j] == (t.events[e].receivedAtMs, e);
      assert j >= |selected|;
    }
  }

  lemma ArrivalsDistinct(t: Tables, rows: seq<(int, Bytes)>)
    requires StrictOrder(ArrivalLess) && Lists(rows, PendingArrivals(t), ArrivalLess)
    ensures forall i :: 0 <= i < |rows| ==> rows[i].1 in Pending(t)
    ensures forall i, j :: 0 <= i < j < |rows| ==> rows[i].1 != rows[j].1
  {
    forall i | 0 <= i < |rows| ensures rows[i].1 in Pending(t) && t.events[rows[i].1].receivedAtMs == rows[i].0 {
      assert rows[i] in rows && rows[i] in PendingArrivals(t);
    }
    forall i, j | 0 <= i < j < |rows| ensures rows[i].1 != rows[j].1 {
      assert ArrivalLess(rows[i], rows[j]);
      assert rows[i] != rows[j];
    }
  }

  function HeightsWith(t: Tables, status: BlockStatus): set<int> {
    set h | h in t.blocks && t.blocks[h].status == status
  }

  /** The height of the last finalized block. */
  ghost function LastFinal(t: Tables): (r: Option<int>)
    ensures r.Some? ==> r.value in HeightsWith(t, Finalized)
    ensures forall h :: h in HeightsWith(t, Finalized) ==> r.Some? && h <= r.value
  {
    IntOrder();
    var heights := Sorted(HeightsWith(t, Finalized), IntLess);
    if heights == [] then None else
      assert forall h :: h in heights ==> h <= heights[|heights| - 1];
      Some(heights[|heights| - 1])
  }

  function EventKeys(t: Tables): set<(string, int)> {
    set e | e in t.events :: EventKey(t, e)
  }

  /** All events, ordered by device and sequence. */
  ghost predicate InEventOrder(t: Tables, rows: seq<Bytes>) {
    && (forall i :: 0 <= i < |rows| ==> rows[i] in t.events)
    && (forall e :: e in t.events ==> e in rows)
    && (forall i, j :: 0 <= i < j < |rows| ==> EventKeyLess(EventKey(t, rows[i]), EventKey(t, rows[j])))
  }

  // ---------------------------------------------------------------------------
  // Transactions. An Err is an exception, after which the transaction is rolled back.
  // ---------------------------------------------------------------------------

  datatype StoreError =
    | DeviceKeyConflict | DeviceNotActive | AuthorityKeyConflict | AuthorityNotActive
    | NotEnrolled | HashCollision | BadSequence(expected: int, received: int) | BrokenContinuity
    | AwaitingQuorum | EventsClaimed | IntegrityError
    | NoSuchBlock | NotInSnapshot | PreviousNotFinalized

  function RegisterDevice(t: Tables, id: string, publicKey: Bytes, keyId: string, now: int): Result<(Tables, bool), StoreError> {
    if id in t.devices then
      if t.devices[id].publicKey != publicKey then Err(DeviceKeyConflict)
      else if t.devices[id].status != Active then Err(DeviceNotActive)
      else Ok((t, false))
    else
      Ok((t.(devices := t.devices[id := DeviceRow(publicKey, keyId, Active, 0, ZERO_HASH, now)]), true))
  }

  function RegisterAuthority(t: Tables, id: string, publicKey: Bytes, keyId: string, now: int): Result<(Tables, bool), StoreError> {
    if id in t.authorities then
      if t.authorities[id].publicKey != publicKey then Err(AuthorityKeyConflict)
      else if !t.authorities[id].active then Err(AuthorityNotActive)
      else Ok((t, false))
    else
      Ok((t.(authorities := t.authorities[id := AuthorityRow(publicKey, keyId, true, now)]), true))
  }

  function NewEventRow(s: Suite, e: SignedEvent, payload: Bytes, now: int): EventRow {
    EventRow(e.deviceId, e.sequence, e.deviceTimeMs, e.eventType, payload, e.previousEventHash,
             e.signature, SigningBytes(s, e), now, None, false)
  }

  function EventTables(s: Suite, t: Tables, e: SignedEvent, payload: Bytes, now: int): Tables
    requires e.deviceId in t.devices
  {
    var hash := EventHash(s, e);
    var device := t.devices[e.deviceId];
    t.(events := t.events[hash := NewEventRow(s, e, payload, now)],
       devices := t.devices[e.deviceId := device.(lastSequence := e.sequence, lastEventHash := hash)])
  }

  ghost predicate KeyInUse(t: Tables, key: (string, int)) {
    exists e :: e in t.events && EventKey(t, e) == key
  }

  /** Appends the event to its device's chain; true when it is new, false for an exact replay. */
  ghost function InsertEvent(s: Suite, t: Tables, e: SignedEvent, payload: Bytes, now: int): Result<(Tables, bool), StoreError> {
    var hash := EventHash(s, e);
    if hash in t.events then
      if t.events[hash].unsigned != SigningBytes(s, e) || t.events[hash].signature != e.signature
      then Err(HashCollision)
      else Ok((t, false))
    else if e.deviceId !in t.devices then Err(NotEnrolled)
    else
      var device := t.devices[e.deviceId];
      if device.status != Active then Err(DeviceNotActive)
      else if e.sequence != device.lastSequence + 1 then Err(BadSequence(device.lastSequence + 1, e.sequence))
      else if e.previousEventHash != device.lastEventHash then Err(BrokenContinuity)
      else if KeyInUse(t, (e.deviceId, e.sequence)) then Err(IntegrityError)
      else Ok((EventTables(s, t, e, payload, now), true))
  }

  /** The row holds what the event says, received at this reading and in no block yet. */
  predicate RowOf(s: Suite, row: EventRow, e: SignedEvent, payload: Bytes, now: int) {
    && row.deviceId == e.deviceId && row.sequence == e.sequence && row.previousEventHash == e.previousEventHash
    && row.deviceTimeMs == e.deviceTimeMs && row.eventType == e.eventType && row.payload == payload
    && row.signature == e.signature && row.unsigned == SigningBytes(s, e)
    && row.receivedAtMs == now && row.blockHeight.None? && !row.finalized
  }

  /** The event was added, as the last one of its device, and nothing else happened. */
  predicate Received(s: Suite, t: Tables, u: Tables, e: SignedEvent, payload: Bytes, now: int) {
    var hash := EventHash(s, e);
    && hash !in t.events && hash in u.events && e.deviceId in t.devices && e.deviceId in u.devices
    && u == t.(events := t.events[hash := u.events[hash]], devices := t.devices[e.deviceId := u.devices[e.deviceId]])
    && RowOf(s, u.events[hash], e, payload, now)
    && u.devices[e.deviceId].lastSequence == e.sequence && u.devices[e.deviceId].lastEventHash == hash
    && SameEnrolment(t.devices[e.deviceId], u.devices[e.deviceId])
  }

  predicate SameEnrolment(x: DeviceRow, y: DeviceRow) {
    y.publicKey == x.publicKey && y.keyId == x.keyId && y.status == x.status && y.enrolledAtMs == x.enrolledAtMs
  }

  lemma InsertedIsReceived(s: Suite, t: Tables, e: SignedEvent, payload: Bytes, now: int)
    requires InsertEvent(s, t, e, payload, now).Ok?
    ensures var (u, isNew) := InsertEvent(s, t, e, payload, now).value;
            if isNew then Received(s, t, u, e, payload, now) else u == t && EventHash(s, e) in t.events
  {
  }

  ghost predicate ProposalOpen(t: Tables) {
    exists h :: h in t.blocks && t.blocks[h].status == Proposed
  }

  ghost predicate Repeats<T>(xs: seq<T>) {
    exists i, j :: 0 <= i < j < |xs| && xs[i] == xs[j]
  }

  /** Inserting the membership rows would break a key of the membership table. */
  ghost predicate SlotConflict(t: Tables, height: int, hashes: seq<Bytes>) {
    Repeats(hashes) || exists i :: 0 <= i < |hashes| && (i in Slots(t, height) || Taken(t, hashes[i]))
  }

  function Ids(authorities: Snapshot): (r: seq<string>)
    ensures |r| == |authorities| && forall i :: 0 <= i < |r| ==> r[i] == authorities[i].0
  {
    seq(|authorities|, i requires 0 <= i < |authorities| => authorities[i].0)
  }

  /** Inserting the snapshot rows would break the key of the snapshot table. */
  ghost predicate MemberConflict(t: Tables, height: int, authorities: Snapshot) {
    Repeats(Ids(authorities)) || exists i :: 0 <= i < |authorities| && authorities[i].0 in Members(t, height)
  }

  function Assigned(events: map<Bytes, EventRow>, hashes: seq<Bytes>, height: int): (r: map<Bytes, EventRow>)
    ensures r.Keys == events.Keys
  {
    map e | e in events :: if e in hashes then events[e].(blockHeight := Some(height)) else events[e]
  }

  function WithSlots(slots: map<int, Bytes>, hashes: seq<Bytes>): (r: map<int, Bytes>)
    ensures forall p :: p in r <==> p in slots || 0 <= p < |hashes|
    ensures forall p :: p in r ==> r[p] == if 0 <= p < |hashes| then hashes[p] else slots[p]
  {
    slots + map i | 0 <= i < |hashes| :: hashes[i]
  }

  function WithMembers(members: map<string, Bytes>, authorities: Snapshot): (r: map<string, Bytes>)
    ensures forall id :: id in r <==> id in members || id in Ids(authorities)
  {
    if authorities == [] then members
    else
      var last := |authorities| - 1;
      assert Ids(authorities) == Ids(authorities[..last]) + [authorities[last].0];
      WithMembers(members, authorities[..last])[authorities[last].0 := authorities[last].1]
  }

  function NewBlockRow(s: Suite, header: BlockHeader): BlockRow {
    BlockRow(HeaderHash(s, header), header, Proposed, None)
  }

  function ProposalTables(t: Tables, row: BlockRow, hashes: seq<Bytes>, authorities: Snapshot): Tables {
    var h := row.header.height;
    t.(blocks := t.blocks[h := row],
       events := Assigned(t.events, hashes, h),
       blockEvents := t.blockEvents[h := WithSlots(Slots(t, h), hashes)],
       blockAuthorities := t.blockAuthorities[h := WithMembers(Members(t, h), authorities)],
       blockSignatures := t.blockSignatures[h := Signatures(t, h)])
  }

  ghost predicate BlockConflict(t: Tables, row: BlockRow) {
    row.header.height in t.blocks || exists h :: h in t.blocks && t.blocks[h].blockHash == row.blockHash
  }

  /** Stores a proposed block (the row is `NewBlockRow` of the header), its members and its authority snapshot, and claims the members. */
  ghost function CreateProposal(t: Tables, row: BlockRow, hashes: seq<Bytes>, authorities: Snapshot): Result<Tables, StoreError> {
    var height := row.header.height;
    if ProposalOpen(t) then Err(AwaitingQuorum)
    else if exists i :: 0 <= i < |hashes| && hashes[i] !in Pending(t) then Err(EventsClaimed)
    else if BlockConflict(t, row) || SlotConflict(t, height, hashes) || MemberConflict(t, height, authorities) then Err(IntegrityError)
    else Ok(ProposalTables(t, row, hashes, authorities))
  }

  predicate PreviousFinalized(t: Tables, b: BlockRow) {
    if b.header.height > 1 then
      b.header.height - 1 in t.blocks
      && t.blocks[b.header.height - 1].status == Finalized
      && t.blocks[b.header.height - 1].blockHash == b.header.previousHash
    else b.header.height == 1 && b.header.previousHash == ZERO_HASH
  }

  function FinalizedRow(b: BlockRow, now: int): BlockRow {
    b.(status := Finalized, finalizedAtMs := if b.finalizedAtMs.None? then Some(now) else b.finalizedAtMs)
  }

  function FinalizedEvents(events: map<Bytes, EventRow>, height: int): (r: map<Bytes, EventRow>)
    ensures r.Keys == events.Keys
  {
    map e | e in events :: if events[e].blockHeight == Some(height) then events[e].(finalized := true) else events[e]
  }

  function WithSignature(signatures: map<string, SignatureRow>, id: string, row: SignatureRow): map<string, SignatureRow> {
    if id in signatures then signatures else signatures[id := row]
  }

  /** Stores a block signature and finalizes the block when the threshold is reached. */
  function InsertSignature(t: Tables, height: int, id: string, signature: Bytes, now: int): Result<(Tables, BlockStatus), StoreError> {
    if height !in t.blocks then Err(NoSuchBlock)
    else
      var b := t.blocks[height];
      if b.status == Finalized && id in Signatures(t, height) then Ok((t, Finalized))
      else if id !in Members(t, height) then Err(NotInSnapshot)
      else
        var signatures := WithSignature(Signatures(t, height), id, SignatureRow(signature, now));
        var signed := t.(blockSignatures := t.blockSignatures[height := signatures]);
        if |signatures| < b.header.quorumThreshold then Ok((signed, b.status))
        else if !PreviousFinalized(t, b) then Err(PreviousNotFinalized)
        else Ok((signed.(blocks := t.blocks[height := FinalizedRow(b, now)],
                         events := FinalizedEvents(t.events, height)), Finalized))
  }
}
