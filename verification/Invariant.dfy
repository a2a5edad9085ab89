/** What every transaction of the gateway keeps, and that it implies a clean audit. */
module Invariant {
  import opened Primitives
  import opened Models
  import opened Store
  import opened Audit

  /** A device row records the sequence and hash of the head of its chain. */
  ghost predicate DeviceInv(t: Tables, d: string)
    requires d in t.devices
  {
    var row := t.devices[d];
    && row.status == Active
    && row.lastSequence >= 0
    && (row.lastSequence == 0 ==> row.lastEventHash == ZERO_HASH)
    && (row.lastSequence > 0 ==> row.lastEventHash in t.events)
    && (row.lastSequence > 0 ==> EventKey(t, row.lastEventHash) == (d, row.lastSequence))
  }

  ghost predicate AuthorityInv(t: Tables, a: string)
    requires a in t.authorities
  {
    t.authorities[a].active && |t.authorities[a].publicKey| == 32
  }

  /** An event is in no block and not final, or a member of one block and final exactly when that block is. */
  ghost predicate PlacementInv(t: Tables, e: Bytes)
    requires e in t.events
  {
    match t.events[e].blockHeight
    case None => !t.events[e].finalized && !Taken(t, e)
    case Some(h) =>
      && h in t.blocks
      && (exists p :: Occupies(t, h, p, e))
      && (t.events[e].finalized <==> t.blocks[h].status == Finalized)
  }

  ghost predicate EventInv(s: Suite, t: Tables, e: Bytes)
    requires e in t.events
  {
    && EventOk(s, t, e)
    && t.events[e].sequence <= t.devices[t.events[e].deviceId].lastSequence
    && PlacementInv(t, e)
  }

  /** Finality: a block is final exactly when its threshold of members has signed, and then has a time. */
  ghost predicate FinalityInv(t: Tables, h: int)
    requires h in t.blocks
  {
    var b := t.blocks[h];
    && b.header.quorumThreshold >= 1
    && (b.status == Finalized <==> |Signatures(t, h)| >= b.header.quorumThreshold)
    && (b.status == Finalized <==> b.finalizedAtMs.Some?)
    && (h < |t.blocks| ==> b.status == Finalized)
  }

  ghost predicate MembershipInv(t: Tables, h: int)
    requires h in t.blocks
  {
    && t.blocks[h].header.eventCount >= 1
    && (forall p :: p in Slots(t, h) <==> 0 <= p < t.blocks[h].header.eventCount)
    && |Members(t, h)| >= t.blocks[h].header.quorumThreshold
    && (forall id :: id in Members(t, h) ==> |Members(t, h)[id]| == 32)
  }

  ghost predicate BlockInv(s: Suite, t: Tables, h: int)
    requires h in t.blocks
  {
    && ContentsOk(s, t, h)
    && t.blocks[h].header.previousHash == PreviousHashAt(t, h)
    && FinalityInv(t, h)
    && MembershipInv(t, h)
  }

  /** The child tables hold rows of existing blocks only. */
  ghost predicate ChildrenInv(t: Tables) {
    && (forall h :: h in t.blockEvents <==> h in t.blocks)
    && (forall h :: h in t.blockAuthorities <==> h in t.blocks)
    && (forall h :: h in t.blockSignatures <==> h in t.blocks)
  }

  ghost predicate Inv(s: Suite, t: Tables) {
    && Keyed(t)
    && HeightsOk(t)
    && ChildrenInv(t)
    && (forall d {:trigger DeviceInv(t, d)} :: d in t.devices ==> DeviceInv(t, d))
    && (forall a {:trigger AuthorityInv(t, a)} :: a in t.authorities ==> AuthorityInv(t, a))
    && (forall e {:trigger EventInv(s, t, e)} :: e in t.events ==> EventInv(s, t, e))
    && (forall h {:trigger BlockInv(s, t, h)} :: h in t.blocks ==> BlockInv(s, t, h))
  }

  lemma EmptyInv(s: Suite)
    ensures Inv(s, EMPTY)
  {
  }

  lemma InvCheckpoint(s: Suite, t: Tables, d: string)
    requires Inv(s, t) && d in t.devices
    ensures CheckpointOk(t, d)
  {
    assert DeviceInv(t, d);
    forall e | e in t.events && t.events[e].deviceId == d
      ensures 1 <= t.events[e].sequence <= t.devices[d].lastSequence
    {
      assert EventInv(s, t, e);
    }
  }

  /** The invariant implies everything the audit checks. */
  lemma InvIsWellFormed(s: Suite, t: Tables)
    requires Inv(s, t)
    ensures WellFormed(s, t)
  {
    forall h | h in t.blocks ensures BlockOk(s, t, h) {
      assert BlockInv(s, t, h);
    }
    forall e | e in t.events ensures EventOk(s, t, e) && MappingOk(t, e) {
      assert EventInv(s, t, e);
    }
    forall d | d in t.devices ensures CheckpointOk(t, d) {
      InvCheckpoint(s, t, d);
    }
  }

  // ---------------------------------------------------------------------------
  // Enrolment
  // ---------------------------------------------------------------------------

  lemma EventOkFrame(s: Suite, t: Tables, u: Tables, e: Bytes)
    requires e in t.events && e in u.events && EventOk(s, t, e)
    requires forall d :: d in t.devices ==> d in u.devices && u.devices[d].publicKey == t.devices[d].publicKey
    requires forall f :: f in t.events ==> f in u.events && EventKey(u, f) == EventKey(t, f)
    requires u.events[e] == t.events[e].(blockHeight := u.events[e].blockHeight, finalized := u.events[e].finalized)
    ensures EventOk(s, u, e)
  {
  }

  lemma ContentsFrame(s: Suite, t: Tables, u: Tables, h: int)
    requires h in t.blocks && h in u.blocks && ContentsOk(s, t, h)
    requires u.blocks[h].header == t.blocks[h].header && u.blocks[h].blockHash == t.blocks[h].blockHash
    requires Slots(u, h) == Slots(t, h) && Members(u, h) == Members(t, h)
    requires forall e :: e in EventHashes(t, h) ==> MemberOk(u, h, e)
    requires forall id :: id in Signatures(u, h) ==> SignatureOk(s, u, h, id)
    ensures ContentsOk(s, u, h)
  {
    assert EventHashes(u, h) == EventHashes(t, h);
    assert SnapshotAt(u, h) == SnapshotAt(t, h);
  }

  /** Nothing about block h, its members or its children changed. */
  lemma BlockFrame(s: Suite, t: Tables, u: Tables, h: int)
    requires h in t.blocks && h in u.blocks && BlockInv(s, t, h)
    requires u.blocks[h] == t.blocks[h] && PreviousHashAt(u, h) == PreviousHashAt(t, h)
    requires Slots(u, h) == Slots(t, h) && Members(u, h) == Members(t, h) && Signatures(u, h) == Signatures(t, h)
    requires forall e :: e in EventHashes(t, h) ==> MemberOk(u, h, e)
    requires h < |u.blocks| ==> u.blocks[h].status == Finalized
    ensures BlockInv(s, u, h)
  {
    forall id | id in Signatures(u, h) ensures SignatureOk(s, u, h, id) {
      assert SignatureOk(s, t, h, id);
    }
    ContentsFrame(s, t, u, h);
  }

  lemma RegisterDeviceKeepsInv(s: Suite, t: Tables, id: string, publicKey: Bytes, keyId: string, now: int)
    requires Inv(s, t) && RegisterDevice(t, id, publicKey, keyId, now).Ok?
    ensures Inv(s, RegisterDevice(t, id, publicKey, keyId, now).value.0)
  {
    var u := RegisterDevice(t, id, publicKey, keyId, now).value.0;
    if id !in t.devices {
      forall d | d in u.devices ensures DeviceInv(u, d) {
        if d != id {
          assert DeviceInv(t, d);
        }
      }
      forall a | a in u.authorities ensures AuthorityInv(u, a) {
        assert AuthorityInv(t, a);
      }
      SameEventsAndBlocks(s, t, u);
    }
  }

  lemma RegisterAuthorityKeepsInv(s: Suite, t: Tables, id: string, publicKey: Bytes, keyId: string, now: int)
    requires Inv(s, t) && |publicKey| == 32 && RegisterAuthority(t, id, publicKey, keyId, now).Ok?
    ensures Inv(s, RegisterAuthority(t, id, publicKey, keyId, now).value.0)
  {
    var u := RegisterAuthority(t, id, publicKey, keyId, now).value.0;
    if id !in t.authorities {
      forall a | a in u.authorities ensures AuthorityInv(u, a) {
        if a != id {
          assert AuthorityInv(t, a);
        }
      }
      forall d | d in u.devices ensures DeviceInv(u, d) {
        assert DeviceInv(t, d);
      }
      SameEventsAndBlocks(s, t, u);
    }
  }

  lemma KeyedFrame(t: Tables, u: Tables)
    requires Keyed(t) && u.blockEvents == t.blockEvents && u.blocks == t.blocks && u.events == t.events
    ensures Keyed(u)
  {
    forall h, p, k, q, e | Occupies(u, h, p, e) && Occupies(u, k, q, e) ensures h == k && p == q {
      assert Occupies(t, h, p, e) && Occupies(t, k, q, e);
    }
    forall e, f | e in u.events && f in u.events && EventKey(u, e) == EventKey(u, f) ensures e == f {
      assert EventKey(t, e) == EventKey(t, f);
    }
  }

  lemma SamePlacement(t: Tables, u: Tables, e: Bytes)
    requires e in t.events && e in u.events && PlacementInv(t, e)
    requires u.blockEvents == t.blockEvents && u.blocks == t.blocks
    requires u.events[e].blockHeight == t.events[e].blockHeight && u.events[e].finalized == t.events[e].finalized
    ensures PlacementInv(u, e)
  {
    match t.events[e].blockHeight
    case None =>
      forall h, p ensures !Occupies(u, h, p, e) {
        if Occupies(u, h, p, e) {
          assert Occupies(t, h, p, e);
        }
      }
    case Some(h) =>
      var p :| Occupies(t, h, p, e);
      assert Occupies(u, h, p, e);
  }

  lemma SameEvent(s: Suite, t: Tables, u: Tables, e: Bytes)
    requires u == t.(devices := u.devices, authorities := u.authorities) && e in t.events && EventInv(s, t, e)
    requires forall d :: d in t.devices ==> d in u.devices && u.devices[d] == t.devices[d]
    ensures EventInv(s, u, e)
  {
    EventOkFrame(s, t, u, e);
    SamePlacement(t, u, e);
  }

  lemma SameEventsAndBlocks(s: Suite, t: Tables, u: Tables)
    requires Inv(s, t)
    requires u == t.(devices := u.devices, authorities := u.authorities)
    requires forall d :: d in t.devices ==> d in u.devices && u.devices[d] == t.devices[d]
    requires forall d :: d in u.devices ==> DeviceInv(u, d)
    requires forall a :: a in u.authorities ==> AuthorityInv(u, a)
    ensures Inv(s, u)
  {
    hide EventInv, BlockInv, DeviceInv, AuthorityInv, PlacementInv, EventOk;
    KeyedFrame(t, u);
    forall e | e in u.events ensures EventInv(s, u, e) {
      assert EventInv(s, t, e);
      SameEvent(s, t, u, e);
    }
    forall h | h in u.blocks ensures BlockInv(s, u, h) {
      assert BlockInv(s, t, h);
      UntouchedBlock(s, t, u, h);
    }
  }

  lemma UntouchedBlock(s: Suite, t: Tables, u: Tables, h: int)
    requires h in t.blocks && BlockInv(s, t, h)
    requires u.blocks == t.blocks && u.blockEvents == t.blockEvents
    requires u.blockAuthorities == t.blockAuthorities && u.blockSignatures == t.blockSignatures
    requires forall e :: e in t.events ==> e in u.events && u.events[e] == t.events[e]
    ensures BlockInv(s, u, h)
  {
    hide MemberOk, MembershipInv;
    UntouchedMembers(s, t, u, h);
    assert FinalityInv(t, h);
    BlockFrame(s, t, u, h);
  }

  lemma UntouchedMembers(s: Suite, t: Tables, u: Tables, h: int)
    requires h in t.blocks && ContentsOk(s, t, h) && u.blocks == t.blocks
    requires forall e :: e in t.events ==> e in u.events && u.events[e] == t.events[e]
    ensures forall e :: e in EventHashes(t, h) ==> MemberOk(u, h, e)
  {
    forall e | e in EventHashes(t, h) ensures MemberOk(u, h, e) {
      assert MemberOk(t, h, e);
    }
  }

  // ---------------------------------------------------------------------------
  // Accepting an event
  // ---------------------------------------------------------------------------

  /** What has been checked of an event before its transaction starts. */
  ghost predicate EventReady(s: Suite, t: Tables, e: SignedEvent, payload: Bytes) {
    && Encodable(e)
    && payload == s.encode(Map(e.payload))
    && e.sequence >= 1
    && e.deviceId in t.devices
    && s.verify(t.devices[e.deviceId].publicKey, e.signature, SigningBytes(s, e))
  }

  lemma SigningBytesAreCanonical(s: Suite, e: SignedEvent)
    requires Lawful(s) && Encodable(e)
    ensures Canonical(s, SigningBytes(s, e), e.deviceId, e.sequence, s.encode(Map(e.payload)))
  {
    UnsignedMapSupported(e);
    LoadsInvertsDumps(s, UnsignedMap(e), SigningBytes(s, e));
    UnsignedTextFields(e);
  }

  lemma NewEventNotTaken(s: Suite, t: Tables, u: Tables, e: Bytes)
    requires Inv(s, t) && e !in t.events && u.blockEvents == t.blockEvents
    ensures !Taken(u, e)
  {
    forall h, p ensures !Occupies(u, h, p, e) {
      if h in t.blocks {
        assert BlockInv(s, t, h);
        assert !MemberOk(t, h, e);
        MemberIffOccupies(t, h, e);
        assert !Occupies(t, h, p, e);
      }
    }
  }

  lemma NewEventLinked(s: Suite, t: Tables, e: SignedEvent, payload: Bytes, now: int)
    requires EventReady(s, t, e, payload) && EventHash(s, e) !in t.events
    requires DeviceInv(t, e.deviceId)
    requires e.sequence == t.devices[e.deviceId].lastSequence + 1
    requires e.previousEventHash == t.devices[e.deviceId].lastEventHash
    ensures Linked(EventTables(s, t, e, payload, now), EventHash(s, e))
  {
  }

  lemma NewEventAuthentic(s: Suite, t: Tables, e: SignedEvent, payload: Bytes, now: int)
    requires Lawful(s) && EventReady(s, t, e, payload)
    ensures Authentic(s, EventTables(s, t, e, payload, now), EventHash(s, e))
  {
    SigningBytesAreCanonical(s, e);
  }

  lemma NewEventInv(s: Suite, t: Tables, e: SignedEvent, payload: Bytes, now: int)
    requires Lawful(s) && Inv(s, t) && EventReady(s, t, e, payload)
    requires EventHash(s, e) !in t.events
    requires e.sequence == t.devices[e.deviceId].lastSequence + 1
    requires e.previousEventHash == t.devices[e.deviceId].lastEventHash
    ensures EventInv(s, EventTables(s, t, e, payload, now), EventHash(s, e))
  {
    assert DeviceInv(t, e.deviceId);
    NewEventLinked(s, t, e, payload, now);
    NewEventAuthentic(s, t, e, payload, now);
    NewEventNotTaken(s, t, EventTables(s, t, e, payload, now), EventHash(s, e));
  }

  lemma InsertEventKeyed(s: Suite, t: Tables, e: SignedEvent, payload: Bytes, now: int)
    requires Keyed(t) && InsertEvent(s, t, e, payload, now).Ok?
    ensures Keyed(InsertEvent(s, t, e, payload, now).value.0)
  {
    var u := InsertEvent(s, t, e, payload, now).value.0;
    forall h, p, k, q, f | Occupies(u, h, p, f) && Occupies(u, k, q, f) ensures h == k && p == q {
      assert Occupies(t, h, p, f) && Occupies(t, k, q, f);
    }
    forall f, g | f in u.events && g in u.events && EventKey(u, f) == EventKey(u, g) ensures f == g {
      assert f in t.events ==> EventKey(t, f) == EventKey(u, f);
      assert g in t.events ==> EventKey(t, g) == EventKey(u, g);
    }
  }

  /** One event was added and its device's checkpoint moved. */
  predicate Appended(t: Tables, u: Tables, d: string, e: Bytes) {
    && e !in t.events && e in u.events && d in t.devices && d in u.devices
    && u == t.(events := t.events[e := u.events[e]], devices := t.devices[d := u.devices[d]])
    && u.devices[d].publicKey == t.devices[d].publicKey
    && u.devices[d].lastSequence >= t.devices[d].lastSequence
  }

  lemma OldEventInv(s: Suite, t: Tables, u: Tables, d: string, e: Bytes, f: Bytes)
    requires Appended(t, u, d, e) && f in t.events && EventInv(s, t, f)
    ensures EventInv(s, u, f)
  {
    forall g | g in t.events ensures g in u.events && EventKey(u, g) == EventKey(t, g) {}
    EventOkFrame(s, t, u, f);
    SamePlacement(t, u, f);
  }

  lemma AppendedEvents(s: Suite, t: Tables, u: Tables, d: string, e: Bytes)
    requires Inv(s, t) && Appended(t, u, d, e) && EventInv(s, u, e)
    ensures forall f :: f in u.events ==> EventInv(s, u, f)
  {
    forall f | f in u.events ensures EventInv(s, u, f) {
      if f != e {
        assert EventInv(s, t, f);
        OldEventInv(s, t, u, d, e, f);
      }
    }
  }

  lemma AppendedBlocks(s: Suite, t: Tables, u: Tables, d: string, e: Bytes)
    requires Inv(s, t) && Appended(t, u, d, e)
    ensures forall h :: h in u.blocks ==> BlockInv(s, u, h)
  {
    hide EventInv, BlockInv, DeviceInv, AuthorityInv;
    forall h | h in u.blocks ensures BlockInv(s, u, h) {
      assert BlockInv(s, t, h);
      UntouchedBlock(s, t, u, h);
    }
  }

  lemma AppendedRegistry(s: Suite, t: Tables, u: Tables, d: string, e: Bytes)
    requires Inv(s, t) && Appended(t, u, d, e) && DeviceInv(u, d)
    ensures forall c :: c in u.devices ==> DeviceInv(u, c)
    ensures forall a :: a in u.authorities ==> AuthorityInv(u, a)
  {
    forall c | c in u.devices ensures DeviceInv(u, c) {
      assert DeviceInv(t, c);
    }
    forall a | a in u.authorities ensures AuthorityInv(u, a) {
      assert AuthorityInv(t, a);
    }
  }

  lemma AppendedChildren(t: Tables, u: Tables, d: string, e: Bytes)
    requires HeightsOk(t) && ChildrenInv(t) && Appended(t, u, d, e)
    ensures HeightsOk(u) && ChildrenInv(u)
  {
  }

  lemma AppendedKeepsInv(s: Suite, t: Tables, u: Tables, d: string, e: Bytes)
    requires Inv(s, t) && Appended(t, u, d, e)
    requires Keyed(u) && EventInv(s, u, e) && DeviceInv(u, d)
    ensures Inv(s, u)
  {
    AppendedChildren(t, u, d, e);
    AppendedRegistry(s, t, u, d, e);
    AppendedEvents(s, t, u, d, e);
    AppendedBlocks(s, t, u, d, e);
  }

  lemma InsertEventKeepsInv(s: Suite, t: Tables, e: SignedEvent, payload: Bytes, now: int)
    requires Lawful(s) && Inv(s, t) && EventReady(s, t, e, payload) && InsertEvent(s, t, e, payload, now).Ok?
    ensures Inv(s, InsertEvent(s, t, e, payload, now).value.0)
  {
    var u := InsertEvent(s, t, e, payload, now).value.0;
    if EventHash(s, e) !in t.events {
      InsertEventKeyed(s, t, e, payload, now);
      NewEventInv(s, t, e, payload, now);
      assert DeviceInv(t, e.deviceId);
      AppendedKeepsInv(s, t, u, e.deviceId, EventHash(s, e));
    }
  }
}
