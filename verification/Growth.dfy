/** The database only grows: what a transaction stored, later transactions never take back. */
module Growth {
  import opened Primitives
  import opened Models
  import opened Store
  import opened Invariant
  import opened Proposal
  import opened Signing

  /** A stored event keeps its content, its block once it has one, and its finality. */
  predicate EventKept(t: Tables, u: Tables, e: Bytes)
    requires e in t.events
  {
    && e in u.events
    && u.events[e] == t.events[e].(blockHeight := u.events[e].blockHeight, finalized := u.events[e].finalized)
    && (t.events[e].blockHeight.Some? ==> u.events[e].blockHeight == t.events[e].blockHeight)
    && (t.events[e].finalized ==> u.events[e].finalized)
  }

  predicate SignatureKept(t: Tables, u: Tables, h: int, id: string)
    requires id in Signatures(t, h)
  {
    id in Signatures(u, h) && Signatures(u, h)[id] == Signatures(t, h)[id]
  }

  /** A stored block keeps its header, members, snapshot and signatures; a final one also its time. */
  ghost predicate BlockKept(t: Tables, u: Tables, h: int)
    requires h in t.blocks
  {
    && h in u.blocks
    && u.blocks[h].header == t.blocks[h].header && u.blocks[h].blockHash == t.blocks[h].blockHash
    && Slots(u, h) == Slots(t, h) && Members(u, h) == Members(t, h)
    && (forall id {:trigger SignatureKept(t, u, h, id)} :: id in Signatures(t, h) ==> SignatureKept(t, u, h, id))
    && (t.blocks[h].status == Finalized ==> u.blocks[h] == t.blocks[h])
  }

  predicate DeviceKept(t: Tables, u: Tables, d: string)
    requires d in t.devices
  {
    && d in u.devices
    && u.devices[d].publicKey == t.devices[d].publicKey && u.devices[d].status == t.devices[d].status
    && u.devices[d].lastSequence >= t.devices[d].lastSequence
  }

  ghost predicate Extends(t: Tables, u: Tables) {
    && (forall d {:trigger DeviceKept(t, u, d)} :: d in t.devices ==> DeviceKept(t, u, d))
    && (forall a :: a in t.authorities ==> a in u.authorities && u.authorities[a] == t.authorities[a])
    && (forall e {:trigger EventKept(t, u, e)} :: e in t.events ==> EventKept(t, u, e))
    && (forall h {:trigger BlockKept(t, u, h)} :: h in t.blocks ==> BlockKept(t, u, h))
  }

  /** No device and no event came or went, and no checkpoint moved. */
  predicate SameChains(t: Tables, u: Tables) { u.devices == t.devices && u.events.Keys == t.events.Keys }

  lemma ProposalKeepsChains(t: Tables, row: BlockRow, hashes: seq<Bytes>, authorities: Snapshot)
    requires CreateProposal(t, row, hashes, authorities).Ok?
    ensures SameChains(t, CreateProposal(t, row, hashes, authorities).value)
  {
  }

  lemma SignatureKeepsChains(t: Tables, h: int, id: string, signature: Bytes, now: int)
    requires InsertSignature(t, h, id, signature, now).Ok?
    ensures SameChains(t, InsertSignature(t, h, id, signature, now).value.0)
  {
  }

  lemma ExtendsSelf(t: Tables)
    ensures Extends(t, t)
  {
  }

  lemma BlockKeptTransitive(t: Tables, u: Tables, v: Tables, h: int)
    requires h in t.blocks && BlockKept(t, u, h) && BlockKept(u, v, h)
    ensures BlockKept(t, v, h)
  {
    forall id | id in Signatures(t, h) ensures SignatureKept(t, v, h, id) {
      assert SignatureKept(t, u, h, id) && SignatureKept(u, v, h, id);
    }
  }

  lemma ExtendsTransitive(t: Tables, u: Tables, v: Tables)
    requires Extends(t, u) && Extends(u, v)
    ensures Extends(t, v)
  {
    forall d | d in t.devices ensures DeviceKept(t, v, d) {
      assert DeviceKept(t, u, d) && DeviceKept(u, v, d);
    }
    forall e | e in t.events ensures EventKept(t, v, e) {
      assert EventKept(t, u, e) && EventKept(u, v, e);
    }
    forall h | h in t.blocks ensures BlockKept(t, v, h) {
      assert BlockKept(t, u, h) && BlockKept(u, v, h);
      BlockKeptTransitive(t, u, v, h);
    }
  }

  lemma RegisterDeviceExtends(t: Tables, u: Tables, id: string, publicKey: Bytes, keyId: string, now: int, created: bool)
    requires RegisterDevice(t, id, publicKey, keyId, now) == Ok((u, created))
    ensures Extends(t, u)
  {
  }

  lemma RegisterAuthorityExtends(t: Tables, u: Tables, id: string, publicKey: Bytes, keyId: string, now: int, created: bool)
    requires RegisterAuthority(t, id, publicKey, keyId, now) == Ok((u, created))
    ensures Extends(t, u)
  {
  }

  lemma AppendedExtends(t: Tables, u: Tables, d: string, e: Bytes)
    requires Appended(t, u, d, e) && u.devices[d].status == t.devices[d].status
    ensures Extends(t, u)
  {
  }

  lemma InsertEventExtends(s: Suite, t: Tables, u: Tables, e: SignedEvent, payload: Bytes, now: int, isNew: bool)
    requires InsertEvent(s, t, e, payload, now) == Ok((u, isNew))
    ensures Extends(t, u)
  {
    if EventHash(s, e) in t.events {
      ExtendsSelf(t);
    } else {
      assert Appended(t, u, e.deviceId, EventHash(s, e));
      AppendedExtends(t, u, e.deviceId, EventHash(s, e));
    }
  }

  lemma ClaimedBlockKept(t: Tables, u: Tables, row: BlockRow, hashes: seq<Bytes>, authorities: Snapshot, h: int)
    requires Claims(t, u, row, hashes, authorities) && h in t.blocks
    ensures BlockKept(t, u, h)
  {
  }

  lemma CreateProposalExtends(s: Suite, t: Tables, u: Tables, row: BlockRow, hashes: seq<Bytes>, authorities: Snapshot)
    requires Inv(s, t) && CreateProposal(t, row, hashes, authorities) == Ok(u)
    ensures Extends(t, u)
  {
    ProposalPending(t, u, row, hashes, authorities);
    ProposalEffect(t, u, row, hashes, authorities);
    forall h | h in t.blocks ensures BlockKept(t, u, h) {
      ClaimedBlockKept(t, u, row, hashes, authorities, h);
    }
    forall e | e in t.events ensures EventKept(t, u, e) {
      ClaimedEventKept(t, u, row, hashes, authorities, e);
    }
  }

  lemma ClaimedEventKept(t: Tables, u: Tables, row: BlockRow, hashes: seq<Bytes>, authorities: Snapshot, e: Bytes)
    requires Claims(t, u, row, hashes, authorities) && AllPending(t, hashes) && e in t.events
    ensures EventKept(t, u, e)
  {
  }

  lemma SignedBlockKept(t: Tables, u: Tables, h: int, id: string, signature: SignatureRow, k: int)
    requires SignedBy(t, u, h, id, signature) && k in t.blocks
    ensures BlockKept(t, u, k)
  {
    SignedElsewhere(t, u, h, id, signature, k);
  }

  lemma SignedExtends(t: Tables, u: Tables, h: int, id: string, signature: SignatureRow)
    requires SignedBy(t, u, h, id, signature)
    ensures Extends(t, u)
  {
    forall k | k in t.blocks ensures BlockKept(t, u, k) {
      SignedBlockKept(t, u, h, id, signature, k);
    }
  }

  lemma InsertSignatureExtends(s: Suite, t: Tables, u: Tables, h: int, id: string, signature: Bytes, now: int, status: BlockStatus)
    requires Inv(s, t) && InsertSignature(t, h, id, signature, now) == Ok((u, status))
    ensures Extends(t, u)
  {
    if t.blocks[h].status == Finalized && id in Signatures(t, h) {
      ExtendsSelf(t);
    } else {
      FinalEvents(s, t, h);
      SignatureEffect(t, u, h, id, signature, now, status);
      SignedExtends(t, u, h, id, SignatureRow(signature, now));
    }
  }
}
