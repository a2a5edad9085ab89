/** Signing a block keeps the invariant; a block is final exactly when a quorum of its snapshot has signed. */
module Signing {
  import opened Primitives
  import opened Models
  import opened Store
  import opened Audit
  import opened Invariant

  /** What a signer has checked, against rows that never change once stored, before its transaction starts. */
  ghost predicate SignatureReady(s: Suite, t: Tables, h: int, id: string, signature: Bytes) {
    && h in t.blocks && id in Members(t, h)
    && s.verify(Members(t, h)[id], signature, t.blocks[h].blockHash)
  }

  /** The members of the snapshot at height h with a stored signature that verifies. */
  ghost function ValidSigners(s: Suite, t: Tables, h: int): set<string>
    requires h in t.blocks
  {
    set id | id in Signatures(t, h) && id in Members(t, h)
      && s.verify(Members(t, h)[id], Signatures(t, h)[id].signature, t.blocks[h].blockHash)
  }

  lemma FinalIffQuorum(s: Suite, t: Tables, h: int)
    requires Inv(s, t) && h in t.blocks
    ensures t.blocks[h].status == Finalized <==> |ValidSigners(s, t, h)| >= t.blocks[h].header.quorumThreshold
    ensures t.blocks[h].status == Finalized <==> t.blocks[h].finalizedAtMs.Some?
  {
    assert BlockInv(s, t, h);
    forall id | id in Signatures(t, h) ensures id in ValidSigners(s, t, h) {
      assert SignatureOk(s, t, h, id);
    }
    assert ValidSigners(s, t, h) == Signatures(t, h).Keys;
  }

  /** The error for an earlier block that is not final cannot occur. */
  lemma PreviousIsFinal(s: Suite, t: Tables, h: int)
    requires Inv(s, t) && h in t.blocks
    ensures PreviousFinalized(t, t.blocks[h])
  {
    assert BlockInv(s, t, h);
    if h > 1 {
      assert BlockInv(s, t, h - 1);
    }
  }

  lemma SigningNeverBlocked(s: Suite, t: Tables, h: int, id: string, signature: Bytes, now: int)
    requires Inv(s, t)
    ensures InsertSignature(t, h, id, signature, now) != Err(PreviousNotFinalized)
    ensures h in t.blocks && id in Members(t, h) ==> InsertSignature(t, h, id, signature, now).Ok?
  {
    if h in t.blocks {
      PreviousIsFinal(s, t, h);
    }
  }

  /** How an event row looks once the block at height h may have become final. */
  predicate SameUntilFinal(x: EventRow, y: EventRow, h: int, final: bool) {
    y == x.(finalized := x.finalized || (x.blockHeight == Some(h) && final))
  }

  /** What the tables u look like after a signature for block h beside the tables t before it. */
  ghost predicate SignedBy(t: Tables, u: Tables, h: int, id: string, signature: SignatureRow) {
    && u.devices == t.devices && u.authorities == t.authorities
    && u.blockEvents == t.blockEvents && u.blockAuthorities == t.blockAuthorities
    && h in t.blocks && u.blocks.Keys == t.blocks.Keys
    && (forall k :: k in t.blocks && k != h ==> u.blocks[k] == t.blocks[k])
    && u.blockSignatures == t.blockSignatures[h := WithSignature(Signatures(t, h), id, signature)]
    && u.blocks[h].header == t.blocks[h].header && u.blocks[h].blockHash == t.blocks[h].blockHash
    && (t.blocks[h].status == Finalized ==> u.blocks[h] == t.blocks[h])
    && (u.blocks[h].status == Finalized <==> |Signatures(u, h)| >= t.blocks[h].header.quorumThreshold)
    && (u.blocks[h].status == Finalized <==> u.blocks[h].finalizedAtMs.Some?)
    && u.events.Keys == t.events.Keys
    && (forall e {:trigger u.events[e]} :: e in t.events ==> SameUntilFinal(t.events[e], u.events[e], h, u.blocks[h].status == Finalized))
  }

  /**
   * After a signature of member id for block h: the member has signed, the earlier of its signatures
   * counting, nobody else's signature changed, and the block and its events are final exactly
   * with a quorum, since the reading of the signature that completed it.
   */
  ghost predicate Countersigned(t: Tables, u: Tables, h: int, id: string, signature: Bytes, now: int) {
    && h in t.blocks && u.blocks.Keys == t.blocks.Keys
    && Signatures(u, h).Keys == Signatures(t, h).Keys + {id}
    && (forall other :: other in Signatures(t, h) ==> Signatures(u, h)[other] == Signatures(t, h)[other])
    && (id !in Signatures(t, h) ==> Signatures(u, h)[id].signature == signature && Signatures(u, h)[id].signedAtMs == now)
    && u.blocks[h].header == t.blocks[h].header && u.blocks[h].blockHash == t.blocks[h].blockHash
    && (u.blocks[h].status == Finalized <==> |Signatures(u, h)| >= t.blocks[h].header.quorumThreshold)
    && (t.blocks[h].status == Finalized ==> u.blocks[h] == t.blocks[h])
    && (t.blocks[h].status == Proposed && u.blocks[h].status == Finalized ==> u.blocks[h].finalizedAtMs == Some(now))
    && OnlySignedAt(t, u, h)
  }

  /** Nothing changed but block h, its signatures and the finality of its events. */
  ghost predicate OnlySignedAt(t: Tables, u: Tables, h: int)
    requires h in u.blocks
  {
    && u.devices == t.devices && u.authorities == t.authorities
    && u.blockEvents == t.blockEvents && u.blockAuthorities == t.blockAuthorities
    && (forall k :: k != h ==> Signatures(u, k) == Signatures(t, k))
    && (forall k :: k != h && k in t.blocks ==> k in u.blocks && u.blocks[k] == t.blocks[k])
    && u.events.Keys == t.events.Keys
    && (forall e {:trigger u.events[e]} :: e in t.events ==> SameUntilFinal(t.events[e], u.events[e], h, u.blocks[h].status == Finalized))
  }

  lemma SignatureEffect(t: Tables, u: Tables, h: int, id: string, signature: Bytes, now: int, status: BlockStatus)
    requires h in t.blocks && FinalityInv(t, h)
    requires forall e :: e in t.events && t.events[e].blockHeight == Some(h) ==> (t.events[e].finalized <==> t.blocks[h].status == Finalized)
    requires !(t.blocks[h].status == Finalized && id in Signatures(t, h))
    requires InsertSignature(t, h, id, signature, now) == Ok((u, status))
    ensures SignedBy(t, u, h, id, SignatureRow(signature, now))
    ensures status == u.blocks[h].status
  {
    var signatures := WithSignature(Signatures(t, h), id, SignatureRow(signature, now));
    assert |signatures| >= |Signatures(t, h)|;
    assert Signatures(u, h) == signatures;
  }

  lemma SignedKeyed(t: Tables, u: Tables, h: int, id: string, signature: SignatureRow)
    requires Keyed(t) && SignedBy(t, u, h, id, signature)
    ensures Keyed(u)
  {
    forall j, p, k, q, e | Occupies(u, j, p, e) && Occupies(u, k, q, e) ensures j == k && p == q {
      assert Occupies(t, j, p, e) && Occupies(t, k, q, e);
    }
    forall e, f | e in u.events && f in u.events && EventKey(u, e) == EventKey(u, f) ensures e == f {
      assert EventKey(t, e) == EventKey(u, e) && EventKey(t, f) == EventKey(u, f);
    }
  }

  lemma SignedPlacement(t: Tables, u: Tables, h: int, id: string, signature: SignatureRow, e: Bytes)
    requires SignedBy(t, u, h, id, signature) && e in t.events && PlacementInv(t, e)
    ensures PlacementInv(u, e)
  {
    match t.events[e].blockHeight
    case None =>
      forall k, p ensures !Occupies(u, k, p, e) {
        assert !Occupies(t, k, p, e);
      }
    case Some(k) =>
      var p :| Occupies(t, k, p, e);
      assert Occupies(u, k, p, e);
  }

  lemma SignedEvent(s: Suite, t: Tables, u: Tables, h: int, id: string, signature: SignatureRow, e: Bytes)
    requires SignedBy(t, u, h, id, signature) && e in t.events && EventInv(s, t, e)
    ensures EventInv(s, u, e)
  {
    forall f | f in t.events ensures f in u.events && EventKey(u, f) == EventKey(t, f) {}
    EventOkFrame(s, t, u, e);
    SignedPlacement(t, u, h, id, signature, e);
  }

  lemma SignedElsewhere(t: Tables, u: Tables, h: int, id: string, signature: SignatureRow, k: int)
    requires SignedBy(t, u, h, id, signature) && k in t.blocks
    ensures |u.blocks| == |t.blocks| && PreviousHashAt(u, k) == PreviousHashAt(t, k)
    ensures Slots(u, k) == Slots(t, k) && Members(u, k) == Members(t, k)
    ensures k != h ==> u.blocks[k] == t.blocks[k] && Signatures(u, k) == Signatures(t, k)
  {
    assert |u.blocks.Keys| == |t.blocks.Keys|;
  }

  lemma SignedMember(t: Tables, u: Tables, h: int, id: string, signature: SignatureRow, k: int, e: Bytes)
    requires SignedBy(t, u, h, id, signature) && k in t.blocks && MemberOk(t, k, e)
    ensures MemberOk(u, k, e)
  {
  }

  lemma SignedOtherBlock(s: Suite, t: Tables, u: Tables, h: int, id: string, signature: SignatureRow, k: int)
    requires SignedBy(t, u, h, id, signature)
    requires k in t.blocks && k != h && BlockInv(s, t, k)
    ensures BlockInv(s, u, k)
  {
    forall e | e in EventHashes(t, k) ensures MemberOk(u, k, e) {
      assert MemberOk(t, k, e);
      SignedMember(t, u, h, id, signature, k, e);
    }
    SignedElsewhere(t, u, h, id, signature, k);
    BlockFrame(s, t, u, k);
  }

  lemma SignedSignature(s: Suite, t: Tables, u: Tables, h: int, id: string, signature: SignatureRow, i: string)
    requires SignedBy(t, u, h, id, signature) && SignatureReady(s, t, h, id, signature.signature)
    requires |Members(t, h)[id]| == 32 && i in Signatures(u, h)
    requires i in Signatures(t, h) ==> SignatureOk(s, t, h, i)
    ensures SignatureOk(s, u, h, i)
  {
  }

  lemma SignedContents(s: Suite, t: Tables, u: Tables, h: int, id: string, signature: SignatureRow)
    requires SignedBy(t, u, h, id, signature) && SignatureReady(s, t, h, id, signature.signature)
    requires ContentsOk(s, t, h) && |Members(t, h)[id]| == 32
    ensures ContentsOk(s, u, h)
  {
    forall e | e in EventHashes(t, h) ensures MemberOk(u, h, e) {
      assert MemberOk(t, h, e);
      SignedMember(t, u, h, id, signature, h, e);
    }
    forall i | i in Signatures(u, h) ensures SignatureOk(s, u, h, i) {
      assert i in Signatures(t, h) ==> SignatureOk(s, t, h, i);
      SignedSignature(s, t, u, h, id, signature, i);
    }
    SignedElsewhere(t, u, h, id, signature, h);
    ContentsFrame(s, t, u, h);
  }

  lemma SignedThisBlock(s: Suite, t: Tables, u: Tables, h: int, id: string, signature: SignatureRow)
    requires SignedBy(t, u, h, id, signature) && SignatureReady(s, t, h, id, signature.signature)
    requires BlockInv(s, t, h)
    ensures BlockInv(s, u, h)
  {
    SignedContents(s, t, u, h, id, signature);
    assert PreviousHashAt(u, h) == PreviousHashAt(t, h);
    assert |u.blocks| == |t.blocks|;
  }

  lemma SignedEvents(s: Suite, t: Tables, u: Tables, h: int, id: string, signature: SignatureRow)
    requires Inv(s, t) && SignedBy(t, u, h, id, signature)
    ensures forall e :: e in u.events ==> EventInv(s, u, e)
  {
    forall e | e in u.events ensures EventInv(s, u, e) {
      assert EventInv(s, t, e);
      SignedEvent(s, t, u, h, id, signature, e);
    }
  }

  lemma SignedBlocks(s: Suite, t: Tables, u: Tables, h: int, id: string, signature: SignatureRow)
    requires Inv(s, t) && SignedBy(t, u, h, id, signature) && SignatureReady(s, t, h, id, signature.signature)
    ensures forall k :: k in u.blocks ==> BlockInv(s, u, k)
  {
    forall k | k in u.blocks ensures BlockInv(s, u, k) {
      assert BlockInv(s, t, k);
      if k == h {
        SignedThisBlock(s, t, u, h, id, signature);
      } else {
        SignedOtherBlock(s, t, u, h, id, signature, k);
      }
    }
  }

  lemma SignedRegistry(s: Suite, t: Tables, u: Tables, h: int, id: string, signature: SignatureRow)
    requires Inv(s, t) && SignedBy(t, u, h, id, signature)
    ensures HeightsOk(u) && ChildrenInv(u)
    ensures forall d :: d in u.devices ==> DeviceInv(u, d)
    ensures forall a :: a in u.authorities ==> AuthorityInv(u, a)
  {
    assert |u.blocks.Keys| == |t.blocks.Keys|;
    assert |u.blocks| == |t.blocks|;
    forall d | d in u.devices ensures DeviceInv(u, d) {
      assert DeviceInv(t, d);
    }
    forall a | a in u.authorities ensures AuthorityInv(u, a) {
      assert AuthorityInv(t, a);
    }
  }

  lemma SignedKeepsInv(s: Suite, t: Tables, u: Tables, h: int, id: string, signature: SignatureRow)
    requires Inv(s, t) && SignedBy(t, u, h, id, signature) && SignatureReady(s, t, h, id, signature.signature)
    ensures Inv(s, u)
  {
    SignedKeyed(t, u, h, id, signature);
    SignedRegistry(s, t, u, h, id, signature);
    SignedEvents(s, t, u, h, id, signature);
    SignedBlocks(s, t, u, h, id, signature);
  }

  lemma FinalEvents(s: Suite, t: Tables, h: int)
    requires Inv(s, t) && h in t.blocks
    ensures FinalityInv(t, h)
    ensures forall e :: e in t.events && t.events[e].blockHeight == Some(h) ==> (t.events[e].finalized <==> t.blocks[h].status == Finalized)
  {
    assert BlockInv(s, t, h);
    forall e | e in t.events && t.events[e].blockHeight == Some(h)
      ensures t.events[e].finalized <==> t.blocks[h].status == Finalized
    {
      assert EventInv(s, t, e);
    }
  }

  lemma InsertSignatureKeepsInv(s: Suite, t: Tables, u: Tables, h: int, id: string, signature: Bytes, now: int, status: BlockStatus)
    requires Inv(s, t) && SignatureReady(s, t, h, id, signature)
    requires InsertSignature(t, h, id, signature, now) == Ok((u, status))
    ensures Inv(s, u) && status == u.blocks[h].status
  {
    if t.blocks[h].status == Finalized && id in Signatures(t, h) {
      assert u == t;
    } else {
      FinalEvents(s, t, h);
      SignatureEffect(t, u, h, id, signature, now, status);
      SignedKeepsInv(s, t, u, h, id, SignatureRow(signature, now));
    }
  }
  lemma SignedTime(t: Tables, u: Tables, h: int, id: string, signature: Bytes, now: int, status: BlockStatus)
    requires h in t.blocks && FinalityInv(t, h) && InsertSignature(t, h, id, signature, now) == Ok((u, status))
    ensures h in u.blocks
    ensures t.blocks[h].status == Proposed && u.blocks[h].status == Finalized ==> u.blocks[h].finalizedAtMs == Some(now)
  {
  }

  lemma SignedOnlyAt(t: Tables, u: Tables, h: int, id: string, signature: SignatureRow)
    requires SignedBy(t, u, h, id, signature)
    ensures OnlySignedAt(t, u, h) && Signatures(u, h) == WithSignature(Signatures(t, h), id, signature)
  {
  }

  lemma SignedIsCountersigned(t: Tables, u: Tables, h: int, id: string, signature: SignatureRow)
    requires SignedBy(t, u, h, id, signature)
    requires t.blocks[h].status == Proposed && u.blocks[h].status == Finalized ==> u.blocks[h].finalizedAtMs == Some(signature.signedAtMs)
    ensures Countersigned(t, u, h, id, signature.signature, signature.signedAtMs)
  {
    hide OnlySignedAt, SameUntilFinal;
    SignedOnlyAt(t, u, h, id, signature);
  }

  /** A member's valid signature is always taken. */
  lemma SignatureOutcome(s: Suite, t: Tables, h: int, id: string, signature: Bytes, now: int)
    requires Inv(s, t) && SignatureReady(s, t, h, id, signature)
    ensures var r := InsertSignature(t, h, id, signature, now);
            r.Ok? && Countersigned(t, r.value.0, h, id, signature, now) && r.value.1 == r.value.0.blocks[h].status
  {
    hide Inv, SignedBy, Countersigned;
    SigningNeverBlocked(s, t, h, id, signature, now);
    FinalEvents(s, t, h);
    var (u, status) := InsertSignature(t, h, id, signature, now).value;
    if t.blocks[h].status == Finalized && id in Signatures(t, h) {
      RepeatedSignature(t, h, id, signature, now);
    } else {
      SignatureEffect(t, u, h, id, signature, now, status);
      SignedTime(t, u, h, id, signature, now, status);
      SignedIsCountersigned(t, u, h, id, SignatureRow(signature, now));
    }
  }

  lemma RepeatedSignature(t: Tables, h: int, id: string, signature: Bytes, now: int)
    requires h in t.blocks && FinalityInv(t, h) && t.blocks[h].status == Finalized && id in Signatures(t, h)
    requires forall e :: e in t.events && t.events[e].blockHeight == Some(h) ==> t.events[e].finalized
    ensures Countersigned(t, t, h, id, signature, now)
  {
  }
}
