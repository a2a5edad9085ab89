/** Every stored event is pending or in exactly one place of exactly one block. */
module Conservation {
  import opened Primitives
  import opened Models
  import opened Store
  import opened Audit
  import opened Invariant
  import opened Interleaving

  /** An event is pending exactly when no block holds it, and otherwise sits in the one place its row names. */
  lemma OnePlace(s: Suite, t: Tables, e: Bytes)
    requires Inv(s, t) && e in t.events
    ensures t.events[e].blockHeight.None? <==> !Taken(t, e)
    ensures forall h, p, k, q :: Occupies(t, h, p, e) && Occupies(t, k, q, e) ==> h == k && p == q
    ensures forall h, p :: Occupies(t, h, p, e) ==> t.events[e].blockHeight == Some(h)
    ensures t.events[e].finalized <==> exists h, p :: Occupies(t, h, p, e) && h in t.blocks && t.blocks[h].status == Finalized
  {
    assert EventInv(s, t, e);
    if t.events[e].blockHeight.Some? {
      var h := t.events[e].blockHeight.value;
      var p :| Occupies(t, h, p, e);
    }
  }

  /** The positions of a block are 0..count-1, each holding a stored event that names the block. */
  lemma FullBlock(s: Suite, t: Tables, h: int, p: int)
    requires Inv(s, t) && h in t.blocks
    ensures p in Slots(t, h) <==> 0 <= p < t.blocks[h].header.eventCount
    ensures p in Slots(t, h) ==> Slots(t, h)[p] in t.events && t.events[Slots(t, h)[p]].blockHeight == Some(h)
  {
    assert BlockInv(s, t, h);
    if p in Slots(t, h) {
      assert Occupies(t, h, p, Slots(t, h)[p]);
      MemberIffOccupies(t, h, Slots(t, h)[p]);
      assert MemberOk(t, h, Slots(t, h)[p]);
    }
  }

  function EventsIn(t: Tables, h: int): set<Bytes> {
    set e | e in t.events && t.events[e].blockHeight == Some(h)
  }

  function EventsUpTo(t: Tables, n: int): set<Bytes> {
    set e | e in t.events && t.events[e].blockHeight.Some? && 1 <= t.events[e].blockHeight.value <= n
  }

  /** The sum of the event counts of blocks 1..n. */
  function CountUpTo(t: Tables, n: nat): int {
    if n == 0 then 0 else CountUpTo(t, n - 1) + if n in t.blocks then t.blocks[n].header.eventCount else 0
  }

  /** As many elements as positions: slots map 0..n-1 one to one onto a set. */
  lemma {:induction false} OneToOne(slots: map<int, Bytes>, members: set<Bytes>, n: nat)
    requires forall p :: p in slots <==> 0 <= p < n
    requires forall e :: e in members <==> exists p :: p in slots && slots[p] == e
    requires forall p, q :: p in slots && q in slots && slots[p] == slots[q] ==> p == q
    ensures |members| == n
    decreases n
  {
    if n == 0 {
      assert members == {};
    } else {
      var last := slots[n - 1];
      var fewer := slots - {n - 1};
      forall e ensures e in members - {last} <==> exists p :: p in fewer && fewer[p] == e {
        if e in members - {last} {
          var p :| p in slots && slots[p] == e;
          assert p in fewer && fewer[p] == e;
        }
        if p :| p in fewer && fewer[p] == e {
          assert p in slots && slots[p] == e && slots[n - 1] == last;
        }
      }
      OneToOne(fewer, members - {last}, n - 1);
      assert n - 1 in slots && last in members;
    }
  }

  lemma BlockHoldsItsCount(s: Suite, t: Tables, h: int)
    requires Inv(s, t) && h in t.blocks
    ensures |EventsIn(t, h)| == t.blocks[h].header.eventCount
  {
    assert BlockInv(s, t, h);
    var slots := Slots(t, h);
    forall e ensures e in EventsIn(t, h) <==> exists p :: p in slots && slots[p] == e {
      if e in EventsIn(t, h) {
        assert EventInv(s, t, e);
        var p :| Occupies(t, h, p, e);
        assert p in slots && slots[p] == e;
      }
      if p :| p in slots && slots[p] == e {
        FullBlock(s, t, h, p);
      }
    }
    forall p, q | p in slots && q in slots && slots[p] == slots[q] ensures p == q {
      assert Occupies(t, h, p, slots[p]) && Occupies(t, h, q, slots[q]);
    }
    OneToOne(slots, EventsIn(t, h), t.blocks[h].header.eventCount);
  }

  lemma UpToSplits(t: Tables, n: nat)
    requires n > 0
    ensures |EventsUpTo(t, n)| == |EventsUpTo(t, n - 1)| + |EventsIn(t, n)|
  {
    assert EventsUpTo(t, n) == EventsUpTo(t, n - 1) + EventsIn(t, n);
    assert EventsUpTo(t, n - 1) !! EventsIn(t, n);
  }

  lemma PendingSplits(t: Tables, n: nat)
    requires forall e :: e in t.events && t.events[e].blockHeight.Some? ==> e in EventsUpTo(t, n)
    ensures |t.events| == |Pending(t)| + |EventsUpTo(t, n)|
  {
    assert t.events.Keys == Pending(t) + EventsUpTo(t, n);
    assert Pending(t) !! EventsUpTo(t, n);
  }

  lemma {:induction false} BlocksHoldTheirCounts(s: Suite, t: Tables, n: nat)
    requires Inv(s, t) && n <= |t.blocks|
    ensures |EventsUpTo(t, n)| == CountUpTo(t, n)
  {
    if n == 0 {
      assert EventsUpTo(t, 0) == {};
    } else {
      BlocksHoldTheirCounts(s, t, n - 1);
      BlockHoldsItsCount(s, t, n);
      UpToSplits(t, n);
    }
  }

  /** No event is lost and none is counted twice. */
  lemma EventsConserved(s: Suite, t: Tables)
    requires Inv(s, t)
    ensures |Pending(t)| + CountUpTo(t, |t.blocks|) == |t.events|
  {
    BlocksHoldTheirCounts(s, t, |t.blocks|);
    forall e | e in t.events && t.events[e].blockHeight.Some? ensures e in EventsUpTo(t, |t.blocks|) {
      assert EventInv(s, t, e);
    }
    PendingSplits(t, |t.blocks|);
  }

  lemma RunConservesEvents(s: Suite, states: seq<System>, steps: seq<Step>, i: nat)
    requires Lawful(s) && Run(s, states, steps) && i < |states|
    ensures |Pending(states[i].tables)| + CountUpTo(states[i].tables, |states[i].tables.blocks|) == |states[i].tables.events|
  {
    RunKeepsInv(s, states, steps, i);
    EventsConserved(s, states[i].tables);
  }
}
