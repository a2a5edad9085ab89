/** Reservoir sampling: a bounded buffer that keeps every item seen with the same probability. */
module Sampling {
  import opened Arithmetic

  /** One draw per item beyond the first `limit`: the t-th such item is number limit + 1 + t and draws from 1 to that. */
  ghost predicate Draws(limit: nat, draws: seq<nat>) {
    forall t :: 0 <= t < |draws| ==> 1 <= draws[t] <= limit + 1 + t
  }

  function Start(limit: nat, n: nat): (r: seq<nat>)
    ensures |r| == (if n < limit then n else limit) && forall j :: 0 <= j < |r| ==> r[j] == j
  {
    seq(if n < limit then n else limit, j => j)
  }

  /** Which items (by position, from 0) the buffer holds after limit + |draws| items. */
  function Retained(limit: nat, draws: seq<nat>): (r: seq<nat>)
    ensures |r| == limit
  {
    if draws == [] then Start(limit, limit)
    else
      var n := |draws| - 1;
      var before := Retained(limit, draws[..n]);
      if 1 <= draws[n] <= limit then before[draws[n] - 1 := limit + n] else before
  }

  /** The buffer holds items from different positions among those seen. */
  lemma {:induction false} RetainedDistinct(limit: nat, draws: seq<nat>)
    ensures forall i :: 0 <= i < limit ==> Retained(limit, draws)[i] < limit + |draws|
    ensures forall i, j :: 0 <= i < j < limit ==> Retained(limit, draws)[i] != Retained(limit, draws)[j]
  {
    if draws != [] {
      RetainedDistinct(limit, draws[..|draws| - 1]);
    }
  }

  lemma RetainedStep(limit: nat, draws: seq<nat>, draw: nat)
    requires draw >= 1
    ensures Retained(limit, draws + [draw])
         == if draw <= limit then Retained(limit, draws)[draw - 1 := limit + |draws|] else Retained(limit, draws)
  {
    assert (draws + [draw])[..|draws|] == draws;
  }

  class Reservoir {
    const limit: nat
    var values: seq<real>
    var seen: nat
    ghost var items: seq<real>
    ghost var draws: seq<nat>

    /** The buffer holds the items at the retained positions; until it is full, all of them. */
    ghost predicate Valid()
      reads this
    {
      && limit >= 1 && seen == |items| && Draws(limit, draws)
      && |draws| == (if seen < limit then 0 else seen - limit)
      && |values| == (if seen < limit then seen else limit)
      && (seen < limit ==> values == items)
      && (seen >= limit ==> forall j :: 0 <= j < limit ==> Retained(limit, draws)[j] < seen && values[j] == items[Retained(limit, draws)[j]])
    }

    constructor (limit: int)
      ensures Valid() && this.limit == (if limit < 1 then 1 else limit) && items == []
    {
      this.limit := if limit < 1 then 1 else limit;
      values, seen, items, draws := [], 0, [], [];
    }

    /** `draw` is what the generator would give for the range 1..seen; it is used only when the buffer is full. */
    method Add(value: real, draw: nat)
      requires Valid() && 1 <= draw <= seen + 1
      modifies this
      ensures Valid() && items == old(items) + [value]
      ensures draws == if old(seen) < limit then old(draws) else old(draws) + [draw]
    {
      seen := seen + 1;
      items := items + [value];
      if |values| < limit {
        values := values + [value];
        return;
      }
      RetainedStep(limit, draws, draw);
      draws := draws + [draw];
      if draw <= limit {
        values := values[draw - 1 := value];
      }
    }
  }

  // ---------------------------------------------------------------------------
  // Uniformity, by counting draws
  // ---------------------------------------------------------------------------

  /** Every sequence of draws for limit + m items. */
  ghost function AllDraws(limit: nat, m: nat): set<seq<nat>> {
    if m == 0 then {[]} else Extended(AllDraws(limit, m - 1), limit + m)
  }

  ghost function Extended(sequences: set<seq<nat>>, n: nat): set<seq<nat>> {
    set c, d: nat | c in sequences && d in Upto(n) :: c + [d]
  }

  ghost function Upto(n: nat): (r: set<nat>)
    ensures forall d: nat :: d in r <==> 1 <= d <= n
  {
    if n == 0 then {} else Upto(n - 1) + {n}
  }

  lemma InExtended(sequences: set<seq<nat>>, n: nat, x: seq<nat>)
    ensures x in Extended(sequences, n) <==> x != [] && x[..|x| - 1] in sequences && 1 <= x[|x| - 1] <= n
  {
    if x in Extended(sequences, n) {
      var c, d: nat :| c in sequences && d in Upto(n) && x == c + [d];
      assert x[..|x| - 1] == c;
    }
    if x != [] && x[..|x| - 1] in sequences && 1 <= x[|x| - 1] <= n {
      var c, d := x[..|x| - 1], x[|x| - 1];
      assert x == c + [d] && d in Upto(n);
    }
  }

  /** They are exactly the sequences of that length whose draws are in range. */
  lemma {:induction false} AllDrawsAre(limit: nat, m: nat, c: seq<nat>)
    ensures c in AllDraws(limit, m) <==> |c| == m && Draws(limit, c)
  {
    if m > 0 {
      InExtended(AllDraws(limit, m - 1), limit + m, c);
      if c != [] {
        AllDrawsAre(limit, m - 1, c[..|c| - 1]);
      }
    }
  }

  /** Each sequence with one element appended, which may depend on the sequence. */
  ghost function Appended(sequences: set<seq<nat>>, last: seq<nat> -> nat): set<seq<nat>> {
    set c | c in sequences :: c + [last(c)]
  }

  lemma InAppended(sequences: set<seq<nat>>, last: seq<nat> -> nat, x: seq<nat>)
    ensures x in Appended(sequences, last) <==> x != [] && x[..|x| - 1] in sequences && x[|x| - 1] == last(x[..|x| - 1])
  {
    if x in Appended(sequences, last) {
      var c :| c in sequences && x == c + [last(c)];
      assert x[..|x| - 1] == c;
    }
    if x != [] && x[..|x| - 1] in sequences && x[|x| - 1] == last(x[..|x| - 1]) {
      assert x == x[..|x| - 1] + [x[|x| - 1]];
    }
  }

  lemma {:induction false} AppendedSize(sequences: set<seq<nat>>, last: seq<nat> -> nat)
    ensures |Appended(sequences, last)| == |sequences|
  {
    if sequences == {} {
      assert Appended(sequences, last) == {};
    } else {
      var b :| b in sequences;
      var rest, x := sequences - {b}, b + [last(b)];
      AppendedSize(rest, last);
      InAppended(rest, last, x);
      assert x[..|x| - 1] == b;
      forall y ensures y in Appended(sequences, last) <==> y in Appended(rest, last) + {x} {
        InAppended(sequences, last, y);
        InAppended(rest, last, y);
        if y != [] && y[..|y| - 1] == b && y[|y| - 1] == last(b) {
          assert y == y[..|y| - 1] + [y[|y| - 1]];
        }
      }
      assert Appended(sequences, last) == Appended(rest, last) + {x};
    }
  }

  lemma OneMoreChoice(sequences: set<seq<nat>>, n: nat)
    requires n > 0
    ensures |Extended(sequences, n)| == |Extended(sequences, n - 1)| + |sequences|
  {
    var last: seq<nat> -> nat := c => n;
    AppendedSize(sequences, last);
    forall x
      ensures x in Extended(sequences, n) <==> x in Extended(sequences, n - 1) + Appended(sequences, last)
      ensures !(x in Extended(sequences, n - 1) && x in Appended(sequences, last))
    {
      InExtended(sequences, n, x);
      InExtended(sequences, n - 1, x);
      InAppended(sequences, last, x);
    }
    assert Extended(sequences, n) == Extended(sequences, n - 1) + Appended(sequences, last);
    assert Extended(sequences, n - 1) !! Appended(sequences, last);
  }

  lemma {:induction false} ExtendedSize(sequences: set<seq<nat>>, n: nat)
    ensures |Extended(sequences, n)| == |sequences| * n
  {
    if n == 0 {
      assert Extended(sequences, 0) == {};
    } else {
      ExtendedSize(sequences, n - 1);
      OneMoreChoice(sequences, n);
      Distribute(n, 1, |sequences|);
    }
  }

  /** The sequences of draws after which the buffer holds item i. */
  ghost function KeptBy(limit: nat, m: nat, i: nat): set<seq<nat>> {
    set c | c in AllDraws(limit, m) && i in Retained(limit, c)
  }

  ghost function PositionOf(limit: nat, i: nat, c: seq<nat>): (p: nat)
    ensures i in Retained(limit, c) ==> p < limit && Retained(limit, c)[p] == i
  {
    if i in Retained(limit, c) then
      var p :| 0 <= p < limit && Retained(limit, c)[p] == i;
      p
    else 0
  }

  /** After one more draw the newest item is held exactly when the draw falls inside the buffer. */
  lemma NewestIsKept(limit: nat, b: seq<nat>, d: nat)
    requires 1 <= d <= limit + |b| + 1
    ensures limit + |b| in Retained(limit, b + [d]) <==> d <= limit
  {
    assert (b + [d])[..|b|] == b;
    RetainedDistinct(limit, b);
    if d <= limit {
      assert Retained(limit, b + [d])[d - 1] == limit + |b|;
    }
  }

  /** An older item stays exactly when it was held and the draw does not fall on its place. */
  lemma OlderIsKept(limit: nat, b: seq<nat>, d: nat, i: nat)
    requires 1 <= d <= limit + |b| + 1 && i < limit + |b|
    ensures i in Retained(limit, b + [d]) <==> i in Retained(limit, b) && d != PositionOf(limit, i, b) + 1
  {
    assert (b + [d])[..|b|] == b;
    RetainedDistinct(limit, b);
    var before, after := Retained(limit, b), Retained(limit, b + [d]);
    if i in after {
      var p :| 0 <= p < limit && after[p] == i;
      assert before[p] == i;
    }
    if i in before && d != PositionOf(limit, i, b) + 1 {
      assert after[PositionOf(limit, i, b)] == i;
    }
  }

  lemma NewestKeptBy(limit: nat, m: nat, c: seq<nat>)
    requires m > 0
    ensures c in KeptBy(limit, m, limit + m - 1) <==> c in Extended(AllDraws(limit, m - 1), limit)
  {
    InExtended(AllDraws(limit, m - 1), limit + m, c);
    InExtended(AllDraws(limit, m - 1), limit, c);
    if c in AllDraws(limit, m) {
      var b, d := c[..|c| - 1], c[|c| - 1];
      AllDrawsAre(limit, m - 1, b);
      NewestIsKept(limit, b, d);
      assert c == b + [d];
    }
  }

  lemma NewestCount(limit: nat, m: nat)
    requires m > 0
    ensures |KeptBy(limit, m, limit + m - 1)| == |AllDraws(limit, m - 1)| * limit
  {
    var kept, inside := KeptBy(limit, m, limit + m - 1), Extended(AllDraws(limit, m - 1), limit);
    forall c ensures c in kept <==> c in inside {
      NewestKeptBy(limit, m, c);
    }
    assert kept == inside;
    ExtendedSize(AllDraws(limit, m - 1), limit);
  }

  lemma OlderKeptBy(limit: nat, m: nat, i: nat, c: seq<nat>, place: seq<nat> -> nat)
    requires m > 0 && i < limit + m - 1
    requires forall b :: place(b) == PositionOf(limit, i, b) + 1
    ensures c in Extended(KeptBy(limit, m - 1, i), limit + m)
       <==> c in KeptBy(limit, m, i) + Appended(KeptBy(limit, m - 1, i), place)
    ensures !(c in KeptBy(limit, m, i) && c in Appended(KeptBy(limit, m - 1, i), place))
  {
    var held := KeptBy(limit, m - 1, i);
    InExtended(AllDraws(limit, m - 1), limit + m, c);
    InExtended(held, limit + m, c);
    InAppended(held, place, c);
    if c != [] && c[..|c| - 1] in AllDraws(limit, m - 1) && 1 <= c[|c| - 1] <= limit + m {
      var b, d := c[..|c| - 1], c[|c| - 1];
      AllDrawsAre(limit, m - 1, b);
      OlderIsKept(limit, b, d, i);
      assert c == b + [d];
    }
  }

  lemma OlderSplit(limit: nat, m: nat, i: nat)
    requires m > 0 && i < limit + m - 1
    ensures |Extended(KeptBy(limit, m - 1, i), limit + m)| == |KeptBy(limit, m, i)| + |KeptBy(limit, m - 1, i)|
  {
    var held, kept := KeptBy(limit, m - 1, i), KeptBy(limit, m, i);
    var place: seq<nat> -> nat := b => PositionOf(limit, i, b) + 1;
    var all, hit := Extended(held, limit + m), Appended(held, place);
    forall c
      ensures c in all <==> c in kept + hit
      ensures !(c in kept && c in hit)
    {
      OlderKeptBy(limit, m, i, c, place);
    }
    assert all == kept + hit && kept !! hit;
    AppendedSize(held, place);
  }

  lemma OlderCount(limit: nat, m: nat, i: nat)
    requires m > 0 && i < limit + m - 1
    ensures |KeptBy(limit, m, i)| == |KeptBy(limit, m - 1, i)| * (limit + m - 1)
  {
    OlderSplit(limit, m, i);
    ExtendedSize(KeptBy(limit, m - 1, i), limit + m);
    OneLess(|KeptBy(limit, m, i)|, |KeptBy(limit, m - 1, i)|, limit + m);
  }

  lemma OneLess(kept: int, held: int, n: int)
    requires held * n == kept + held
    ensures kept == held * (n - 1)
  {
    Distribute(n, 1, held);
  }

  lemma Reorder(x: int, y: int, z: int)
    ensures x * y * z == y * (x * z)
  {
  }

  lemma Rescale(held: int, limit: int, all: int, n: int)
    requires held * (n - 1) == limit * all
    ensures held * (n - 1) * n == limit * (all * n)
  {
  }

  /** Of all sequences of draws for n items, a share of exactly limit / n keeps any one of them. */
  lemma {:induction false} EveryItemEquallyLikely(limit: nat, m: nat, i: nat)
    requires limit >= 1 && i < limit + m
    ensures |KeptBy(limit, m, i)| * (limit + m) == limit * |AllDraws(limit, m)|
    decreases m
  {
    if m == 0 {
      assert Retained(limit, [])[i] == i;
      assert KeptBy(limit, 0, i) == {[]};
    } else if i == limit + m - 1 {
      NewestShare(limit, m);
    } else {
      EveryItemEquallyLikely(limit, m - 1, i);
      OlderShare(limit, m, i);
    }
  }

  lemma NewestShare(limit: nat, m: nat)
    requires m > 0
    ensures |KeptBy(limit, m, limit + m - 1)| * (limit + m) == limit * |AllDraws(limit, m)|
  {
    NewestCount(limit, m);
    ExtendedSize(AllDraws(limit, m - 1), limit + m);
    Reorder(|AllDraws(limit, m - 1)|, limit, limit + m);
  }

  lemma OlderShare(limit: nat, m: nat, i: nat)
    requires m > 0 && i < limit + m - 1
    requires |KeptBy(limit, m - 1, i)| * (limit + m - 1) == limit * |AllDraws(limit, m - 1)|
    ensures |KeptBy(limit, m, i)| * (limit + m) == limit * |AllDraws(limit, m)|
  {
    OlderCount(limit, m, i);
    ExtendedSize(AllDraws(limit, m - 1), limit + m);
    Rescale(|KeptBy(limit, m - 1, i)|, limit, |AllDraws(limit, m - 1)|, limit + m);
  }
}
