/** ORDER BY: the ascending enumeration of a finite set of keys. */
module Ordering {
  import opened Primitives

  ghost predicate StrictOrder<K(!new)>(lt: (K, K) -> bool) {
    && (forall x :: !lt(x, x))
    && (forall x, y, z :: lt(x, y) && lt(y, z) ==> lt(x, z))
    && (forall x, y :: x != y ==> lt(x, y) || lt(y, x))
  }

  ghost predicate Ascending<K>(s: seq<K>, lt: (K, K) -> bool) {
    forall i, j :: 0 <= i < j < |s| ==> lt(s[i], s[j])
  }

  ghost predicate Lists<K(!new)>(r: seq<K>, s: set<K>, lt: (K, K) -> bool) {
    && Ascending(r, lt)
    && (forall k :: k in r <==> k in s)
  }

  ghost predicate IsMinimum<K>(m: K, s: set<K>, lt: (K, K) -> bool) {
    m in s && forall k :: k in s && k != m ==> lt(m, k)
  }

  lemma {:induction false} MinimumExists<K(!new)>(s: set<K>, lt: (K, K) -> bool)
    requires StrictOrder(lt) && s != {}
    ensures exists m :: IsMinimum(m, s, lt)
  {
    var x :| x in s;
    var rest := s - {x};
    if rest == {} {
      assert s == {x};
      assert IsMinimum(x, s, lt);
    } else {
      MinimumExists(rest, lt);
      var m :| IsMinimum(m, rest, lt);
      if lt(m, x) {
        assert IsMinimum(m, s, lt);
      } else {
        assert IsMinimum(x, s, lt);
      }
    }
  }

  /** The rows that a query with an ORDER BY on a unique key returns, in order. */
  ghost function Sorted<K(!new)>(s: set<K>, lt: (K, K) -> bool): (r: seq<K>)
    requires StrictOrder(lt)
    ensures Lists(r, s, lt) && |r| == |s|
    ensures forall i :: 0 <= i < |r| ==> r[i] in s
  {
    if s == {} then [] else
      MinimumExists(s, lt);
      var m :| IsMinimum(m, s, lt);
      [m] + Sorted(s - {m}, lt)
  }

  /** An ascending listing is determined by the set it lists. */
  lemma {:induction false} ListingUnique<K(!new)>(a: seq<K>, b: seq<K>, s: set<K>, lt: (K, K) -> bool)
    requires StrictOrder(lt) && Lists(a, s, lt) && Lists(b, s, lt)
    ensures a == b
  {
    assert a == [] <==> b == [] by {
      assert a != [] ==> a[0] in a;
      assert b != [] ==> b[0] in b;
    }
    if a != [] {
      assert a[0] in a && b[0] in b;
      var i :| 0 <= i < |a| && a[i] == b[0];
      var j :| 0 <= j < |b| && b[j] == a[0];
      assert a[0] == b[0];
      var rest := s - {a[0]};
      ListsTail(a, s, lt);
      ListsTail(b, s, lt);
      ListingUnique(a[1..], b[1..], rest, lt);
      assert a == [a[0]] + a[1..] && b == [b[0]] + b[1..];
    }
  }

  lemma ListsTail<K(!new)>(a: seq<K>, s: set<K>, lt: (K, K) -> bool)
    requires StrictOrder(lt) && Lists(a, s, lt) && a != []
    ensures Lists(a[1..], s - {a[0]}, lt)
  {
    var tail := a[1..];
    forall k ensures k in tail <==> k in s - {a[0]} {
      if k in tail {
        var i :| 0 <= i < |tail| && tail[i] == k;
        assert a[i + 1] == k && lt(a[0], a[i + 1]);
        assert k in a;
      }
      if k in s - {a[0]} {
        assert k in a;
        var i :| 0 <= i < |a| && a[i] == k;
        assert i > 0 && tail[i - 1] == k;
      }
    }
  }

  lemma SortedIs<K(!new)>(r: seq<K>, s: set<K>, lt: (K, K) -> bool)
    requires StrictOrder(lt) && Lists(r, s, lt)
    ensures r == Sorted(s, lt)
  {
    ListingUnique(r, Sorted(s, lt), s, lt);
  }

  /** The result set of a query, read row by row in key order. */
  method Enumerate<K(==, !new)>(s: set<K>, lt: (K, K) -> bool) returns (r: seq<K>)
    requires StrictOrder(lt)
    ensures r == Sorted(s, lt)
  {
    r := [];
    var rest := s;
    while rest != {}
      invariant rest <= s
      invariant Lists(r, s - rest, lt)
      invariant forall a, b :: a in r && b in rest ==> lt(a, b)
      decreases rest
    {
      var m :| m in rest;
      var others := rest - {m};
      while others != {}
        invariant m in rest && others <= rest
        invariant forall k :: k in rest && k !in others && k != m ==> lt(m, k)
        decreases others
      {
        var k :| k in others;
        if lt(k, m) {
          m := k;
        }
        others := others - {k};
      }
      r := r + [m];
      rest := rest - {m};
    }
    assert s - rest == s;
    SortedIs(r, s, lt);
  }

  /** Lexicographic order on sequences of numbers. */
  predicate LexLess(a: seq<int>, b: seq<int>) {
    if b == [] then false
    else if a == [] then true
    else a[0] < b[0] || (a[0] == b[0] && LexLess(a[1..], b[1..]))
  }

  lemma {:induction false} LexIrreflexive(a: seq<int>)
    ensures !LexLess(a, a)
  {
    if a != [] {
      LexIrreflexive(a[1..]);
    }
  }

  lemma {:induction false} LexTransitive(a: seq<int>, b: seq<int>, c: seq<int>)
    requires LexLess(a, b) && LexLess(b, c)
    ensures LexLess(a, c)
  {
    if a != [] && a[0] == b[0] == c[0] {
      LexTransitive(a[1..], b[1..], c[1..]);
    }
  }

  lemma {:induction false} LexTotal(a: seq<int>, b: seq<int>)
    requires a != b
    ensures LexLess(a, b) || LexLess(b, a)
  {
    if a != [] && b != [] && a[0] == b[0] {
      assert a == [a[0]] + a[1..] && b == [b[0]] + b[1..];
      LexTotal(a[1..], b[1..]);
    }
  }

  function CharCodes(s: string): (r: seq<int>)
    ensures |r| == |s| && forall i :: 0 <= i < |s| ==> r[i] == s[i] as int
  {
    seq(|s|, i requires 0 <= i < |s| => s[i] as int)
  }

  function Octets(b: Bytes): (r: seq<int>)
    ensures |r| == |b| && forall i :: 0 <= i < |b| ==> r[i] == b[i] as int
  {
    seq(|b|, i requires 0 <= i < |b| => b[i] as int)
  }

  predicate IntLess(x: int, y: int) { x < y }

  /** SQLite's BINARY collation of text, and memcmp order of blobs. */
  predicate TextLess(x: string, y: string) { LexLess(CharCodes(x), CharCodes(y)) }

  predicate EventKeyLess(x: (string, int), y: (string, int)) {
    TextLess(x.0, y.0) || (x.0 == y.0 && x.1 < y.1)
  }

  predicate ArrivalLess(x: (int, Bytes), y: (int, Bytes)) {
    x.0 < y.0 || (x.0 == y.0 && LexLess(Octets(x.1), Octets(y.1)))
  }

  /** The two agree before position i, where a has ended or has the smaller element. */
  predicate SmallerFrom(a: seq<int>, b: seq<int>, i: nat) {
    i <= |a| && i < |b| && a[..i] == b[..i] && (i == |a| || a[i] < b[i])
  }

  lemma {:induction false} LexLessIff(a: seq<int>, b: seq<int>)
    ensures LexLess(a, b) <==> exists i: nat :: SmallerFrom(a, b, i)
  {
    if b == [] {
    } else if a == [] || a[0] < b[0] {
      assert SmallerFrom(a, b, 0);
    } else {
      LexLessIff(a[1..], b[1..]);
      assert a == [a[0]] + a[1..] && b == [b[0]] + b[1..];
      if LexLess(a, b) {
        var i: nat :| SmallerFrom(a[1..], b[1..], i);
        assert a[..i + 1] == [a[0]] + a[1..][..i] && b[..i + 1] == [b[0]] + b[1..][..i];
        assert SmallerFrom(a, b, i + 1);
      }
      if i: nat :| SmallerFrom(a, b, i) {
        assert i > 0 ==> a[0] == a[..i][0] && b[0] == b[..i][0];
        assert i > 0 ==> a[1..][..i - 1] == a[..i][1..] && b[1..][..i - 1] == b[..i][1..];
        assert i > 0 ==> SmallerFrom(a[1..], b[1..], i - 1);
      }
    }
  }

  /** Texts are ordered by the first character in which they differ, a text before what continues it. */
  lemma TextLessIff(x: string, y: string)
    ensures TextLess(x, y) <==> exists i: nat {:trigger x[..i]} :: i <= |x| && i < |y| && x[..i] == y[..i] && (i == |x| || x[i] < y[i])
  {
    var a, b := CharCodes(x), CharCodes(y);
    LexLessIff(a, b);
    forall i: nat | i <= |x| && i <= |y| ensures a[..i] == b[..i] <==> x[..i] == y[..i] {
      assert CharCodes(x[..i]) == a[..i] && CharCodes(y[..i]) == b[..i];
      if a[..i] == b[..i] {
        CharCodesInjective(x[..i], y[..i]);
      }
    }
    if i: nat :| SmallerFrom(a, b, i) {
      assert x[..i] == y[..i];
    }
    if i: nat {:trigger x[..i]} :| i <= |x| && i < |y| && x[..i] == y[..i] && (i == |x| || x[i] < y[i]) {
      assert SmallerFrom(a, b, i);
    }
  }

  /** Arrivals are ordered by time, and at the same time by the first octet in which the hashes differ. */
  lemma ArrivalLessIff(x: (int, Bytes), y: (int, Bytes))
    ensures ArrivalLess(x, y) <==>
              x.0 < y.0 || (x.0 == y.0 && exists i: nat {:trigger x.1[..i]} ::
                i <= |x.1| && i < |y.1| && x.1[..i] == y.1[..i] && (i == |x.1| || x.1[i] < y.1[i]))
  {
    var a, b := Octets(x.1), Octets(y.1);
    LexLessIff(a, b);
    forall i: nat | i <= |a| && i <= |b| ensures a[..i] == b[..i] <==> x.1[..i] == y.1[..i] {
      assert Octets(x.1[..i]) == a[..i] && Octets(y.1[..i]) == b[..i];
      if a[..i] == b[..i] {
        OctetsInjective(x.1[..i], y.1[..i]);
      }
    }
    if i: nat :| SmallerFrom(a, b, i) {
      assert x.1[..i] == y.1[..i];
    }
    if i: nat {:trigger x.1[..i]} :| i <= |x.1| && i < |y.1| && x.1[..i] == y.1[..i] && (i == |x.1| || x.1[i] < y.1[i]) {
      assert SmallerFrom(a, b, i);
    }
  }

  lemma CharCodesInjective(x: string, y: string)
    requires CharCodes(x) == CharCodes(y)
    ensures x == y
  {
    assert |x| == |y|;
    forall i | 0 <= i < |x| ensures x[i] == y[i] {
      assert CharCodes(x)[i] == CharCodes(y)[i];
    }
  }

  lemma OctetsInjective(x: Bytes, y: Bytes)
    requires Octets(x) == Octets(y)
    ensures x == y
  {
    assert |x| == |y|;
    forall i | 0 <= i < |x| ensures x[i] == y[i] {
      assert Octets(x)[i] == Octets(y)[i];
    }
  }

  lemma IntOrder()
    ensures StrictOrder(IntLess)
  {
  }

  lemma TextOrder()
    ensures StrictOrder(TextLess)
  {
    forall x ensures !TextLess(x, x) {
      LexIrreflexive(CharCodes(x));
    }
    forall x, y, z | TextLess(x, y) && TextLess(y, z) ensures TextLess(x, z) {
      LexTransitive(CharCodes(x), CharCodes(y), CharCodes(z));
    }
    forall x, y | x != y ensures TextLess(x, y) || TextLess(y, x) {
      if CharCodes(x) == CharCodes(y) {
        CharCodesInjective(x, y);
      }
      LexTotal(CharCodes(x), CharCodes(y));
    }
  }

  lemma EventKeyOrder()
    ensures StrictOrder(EventKeyLess)
  {
    TextOrder();
    forall x, y, z | EventKeyLess(x, y) && EventKeyLess(y, z) ensures EventKeyLess(x, z) {
      if TextLess(x.0, y.0) && TextLess(y.0, z.0) {
        assert TextLess(x.0, z.0);
      }
    }
    forall x ensures !EventKeyLess(x, x) {
      assert !TextLess(x.0, x.0);
    }
  }

  lemma ArrivalOrder()
    ensures StrictOrder(ArrivalLess)
  {
    forall x ensures !ArrivalLess(x, x) {
      LexIrreflexive(Octets(x.1));
    }
    forall x, y, z | ArrivalLess(x, y) && ArrivalLess(y, z) ensures ArrivalLess(x, z) {
      if x.0 == y.0 == z.0 {
        LexTransitive(Octets(x.1), Octets(y.1), Octets(z.1));
      }
    }
    forall x, y | x != y ensures ArrivalLess(x, y) || ArrivalLess(y, x) {
      if x.0 == y.0 {
        if Octets(x.1) == Octets(y.1) {
          OctetsInjective(x.1, y.1);
        }
        LexTotal(Octets(x.1), Octets(y.1));
      }
    }
  }
}
