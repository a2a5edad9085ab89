/** What a Merkle root commits to, and what an accepted proof shows. */
module MerkleTheory {
  import opened Primitives
  import opened Merkle

  // ---------------------------------------------------------------------------
  // The shape of the tree
  // ---------------------------------------------------------------------------

  function Depth(n: nat): nat
    requires n > 0
  {
    if n == 1 then 0 else 1 + Depth((n + 1) / 2)
  }

  function Pow2(k: nat): (r: nat)
    ensures r > 0
  {
    if k == 0 then 1 else 2 * Pow2(k - 1)
  }

  /** The depth of the tree over n leaves is the logarithm of n to base 2, rounded up. */
  lemma {:induction false} DepthIsCeilLog2(n: nat)
    requires n > 0
    ensures n <= Pow2(Depth(n))
    ensures n > 1 ==> Pow2(Depth(n) - 1) < n
  {
    if n > 1 {
      DepthIsCeilLog2((n + 1) / 2);
    }
  }

  /** Which leaf sits at position j of the perfect tree that the padding completes. */
  function Source(n: nat, j: nat): (r: nat)
    requires n > 0
    ensures r < n
    decreases n
  {
    if n == 1 then 0
    else
      var child := 2 * Source((n + 1) / 2, j / 2) + j % 2;
      if child < n then child else n - 1
  }

  lemma {:induction false} SourceIsIdentity(n: nat, j: nat)
    requires j < n
    ensures Source(n, j) == j
    decreases n
  {
    if n > 1 {
      SourceIsIdentity((n + 1) / 2, j / 2);
    }
  }

  function At<T>(s: seq<T>, j: nat): T
    requires s != []
  {
    s[Source(|s|, j)]
  }

  function Width(n: nat): nat {
    if n == 0 then 0 else Pow2(Depth(n))
  }

  /** The list padded to the leaves of a perfect binary tree. */
  function Expand<T>(s: seq<T>): (r: seq<T>)
    ensures |r| == Width(|s|)
    ensures forall j :: 0 <= j < |r| ==> r[j] == At(s, j)
  {
    seq(Width(|s|), j requires 0 <= j < Width(|s|) => At(s, j))
  }

  /** Padding only appends, and only repeats elements that are already there. */
  lemma ExpandExtends<T>(s: seq<T>)
    ensures s <= Expand(s)
    ensures forall j :: 0 <= j < |Expand(s)| ==> Expand(s)[j] in s
  {
    if s != [] {
      DepthIsCeilLog2(|s|);
      forall j | 0 <= j < |s| ensures Expand(s)[j] == s[j] {
        SourceIsIdentity(|s|, j);
      }
    }
  }

  function Sibling(n: nat, p: nat): nat
    requires n > 0
  {
    if 2 * p + 1 < n then 2 * p + 1 else n - 1
  }

  /** Positions 2j and 2j + 1 hold the children of position j one level up. */
  lemma AtChildren<T>(s: seq<T>, j: nat)
    requires |s| > 1
    ensures 2 * Source((|s| + 1) / 2, j) < |s|
    ensures At(s, 2 * j) == s[2 * Source((|s| + 1) / 2, j)]
    ensures At(s, 2 * j + 1) == s[Sibling(|s|, Source((|s| + 1) / 2, j))]
  {
    assert (2 * j) / 2 == j && (2 * j + 1) / 2 == j;
  }

  /** A parent is the hash of its left child and of the right child or, failing that, its copy. */
  lemma ParentOf(sha: Hash, level: seq<Digest>, p: nat)
    requires |level| > 1 && p < (|level| + 1) / 2
    ensures Up(sha, level)[p] == Node(sha, level[2 * p], level[Sibling(|level|, p)])
    ensures NodeInput(level[2 * p], level[Sibling(|level|, p)]) in FoldInputs(sha, level)
  {
    var pad := Pad(level);
    assert pad[2 * p] == level[2 * p] && pad[2 * p + 1] == level[Sibling(|level|, p)];
    assert PairAt(pad, p) in PairInputs(pad);
  }

  lemma ExpandedPair(sha: Hash, level: seq<Digest>, j: nat)
    requires |level| > 1
    ensures At(Up(sha, level), j) == Node(sha, At(level, 2 * j), At(level, 2 * j + 1))
    ensures NodeInput(At(level, 2 * j), At(level, 2 * j + 1)) in FoldInputs(sha, level)
  {
    AtChildren(level, j);
    ParentOf(sha, level, Source((|level| + 1) / 2, j));
  }

  // ---------------------------------------------------------------------------
  // The byte strings that computing a root hashes
  // ---------------------------------------------------------------------------

  ghost function PairInputs(level: seq<Digest>): set<Bytes>
    requires |level| % 2 == 0
  {
    set i | 0 <= i < |level| / 2 :: PairAt(level, i)
  }

  ghost function FoldInputs(sha: Hash, level: seq<Digest>): set<Bytes>
    requires level != []
    decreases |level|
  {
    if |level| == 1 then {} else PairInputs(Pad(level)) + FoldInputs(sha, Up(sha, level))
  }

  ghost function RootInputs(sha: Hash, values: seq<Bytes>): set<Bytes> {
    if values == [] then {EmptyInput()}
    else (set v | v in values :: LeafInput(v)) + FoldInputs(sha, Leaves(sha, values))
  }

  lemma NodeInputInjective(a: Bytes, b: Bytes, c: Bytes, d: Bytes)
    requires NodeInput(a, b) == NodeInput(c, d) && |a| == |c|
    ensures a == c && b == d
  {
    var x, y := NodeInput(a, b), NodeInput(c, d);
    assert a == x[1..1 + |a|] && b == x[1 + |a|..];
    assert c == y[1..1 + |c|] && d == y[1 + |c|..];
  }

  lemma LeafInputInjective(a: Bytes, b: Bytes)
    requires LeafInput(a) == LeafInput(b)
    ensures a == b
  {
    assert a == LeafInput(a)[1..] && b == LeafInput(b)[1..];
  }

  lemma InputsOfDifferentKinds(a: Bytes, l: Bytes, r: Bytes)
    ensures LeafInput(a) != NodeInput(l, r) && LeafInput(a) != EmptyInput() && NodeInput(l, r) != EmptyInput()
  {
    assert LeafInput(a)[0] == 0 && NodeInput(l, r)[0] == 1 && EmptyInput()[0] == 2;
  }

  // ---------------------------------------------------------------------------
  // Roots of lists are equal exactly when the padded lists are
  // ---------------------------------------------------------------------------

  lemma EqualPairs(sha: Hash, a: seq<Digest>, b: seq<Digest>, k: nat, inputs: set<Bytes>)
    requires |a| > 1 && |b| > 1 && !CollisionIn(sha, inputs)
    requires FoldInputs(sha, a) <= inputs && FoldInputs(sha, b) <= inputs
    requires At(Up(sha, a), k) == At(Up(sha, b), k)
    ensures At(a, 2 * k) == At(b, 2 * k) && At(a, 2 * k + 1) == At(b, 2 * k + 1)
  {
    ExpandedPair(sha, a, k);
    ExpandedPair(sha, b, k);
    NoCollision(sha, inputs, NodeInput(At(a, 2 * k), At(a, 2 * k + 1)), NodeInput(At(b, 2 * k), At(b, 2 * k + 1)));
    NodeInputInjective(At(a, 2 * k), At(a, 2 * k + 1), At(b, 2 * k), At(b, 2 * k + 1));
  }

  lemma EqualUpsEqualExpansions(sha: Hash, a: seq<Digest>, b: seq<Digest>, inputs: set<Bytes>)
    requires |a| > 1 && |b| > 1 && !CollisionIn(sha, inputs) && Width(|a|) == Width(|b|)
    requires FoldInputs(sha, a) <= inputs && FoldInputs(sha, b) <= inputs
    requires forall k :: 0 <= k && 2 * k < Width(|a|) ==> At(Up(sha, a), k) == At(Up(sha, b), k)
    ensures Expand(a) == Expand(b)
  {
    var width := Width(|a|);
    forall j: nat | j < width ensures At(a, j) == At(b, j) {
      var k, odd := Halve(j);
      EqualPairs(sha, a, b, k, inputs);
    }
  }

  lemma Halve(j: nat) returns (k: nat, odd: bool)
    ensures j == if odd then 2 * k + 1 else 2 * k
  {
    k, odd := j / 2, j % 2 == 1;
  }

  lemma EqualExpansionsEqualUps(sha: Hash, a: seq<Digest>, b: seq<Digest>)
    requires |a| > 1 && |b| > 1 && Expand(a) == Expand(b)
    requires Width(|a|) == 2 * Width(|Up(sha, a)|) && Width(|b|) == 2 * Width(|Up(sha, b)|)
    ensures Expand(Up(sha, a)) == Expand(Up(sha, b))
  {
    forall k: nat | k < Width(|Up(sha, a)|) ensures At(Up(sha, a), k) == At(Up(sha, b), k) {
      ExpandedPair(sha, a, k);
      ExpandedPair(sha, b, k);
      assert Expand(a)[2 * k] == Expand(b)[2 * k] && Expand(a)[2 * k + 1] == Expand(b)[2 * k + 1];
    }
  }

  lemma WidthDoubles(n: nat)
    requires n > 1
    ensures Width(n) == 2 * Width((n + 1) / 2)
  {
  }

  lemma {:induction false} EqualFoldsSameDepth(sha: Hash, a: seq<Digest>, b: seq<Digest>, inputs: set<Bytes>)
    requires a != [] && b != [] && Depth(|a|) == Depth(|b|)
    requires FoldInputs(sha, a) <= inputs && FoldInputs(sha, b) <= inputs
    requires !CollisionIn(sha, inputs)
    requires Fold(sha, a) == Fold(sha, b)
    ensures Expand(a) == Expand(b)
    decreases |a|
  {
    hide Up, NodeInput, At;
    if |a| == 1 {
      assert a == [a[0]] && b == [b[0]];
    } else {
      var x, y := Up(sha, a), Up(sha, b);
      EqualFoldsSameDepth(sha, x, y, inputs);
      WidthDoubles(|a|);
      assert forall k :: 0 <= k < Width(|x|) ==> Expand(x)[k] == Expand(y)[k];
      EqualUpsEqualExpansions(sha, a, b, inputs);
    }
  }

  lemma {:induction false} EqualExpansionsFold(sha: Hash, a: seq<Digest>, b: seq<Digest>)
    requires a != [] && b != [] && Depth(|a|) == Depth(|b|)
    requires Expand(a) == Expand(b)
    ensures Fold(sha, a) == Fold(sha, b)
    decreases |a|
  {
    if |a| == 1 {
      assert a[0] == Expand(a)[0] && b[0] == Expand(b)[0];
    } else {
      var x, y := Up(sha, a), Up(sha, b);
      WidthDoubles(|a|);
      WidthDoubles(|b|);
      EqualExpansionsEqualUps(sha, a, b);
      EqualExpansionsFold(sha, x, y);
    }
  }

  lemma FirstPair(sha: Hash, level: seq<Digest>)
    requires |level| > 1
    ensures PairAt(Pad(level), 0) == NodeInput(level[0], level[1]) && PairAt(Pad(level), 0) in PairInputs(Pad(level))
  {
    hide NodeInput;
    assert Pad(level)[0] == level[0] && Pad(level)[1] == level[1];
  }

  /** A level above the leaves starts with the hash of a node. */
  lemma UpStartsWithNode(sha: Hash, level: seq<Digest>)
    requires |level| > 1
    ensures Up(sha, level)[0] == sha(NodeInput(level[0], level[1]))
    ensures NodeInput(level[0], level[1]) in FoldInputs(sha, level)
  {
    hide NodeInput, Pad, PairAt, PairInputs;
    FirstPair(sha, level);
    assert Up(sha, level)[0] == sha(PairAt(Pad(level), 0));
  }

  lemma LeafIsNotNode(sha: Hash, inputs: set<Bytes>, value: Bytes, l: Bytes, r: Bytes)
    requires LeafInput(value) in inputs && NodeInput(l, r) in inputs && !CollisionIn(sha, inputs)
    ensures sha(LeafInput(value)) != sha(NodeInput(l, r))
  {
    InputsOfDifferentKinds(value, l, r);
  }

  lemma {:induction false} UnequalDepths(sha: Hash, a: seq<Bytes>, b: seq<Digest>, inputs: set<Bytes>)
    requires a != [] && b != [] && RootInputs(sha, a) <= inputs && FoldInputs(sha, b) <= inputs
    requires !CollisionIn(sha, inputs)
    requires Depth(|a|) < Depth(|b|)
    ensures RootOf(sha, a) != Fold(sha, b)
    decreases |b|
  {
    var leaves := Leaves(sha, a);
    var up := Up(sha, b);
    if Depth(|a|) < Depth(|up|) {
      UnequalDepths(sha, a, up, inputs);
    } else {
      UpStartsWithNode(sha, b);
      assert LeafInput(a[0]) in RootInputs(sha, a);
      LeafIsNotNode(sha, inputs, a[0], b[0], b[1]);
      ExpandExtends(leaves);
      ExpandExtends(up);
      assert Expand(leaves)[0] != Expand(up)[0];
      if RootOf(sha, a) == Fold(sha, b) {
        EqualFoldsSameDepth(sha, leaves, up, inputs);
      }
    }
  }

  lemma ExpandLeaves(sha: Hash, values: seq<Bytes>)
    ensures Expand(Leaves(sha, values)) == Leaves(sha, Expand(values))
  {
  }

  lemma EqualLeaves(sha: Hash, a: seq<Bytes>, b: seq<Bytes>, inputs: set<Bytes>)
    requires a != [] && b != []
    requires RootInputs(sha, a) <= inputs && RootInputs(sha, b) <= inputs && !CollisionIn(sha, inputs)
    requires Expand(Leaves(sha, a)) == Expand(Leaves(sha, b))
    ensures Expand(a) == Expand(b)
  {
    ExpandLeaves(sha, a);
    ExpandLeaves(sha, b);
    ExpandExtends(a);
    ExpandExtends(b);
    var x, y := Expand(a), Expand(b);
    assert |x| == |Leaves(sha, x)| == |Leaves(sha, y)| == |y|;
    forall j | 0 <= j < |x| ensures x[j] == y[j] {
      assert Leaves(sha, x)[j] == Leaves(sha, y)[j];
      assert LeafInput(x[j]) in RootInputs(sha, a) && LeafInput(y[j]) in RootInputs(sha, b);
      NoCollision(sha, inputs, LeafInput(x[j]), LeafInput(y[j]));
      LeafInputInjective(x[j], y[j]);
    }
  }

  lemma EmptyRootIsAlone(sha: Hash, b: seq<Bytes>, inputs: set<Bytes>)
    requires b != [] && EmptyInput() in inputs && RootInputs(sha, b) <= inputs && !CollisionIn(sha, inputs)
    ensures RootOf(sha, b) != RootOf(sha, [])
  {
    var leaves := Leaves(sha, b);
    var root := Fold(sha, leaves);
    FoldInTree(sha, leaves);
    TreeNodeOrigin(sha, leaves, root);
    if root in leaves {
      var i :| 0 <= i < |leaves| && leaves[i] == root;
      InputsOfDifferentKinds(b[i], [], []);
      assert LeafInput(b[i]) in RootInputs(sha, b);
    } else {
      var l: Digest, r: Digest :| NodeInput(l, r) in FoldInputs(sha, leaves) && root == Node(sha, l, r);
      InputsOfDifferentKinds([], l, r);
    }
  }

  /** The lists that a root cannot tell apart are exactly those with the same padding. */
  lemma RootsEqualIff(sha: Hash, a: seq<Bytes>, b: seq<Bytes>)
    requires !CollisionIn(sha, RootInputs(sha, a) + RootInputs(sha, b))
    ensures RootOf(sha, a) == RootOf(sha, b) <==> Expand(a) == Expand(b)
  {
    var inputs := RootInputs(sha, a) + RootInputs(sha, b);
    if a == [] || b == [] {
      if b != [] {
        EmptyRootIsAlone(sha, b, inputs);
      } else if a != [] {
        EmptyRootIsAlone(sha, a, inputs);
      }
    } else {
      var x, y := Leaves(sha, a), Leaves(sha, b);
      ExpandLeaves(sha, a);
      ExpandLeaves(sha, b);
      if Depth(|a|) < Depth(|b|) {
        UnequalDepths(sha, a, y, inputs);
        Pow2Increases(Depth(|a|), Depth(|b|));
      } else if Depth(|b|) < Depth(|a|) {
        UnequalDepths(sha, b, x, inputs);
        Pow2Increases(Depth(|b|), Depth(|a|));
      } else {
        if RootOf(sha, a) == RootOf(sha, b) {
          EqualFoldsSameDepth(sha, x, y, inputs);
          EqualLeaves(sha, a, b, inputs);
        }
        if Expand(a) == Expand(b) {
          EqualExpansionsFold(sha, x, y);
        }
      }
    }
  }

  lemma {:induction false} Pow2Increases(j: nat, k: nat)
    requires j < k
    ensures Pow2(j) < Pow2(k)
  {
    if j < k - 1 {
      Pow2Increases(j, k - 1);
    }
  }

  ghost predicate RepeatFree<T>(s: seq<T>) {
    forall i, j :: 0 <= i < j < |s| ==> s[i] != s[j]
  }

  lemma ShorterHasRepeats<T>(a: seq<T>, b: seq<T>)
    requires Expand(a) == Expand(b) && |a| < |b|
    ensures !RepeatFree(b)
  {
    ExpandExtends(a);
    ExpandExtends(b);
    var v := b[|a|];
    assert Expand(b)[|a|] == v && v in a;
    var k :| 0 <= k < |a| && a[k] == v;
    assert Expand(a)[k] == v && b[k] == v;
  }

  /**
   * A root pins down the list when the two lists have the same length, as the
   * event count in a block header forces, or when neither repeats an element, as
   * the UNIQUE event hash of the membership table forces.
   */
  lemma RootCommitsToList(sha: Hash, a: seq<Bytes>, b: seq<Bytes>)
    requires !CollisionIn(sha, RootInputs(sha, a) + RootInputs(sha, b))
    requires |a| == |b| || (RepeatFree(a) && RepeatFree(b))
    requires RootOf(sha, a) == RootOf(sha, b)
    ensures a == b
  {
    RootsEqualIff(sha, a, b);
    if |a| < |b| {
      ShorterHasRepeats(a, b);
    } else if |b| < |a| {
      ShorterHasRepeats(b, a);
    } else {
      ExpandExtends(a);
      ExpandExtends(b);
      assert a == Expand(a)[..|a|] && b == Expand(b)[..|b|];
    }
  }

  /** Without either condition the root does not pin the list down, whatever the hash. */
  lemma RootOfRepeatedTail(sha: Hash, a: Bytes, b: Bytes, c: Bytes)
    ensures RootOf(sha, [a, b, c]) == RootOf(sha, [a, b, c, c])
  {
    var x, y := [a, b, c], [a, b, c, c];
    assert Depth(3) == 2 && Depth(4) == 2 && Pow2(2) == 4 by {
      assert Depth(2) == 1 && Pow2(1) == 2;
    }
    forall j | 0 <= j < 4 ensures x[Source(3, j)] == y[Source(4, j)] {
      SourceIsIdentity(4, j);
      if j < 3 {
        SourceIsIdentity(3, j);
      }
    }
    assert Expand(x) == Expand(y);
    ExpandLeaves(sha, x);
    ExpandLeaves(sha, y);
    EqualExpansionsFold(sha, Leaves(sha, x), Leaves(sha, y));
  }

  // ---------------------------------------------------------------------------
  // Proofs: completeness
  // ---------------------------------------------------------------------------

  lemma StepReachesParent(sha: Hash, level: seq<Digest>, position: nat)
    requires |level| > 1 && position < |level|
    ensures KnownSide(StepAt(Pad(level), position))
    ensures Climb(sha, level[position], StepAt(Pad(level), position)) == Up(sha, level)[position / 2]
  {
    var pad, p := Pad(level), position / 2;
    assert pad[position] == level[position];
    assert Up(sha, level)[p] == Node(sha, pad[2 * p], pad[2 * p + 1]);
    assert position == 2 * p || position == 2 * p + 1;
  }

  lemma {:induction false} StepsReachRoot(sha: Hash, level: seq<Digest>, position: nat)
    requires position < |level|
    ensures ClimbAll(sha, level[position], Steps(sha, level, position)) == Some(Fold(sha, level))
    ensures |Steps(sha, level, position)| == Depth(|level|)
    decreases |level|
  {
    if |level| > 1 {
      var up := Up(sha, level);
      var step := StepAt(Pad(level), position);
      var rest := Steps(sha, up, position / 2);
      StepReachesParent(sha, level, position);
      StepsReachRoot(sha, up, position / 2);
      assert Steps(sha, level, position) == [step] + rest;
      assert ([step] + rest)[1..] == rest;
    }
  }

  /** Every generated proof is accepted and has one step per level of the tree. */
  lemma ProofIsAccepted(sha: Hash, values: seq<Bytes>, index: nat)
    requires index < |values|
    ensures Accepts(sha, values[index], ProofOf(sha, values, index), RootOf(sha, values))
    ensures |ProofOf(sha, values, index)| == Depth(|values|)
  {
    StepsReachRoot(sha, Leaves(sha, values), index);
  }

  // ---------------------------------------------------------------------------
  // Proofs: soundness
  // ---------------------------------------------------------------------------

  /** The byte strings that checking a proof hashes. */
  ghost function ClimbInputs(sha: Hash, current: Digest, steps: seq<ProofStep>): set<Bytes>
    decreases |steps|
  {
    if steps == [] || !KnownSide(steps[0]) then {}
    else
      var step := steps[0];
      {StepInput(current, step)} + ClimbInputs(sha, Climb(sha, current, step), steps[1..])
  }

  ghost function AcceptInputs(sha: Hash, value: Bytes, steps: seq<ProofStep>): set<Bytes> {
    {LeafInput(value)} + ClimbInputs(sha, Leaf(sha, value), steps)
  }

  /** The digests on all levels of the tree. */
  ghost function TreeNodes(sha: Hash, level: seq<Digest>): set<Digest>
    requires level != []
    decreases |level|
  {
    (set d | d in level) + if |level| == 1 then {} else TreeNodes(sha, Up(sha, level))
  }

  lemma {:induction false} FoldInTree(sha: Hash, level: seq<Digest>)
    requires level != []
    ensures Fold(sha, level) in TreeNodes(sha, level)
    decreases |level|
  {
    if |level| > 1 {
      FoldInTree(sha, Up(sha, level));
    }
  }

  /** A digest of the tree is on its lowest level, or is the hash of two digests of the tree. */
  lemma {:induction false} TreeNodeOrigin(sha: Hash, level: seq<Digest>, d: Digest)
    requires level != [] && d in TreeNodes(sha, level)
    ensures d in level ||
      exists l: Digest, r: Digest :: l in TreeNodes(sha, level) && r in TreeNodes(sha, level)
        && NodeInput(l, r) in FoldInputs(sha, level) && d == Node(sha, l, r)
    decreases |level|
  {
    if d !in level {
      var pad, up := Pad(level), Up(sha, level);
      TreeNodeOrigin(sha, up, d);
      if d in up {
        var i :| 0 <= i < |up| && up[i] == d;
        var l, r := pad[2 * i], pad[2 * i + 1];
        assert PairAt(pad, i) in PairInputs(pad);
        assert l in pad && r in pad && forall x :: x in pad ==> x in level;
        assert d == Node(sha, l, r);
      }
    }
  }

  function StepInput(current: Digest, step: ProofStep): Bytes {
    if step.side == "left" then NodeInput(step.sibling, current) else NodeInput(current, step.sibling)
  }

  lemma NotALeaf(sha: Hash, values: seq<Bytes>, inputs: set<Bytes>, l: Bytes, r: Bytes)
    requires values != [] && RootInputs(sha, values) <= inputs
    requires NodeInput(l, r) in inputs && !CollisionIn(sha, inputs)
    ensures sha(NodeInput(l, r)) !in Leaves(sha, values)
  {
    forall i | 0 <= i < |values| ensures Leaves(sha, values)[i] != sha(NodeInput(l, r)) {
      assert LeafInput(values[i]) in RootInputs(sha, values);
      LeafIsNotNode(sha, inputs, values[i], l, r);
    }
  }

  lemma StepFromTree(sha: Hash, values: seq<Bytes>, current: Digest, step: ProofStep, inputs: set<Bytes>)
    requires values != [] && RootInputs(sha, values) <= inputs && StepInput(current, step) in inputs
    requires !CollisionIn(sha, inputs) && KnownSide(step)
    requires Climb(sha, current, step) in TreeNodes(sha, Leaves(sha, values))
    ensures current in TreeNodes(sha, Leaves(sha, values))
  {
    var leaves := Leaves(sha, values);
    var next := Climb(sha, current, step);
    var input := StepInput(current, step);
    TreeNodeOrigin(sha, leaves, next);
    if step.side == "left" {
      NotALeaf(sha, values, inputs, step.sibling, current);
    } else {
      NotALeaf(sha, values, inputs, current, step.sibling);
    }
    var l: Digest, r: Digest :| l in TreeNodes(sha, leaves) && r in TreeNodes(sha, leaves)
      && NodeInput(l, r) in FoldInputs(sha, leaves) && next == Node(sha, l, r);
    NoCollision(sha, inputs, input, NodeInput(l, r));
    assert |input| == 1 + 32 + |step.sibling| && |NodeInput(l, r)| == 65;
    if step.side == "left" {
      NodeInputInjective(step.sibling, current, l, r);
    } else {
      NodeInputInjective(current, step.sibling, l, r);
    }
  }

  lemma {:induction false} ClimbStaysInTree(sha: Hash, values: seq<Bytes>, current: Digest, steps: seq<ProofStep>, inputs: set<Bytes>)
    requires values != [] && RootInputs(sha, values) + ClimbInputs(sha, current, steps) <= inputs
    requires !CollisionIn(sha, inputs)
    requires ClimbAll(sha, current, steps) == Some(RootOf(sha, values))
    ensures current in TreeNodes(sha, Leaves(sha, values))
    decreases |steps|
  {
    if steps == [] {
      FoldInTree(sha, Leaves(sha, values));
    } else {
      ClimbStaysInTree(sha, values, Climb(sha, current, steps[0]), steps[1..], inputs);
      StepFromTree(sha, values, current, steps[0], inputs);
    }
  }

  /**
   * An accepted proof, with siblings of any length and any number of steps, shows
   * that the value is a member, or two of the byte strings hashed collide.
   */
  lemma AcceptedProofIsSound(sha: Hash, values: seq<Bytes>, value: Bytes, steps: seq<ProofStep>)
    requires values != [] && Accepts(sha, value, steps, RootOf(sha, values))
    requires !CollisionIn(sha, RootInputs(sha, values) + AcceptInputs(sha, value, steps))
    ensures value in values
  {
    var inputs := RootInputs(sha, values) + AcceptInputs(sha, value, steps);
    var leaf := Leaf(sha, value);
    ClimbStaysInTree(sha, values, leaf, steps, inputs);
    TreeNodeOrigin(sha, Leaves(sha, values), leaf);
    forall l, r | NodeInput(l, r) in inputs ensures leaf != Node(sha, l, r) {
      LeafIsNotNode(sha, inputs, value, l, r);
    }
    LeafIsMember(sha, values, value, inputs);
  }

  lemma LeafIsMember(sha: Hash, values: seq<Bytes>, value: Bytes, inputs: set<Bytes>)
    requires values != [] && RootInputs(sha, values) <= inputs && LeafInput(value) in inputs
    requires !CollisionIn(sha, inputs) && Leaf(sha, value) in Leaves(sha, values)
    ensures value in values
  {
    var i :| 0 <= i < |values| && Leaves(sha, values)[i] == Leaf(sha, value);
    assert LeafInput(values[i]) in RootInputs(sha, values);
    NoCollision(sha, inputs, LeafInput(value), LeafInput(values[i]));
    LeafInputInjective(value, values[i]);
  }
  // ---------------------------------------------------------------------------
  // The tree read from its root down
  // ---------------------------------------------------------------------------

  /** The root of the perfect tree over 2^k leaves: the hash of the roots of its two halves. */
  function TopDown(sha: Hash, leaves: seq<Digest>, k: nat): Digest
    requires |leaves| == Pow2(k)
  {
    if k == 0 then leaves[0]
    else
      var half := Pow2(k - 1);
      sha([1] + TopDown(sha, leaves[..half], k - 1) + TopDown(sha, leaves[half..], k - 1))
  }

  lemma ParentAt(sha: Hash, level: seq<Digest>, i: nat)
    requires level != [] && |level| % 2 == 0 && 2 * i + 1 < |level|
    ensures i < |Up(sha, level)| && Up(sha, level)[i] == sha([1] + level[2 * i] + level[2 * i + 1])
  {
  }

  lemma UpOfHalves(sha: Hash, a: seq<Digest>, b: seq<Digest>)
    requires a != [] && b != [] && |a| % 2 == 0 && |b| % 2 == 0
    ensures Up(sha, a + b) == Up(sha, a) + Up(sha, b)
  {
    hide Up;
    var x, y, half := Up(sha, a + b), Up(sha, a) + Up(sha, b), |a| / 2;
    forall i | 0 <= i < |x| ensures x[i] == y[i] {
      ParentAt(sha, a + b, i);
      if i < half {
        ParentAt(sha, a, i);
      } else {
        ParentAt(sha, b, i - half);
        assert (a + b)[2 * i] == b[2 * (i - half)] && (a + b)[2 * i + 1] == b[2 * (i - half) + 1];
      }
    }
  }

  lemma TopDownOfHalves(sha: Hash, a: seq<Digest>, b: seq<Digest>, k: nat)
    requires |a| == Pow2(k) && |b| == Pow2(k)
    ensures |a + b| == Pow2(k + 1) && TopDown(sha, a + b, k + 1) == sha([1] + TopDown(sha, a, k) + TopDown(sha, b, k))
  {
    assert (a + b)[..Pow2(k)] == a && (a + b)[Pow2(k)..] == b;
  }

  lemma UpOfTwo(sha: Hash, level: seq<Digest>)
    requires |level| == 2
    ensures Up(sha, level) == [sha([1] + level[0] + level[1])]
  {
    assert Up(sha, level)[0] == sha(PairAt(level, 0));
  }

  lemma UpSize(sha: Hash, level: seq<Digest>, k: nat)
    requires |level| == Pow2(k + 1)
    ensures |Up(sha, level)| == Pow2(k)
  {
  }

  lemma {:induction false} TopDownOfUp(sha: Hash, level: seq<Digest>, k: nat)
    requires |level| == Pow2(k + 1)
    ensures |Up(sha, level)| == Pow2(k) && TopDown(sha, Up(sha, level), k) == TopDown(sha, level, k + 1)
    decreases k
  {
    hide Up, TopDown, Depth;
    UpSize(sha, level, k);
    if k == 0 {
      TwoLeaves(sha, level);
    } else {
      var a, b := level[..Pow2(k)], level[Pow2(k)..];
      assert level == a + b;
      UpOfHalves(sha, a, b);
      TopDownOfUp(sha, a, k - 1);
      TopDownOfUp(sha, b, k - 1);
      TopDownOfHalves(sha, Up(sha, a), Up(sha, b), k - 1);
      TopDownOfHalves(sha, a, b, k);
    }
  }

  lemma TwoLeaves(sha: Hash, level: seq<Digest>)
    requires |level| == 2
    ensures |Up(sha, level)| == 1 && TopDown(sha, Up(sha, level), 0) == TopDown(sha, level, 1)
  {
    UpOfTwo(sha, level);
    assert level == [level[0]] + [level[1]];
    TopDownOfHalves(sha, [level[0]], [level[1]], 0);
  }

  lemma {:induction false} FoldIsTopDown(sha: Hash, level: seq<Digest>, k: nat)
    requires |level| == Pow2(k)
    ensures Fold(sha, level) == TopDown(sha, level, k)
    decreases k
  {
    hide Up;
    if k > 0 {
      TopDownOfUp(sha, level, k - 1);
      FoldIsTopDown(sha, Up(sha, level), k - 1);
    }
  }

  lemma {:induction false} DepthOfPower(k: nat)
    ensures Depth(Pow2(k)) == k
  {
    if k > 0 {
      DepthOfPower(k - 1);
      assert (Pow2(k) + 1) / 2 == Pow2(k - 1);
    }
  }

  lemma ExpandTwice(level: seq<Digest>)
    requires level != []
    ensures Expand(Expand(level)) == Expand(level) && Depth(|Expand(level)|) == Depth(|level|)
  {
    DepthOfPower(Depth(|level|));
    ExpandExtends(Expand(level));
  }

  /**
   * The root computed level by level is the root of the perfect tree, read from the top down,
   * over the leaves of the list with its last node repeated as often as the odd levels do.
   */
  lemma RootIsTopDown(sha: Hash, values: seq<Bytes>, leaves: seq<Digest>)
    requires values != [] && |leaves| == |Expand(values)|
    requires forall i :: 0 <= i < |leaves| ==> leaves[i] == sha([0] + Expand(values)[i])
    ensures |leaves| == Pow2(Depth(|values|)) && RootOf(sha, values) == TopDown(sha, leaves, Depth(|values|))
  {
    var level := Leaves(sha, values);
    ExpandLeaves(sha, values);
    assert leaves == Expand(level);
    ExpandTwice(level);
    EqualExpansionsFold(sha, level, Expand(level));
    FoldIsTopDown(sha, leaves, Depth(|values|));
  }
}
