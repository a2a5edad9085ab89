/** The domain-separated Merkle tree: root, membership proof and proof check. */
module Merkle {
  import opened Primitives

  function LeafInput(value: Bytes): Bytes { [0] + value }

  function NodeInput(left: Bytes, right: Bytes): Bytes { [1] + left + right }

  function EmptyInput(): Bytes { [2] + Ascii("edgechaindb-empty-merkle-tree") }

  function Leaf(sha: Hash, value: Bytes): Digest { sha(LeafInput(value)) }

  function Node(sha: Hash, left: Bytes, right: Bytes): Digest { sha(NodeInput(left, right)) }

  function Leaves(sha: Hash, values: seq<Bytes>): (r: seq<Digest>)
    ensures |r| == |values|
  {
    seq(|values|, i requires 0 <= i < |values| => Leaf(sha, values[i]))
  }

  /** A level of odd length gets its last node a second time. */
  function Pad(level: seq<Digest>): (r: seq<Digest>)
    requires level != []
    ensures |r| == 2 * ((|level| + 1) / 2) && level <= r
    ensures |level| % 2 == 1 ==> r[|level|] == level[|level| - 1]
  {
    if |level| % 2 == 1 then level + [level[|level| - 1]] else level
  }

  /** What the i-th parent of a level of even length is the hash of. */
  function PairAt(level: seq<Digest>, i: nat): Bytes
    requires 2 * i + 1 < |level|
  {
    NodeInput(level[2 * i], level[2 * i + 1])
  }

  function Pairs(sha: Hash, level: seq<Digest>): (r: seq<Digest>)
    requires |level| % 2 == 0
    ensures |r| == |level| / 2
    ensures forall i :: 0 <= i < |r| ==> r[i] == sha(PairAt(level, i))
  {
    seq(|level| / 2, i requires 0 <= i < |level| / 2 => Node(sha, level[2 * i], level[2 * i + 1]))
  }

  function Up(sha: Hash, level: seq<Digest>): (r: seq<Digest>)
    requires level != []
    ensures |r| == (|level| + 1) / 2
  {
    Pairs(sha, Pad(level))
  }

  function Fold(sha: Hash, level: seq<Digest>): Digest
    requires level != []
    decreases |level|
  {
    if |level| == 1 then level[0] else Fold(sha, Up(sha, level))
  }

  function RootOf(sha: Hash, values: seq<Bytes>): Digest {
    if values == [] then sha(EmptyInput()) else Fold(sha, Leaves(sha, values))
  }

  method Root(sha: Hash, values: seq<Bytes>) returns (root: Digest)
    ensures root == RootOf(sha, values)
  {
    if values == [] {
      return sha(EmptyInput());
    }
    var level := Leaves(sha, values);
    while |level| > 1
      invariant level != []
      invariant Fold(sha, level) == RootOf(sha, values)
      decreases |level|
    {
      ghost var before := level;
      if |level| % 2 == 1 {
        level := level + [level[|level| - 1]];
      }
      level := Pairs(sha, level);
      assert level == Up(sha, before);
    }
    root := level[0];
  }

  /** `side` is free text in the wire form of a proof, so other values must be rejected. */
  datatype ProofStep = ProofStep(side: string, sibling: Bytes)

  datatype ProofError = IndexOutOfRange

  function StepAt(level: seq<Digest>, position: nat): ProofStep
    requires position < |level| && |level| % 2 == 0
  {
    if position % 2 == 0 then ProofStep("right", level[position + 1]) else ProofStep("left", level[position - 1])
  }

  function Steps(sha: Hash, level: seq<Digest>, position: nat): seq<ProofStep>
    requires position < |level|
    decreases |level|
  {
    if |level| == 1 then []
    else [StepAt(Pad(level), position)] + Steps(sha, Up(sha, level), position / 2)
  }

  function ProofOf(sha: Hash, values: seq<Bytes>, index: nat): seq<ProofStep>
    requires index < |values|
  {
    Steps(sha, Leaves(sha, values), index)
  }

  lemma EvenRoom(p: nat, n: nat)
    requires p < n && p % 2 == 0 && n % 2 == 0
    ensures p + 1 < n
  {
  }

  lemma StepsUnfold(sha: Hash, level: seq<Digest>, position: nat, done: seq<ProofStep>)
    requires |level| > 1 && position < |level|
    ensures done + Steps(sha, level, position)
         == done + [StepAt(Pad(level), position)] + Steps(sha, Up(sha, level), position / 2)
  {
  }

  method Proof(sha: Hash, values: seq<Bytes>, index: int) returns (r: Result<seq<ProofStep>, ProofError>)
    ensures r == if 0 <= index < |values| then Ok(ProofOf(sha, values, index)) else Err(IndexOutOfRange)
  {
    if index < 0 || index >= |values| {
      return Err(IndexOutOfRange);
    }
    var level := Leaves(sha, values);
    var position: nat := index;
    var steps: seq<ProofStep> := [];
    while |level| > 1
      invariant position < |level|
      invariant steps + Steps(sha, level, position) == ProofOf(sha, values, index)
      decreases |level|
    {
      ghost var before, done, here := level, steps, position;
      if |level| % 2 == 1 {
        level := level + [level[|level| - 1]];
      }
      assert level == Pad(before);
      var step;
      if position % 2 == 0 {
        EvenRoom(position, |level|);
        step := ProofStep("right", level[position + 1]);
      } else {
        step := ProofStep("left", level[position - 1]);
      }
      assert step == StepAt(level, here);
      steps := steps + [step];
      position := position / 2;
      level := Pairs(sha, level);
      StepsUnfold(sha, before, here, done);
    }
    assert steps + [] == steps;
    r := Ok(steps);
  }

  predicate KnownSide(step: ProofStep) { step.side == "left" || step.side == "right" }

  function Climb(sha: Hash, current: Digest, step: ProofStep): Digest
    requires KnownSide(step)
  {
    if step.side == "left" then Node(sha, step.sibling, current) else Node(sha, current, step.sibling)
  }

  function ClimbAll(sha: Hash, current: Digest, steps: seq<ProofStep>): Option<Digest>
    decreases |steps|
  {
    if steps == [] then Some(current)
    else if KnownSide(steps[0]) then ClimbAll(sha, Climb(sha, current, steps[0]), steps[1..])
    else None
  }

  predicate Accepts(sha: Hash, value: Bytes, steps: seq<ProofStep>, expectedRoot: Bytes) {
    ClimbAll(sha, Leaf(sha, value), steps) == Some(expectedRoot)
  }

  method Verify(sha: Hash, value: Bytes, steps: seq<ProofStep>, expectedRoot: Bytes) returns (ok: bool)
    ensures ok <==> Accepts(sha, value, steps, expectedRoot)
  {
    var current := Leaf(sha, value);
    for i := 0 to |steps|
      invariant ClimbAll(sha, Leaf(sha, value), steps) == ClimbAll(sha, current, steps[i..])
    {
      var step := steps[i];
      assert steps[i..][0] == step && steps[i..][1..] == steps[i + 1..];
      if step.side == "left" {
        current := Node(sha, step.sibling, current);
      } else if step.side == "right" {
        current := Node(sha, current, step.sibling);
      } else {
        return false;
      }
    }
    ok := current == expectedRoot;
  }
}
