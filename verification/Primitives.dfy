/** Byte strings, digests, results and the notion of a hash collision. */
module Primitives {

  newtype byte = x: int | 0 <= x < 256

  type Bytes = seq<byte>

  /** What SHA-256 returns: 32 octets. */
  type Digest = d: Bytes | |d| == 32 witness seq(32, _ => 0)

  type Hash = Bytes -> Digest

  const ZERO_HASH: Digest := [0, 0, 0, 0, 0, 0, 0, 0, 0, 0, 0, 0, 0, 0, 0, 0, 0, 0, 0, 0, 0, 0, 0, 0, 0, 0, 0, 0, 0, 0, 0, 0]

  datatype Option<+T> = None | Some(value: T)

  datatype Result<+T, +E> = Ok(value: T) | Err(error: E)

  /** The octets of an ASCII literal. */
  function Ascii(s: string): Bytes {
    seq(|s|, i requires 0 <= i < |s| => (s[i] as int % 256) as byte)
  }

  /**
   * Two different members of `inputs` have the same digest. A 32-octet hash has
   * collisions somewhere, so every result below names the finite set of byte
   * strings that were actually hashed and speaks of a collision inside that set.
   */
  ghost predicate CollisionIn(sha: Hash, inputs: set<Bytes>) {
    exists x, y :: x in inputs && y in inputs && x != y && sha(x) == sha(y)
  }

  lemma NoCollision(sha: Hash, inputs: set<Bytes>, x: Bytes, y: Bytes)
    requires !CollisionIn(sha, inputs)
    requires x in inputs && y in inputs && sha(x) == sha(y)
    ensures x == y
  {
  }
}
