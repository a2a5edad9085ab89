/** Canonical encoding, signed events and block headers. */
module Models {
  import opened Primitives

  datatype Value =
    | Null
    | Bool(flag: bool)
    | Int(number: int)
    | Text(text: string)
    | Blob(octets: Bytes)
    | Float(fraction: real)
    | List(items: seq<Value>)
    | Map(fields: map<string, Value>)

  /** Floating-point values have no canonical encoding here. */
  predicate Supported(v: Value) {
    match v
    case Float(_) => false
    case List(items) => forall i | 0 <= i < |items| :: Supported(items[i])
    case Map(fields) => forall k | k in fields :: Supported(fields[k])
    case _ => true
  }

  /**
   * The foreign parts: SHA-256, Ed25519 verification (key, signature, message)
   * and the CBOR encoder and decoder.
   */
  datatype Suite = Suite(
    sha: Hash,
    verify: (Bytes, Bytes, Bytes) -> bool,
    encode: Value -> Bytes,
    decode: Bytes -> Option<Value>)

  /**
   * What is assumed of them: decoding undoes canonical encoding, and a signature
   * that verifies has 64 octets (sections 5.1.6 and 5.1.7 of RFC 8032).
   */
  ghost predicate Lawful(s: Suite) {
    && (forall v :: Supported(v) ==> s.decode(s.encode(v)) == Some(v))
    && (forall key, signature, message :: s.verify(key, signature, message) ==> |signature| == 64)
  }

  /** An Ed25519 key pair: what its private half can do. */
  datatype KeyPair = KeyPair(publicKey: Bytes, sign: Bytes -> Bytes)

  /** The key pair works: what it signs verifies. */
  ghost predicate KeyWorks(s: Suite, key: KeyPair) {
    |key.publicKey| == 32 && forall m :: s.verify(key.publicKey, key.sign(m), m)
  }

  datatype EncodingError = UnsupportedValue | InvalidCbor | NotCanonical

  function Dumps(s: Suite, v: Value): Result<Bytes, EncodingError> {
    if Supported(v) then Ok(s.encode(v)) else Err(UnsupportedValue)
  }

  /** Decoding re-encodes what it read and compares, so only canonical input is accepted. */
  function Loads(s: Suite, data: Bytes): (r: Result<Value, EncodingError>)
    ensures r.Ok? ==> Supported(r.value) && s.encode(r.value) == data
  {
    match s.decode(data)
    case None => Err(InvalidCbor)
    case Some(v) =>
      match Dumps(s, v)
      case Err(e) => Err(e)
      case Ok(canonical) => if canonical == data then Ok(v) else Err(NotCanonical)
  }

  /** On canonical data the two directions are inverse, and nothing else loads. */
  lemma LoadsInvertsDumps(s: Suite, v: Value, data: Bytes)
    requires Lawful(s)
    ensures Dumps(s, v) == Ok(data) <==> Loads(s, data) == Ok(v)
  {
  }

  datatype SignedEvent = SignedEvent(
    deviceId: string,
    sequence: int,
    deviceTimeMs: int,
    eventType: string,
    payload: map<string, Value>,
    previousEventHash: Bytes,
    signature: Bytes,
    version: int)

  function UnsignedMap(e: SignedEvent): Value {
    Map(map[
      "device_id" := Text(e.deviceId),
      "device_time_ms" := Int(e.deviceTimeMs),
      "event_type" := Text(e.eventType),
      "payload" := Map(e.payload),
      "previous_event_hash" := Blob(e.previousEventHash),
      "sequence" := Int(e.sequence),
      "version" := Int(e.version)])
  }

  /** Whether the event has signing bytes at all; otherwise computing them raises. */
  predicate Encodable(e: SignedEvent) { Supported(Map(e.payload)) }

  function SigningBytes(s: Suite, e: SignedEvent): Bytes { s.encode(UnsignedMap(e)) }

  function EventInput(unsigned: Bytes, signature: Bytes): Bytes {
    Ascii("edgechaindb:event:v1") + [0] + unsigned + signature
  }

  function EventHash(s: Suite, e: SignedEvent): Digest {
    s.sha(EventInput(SigningBytes(s, e), e.signature))
  }

  lemma UnsignedMapSupported(e: SignedEvent)
    ensures Supported(UnsignedMap(e)) <==> Encodable(e)
  {
    var fields := UnsignedMap(e).fields;
    assert fields["payload"] == Map(e.payload);
  }

  /** Everything but the signature can be read back from the signing bytes. */
  lemma SigningBytesInjective(s: Suite, a: SignedEvent, b: SignedEvent)
    requires Lawful(s) && Encodable(a) && Encodable(b)
    requires SigningBytes(s, a) == SigningBytes(s, b)
    ensures a == b.(signature := a.signature)
  {
    UnsignedMapSupported(a);
    UnsignedMapSupported(b);
    assert UnsignedMap(a) == UnsignedMap(b);
    UnsignedTextFields(a);
    UnsignedTextFields(b);
    UnsignedNumberFields(a);
    UnsignedNumberFields(b);
  }

  lemma UnsignedTextFields(e: SignedEvent)
    ensures UnsignedMap(e).fields["device_id"] == Text(e.deviceId)
    ensures UnsignedMap(e).fields["event_type"] == Text(e.eventType)
    ensures UnsignedMap(e).fields["payload"] == Map(e.payload)
    ensures UnsignedMap(e).fields["sequence"] == Int(e.sequence)
  {
  }

  lemma UnsignedNumberFields(e: SignedEvent)
    ensures UnsignedMap(e).fields["device_time_ms"] == Int(e.deviceTimeMs)
    ensures UnsignedMap(e).fields["previous_event_hash"] == Blob(e.previousEventHash)
    ensures UnsignedMap(e).fields["version"] == Int(e.version)
  {
  }

  /** With 64-octet signatures the hashed bytes split in only one way. */
  lemma EventInputInjective(u: Bytes, a: Bytes, v: Bytes, b: Bytes)
    requires |a| == |b| && EventInput(u, a) == EventInput(v, b)
    ensures u == v && a == b
  {
    var prefix := Ascii("edgechaindb:event:v1") + [0];
    var x, y := EventInput(u, a), EventInput(v, b);
    assert x == prefix + u + a && y == prefix + v + b;
    assert |x| == |prefix| + |u| + |a| && |y| == |prefix| + |v| + |b|;
    assert u == x[|prefix|..|x| - |a|] && v == y[|prefix|..|y| - |b|];
    assert a == x[|x| - |a|..] && b == y[|y| - |b|..];
  }

  datatype BlockHeader = BlockHeader(
    height: int,
    previousHash: Bytes,
    createdAtMs: int,
    merkleRoot: Bytes,
    eventCount: int,
    proposerId: string,
    authoritySetHash: Bytes,
    quorumThreshold: int,
    policyHash: Bytes,
    version: int)

  function HeaderMap(h: BlockHeader): Value {
    Map(map[
      "authority_set_hash" := Blob(h.authoritySetHash),
      "created_at_ms" := Int(h.createdAtMs),
      "event_count" := Int(h.eventCount),
      "height" := Int(h.height),
      "merkle_root" := Blob(h.merkleRoot),
      "policy_hash" := Blob(h.policyHash),
      "previous_hash" := Blob(h.previousHash),
      "proposer_id" := Text(h.proposerId),
      "quorum_threshold" := Int(h.quorumThreshold),
      "version" := Int(h.version)])
  }

  function HeaderInput(s: Suite, h: BlockHeader): Bytes {
    Ascii("edgechaindb:block:v1") + [0] + s.encode(HeaderMap(h))
  }

  function HeaderHash(s: Suite, h: BlockHeader): Digest { s.sha(HeaderInput(s, h)) }

  lemma HeaderInputInjective(s: Suite, a: BlockHeader, b: BlockHeader)
    requires Lawful(s) && HeaderInput(s, a) == HeaderInput(s, b)
    ensures a == b
  {
    var prefix := Ascii("edgechaindb:block:v1") + [0];
    assert s.encode(HeaderMap(a)) == HeaderInput(s, a)[|prefix|..];
    assert s.encode(HeaderMap(b)) == HeaderInput(s, b)[|prefix|..];
    HeaderMapSupported(a);
    HeaderMapSupported(b);
    assert HeaderMap(a) == HeaderMap(b);
    HeaderHashFields(a);
    HeaderHashFields(b);
    HeaderNumberFields(a);
    HeaderNumberFields(b);
    HeaderOtherFields(a);
    HeaderOtherFields(b);
  }

  lemma HeaderMapSupported(h: BlockHeader)
    ensures Supported(HeaderMap(h))
  {
  }

  lemma HeaderHashFields(h: BlockHeader)
    ensures HeaderMap(h).fields["authority_set_hash"] == Blob(h.authoritySetHash)
    ensures HeaderMap(h).fields["merkle_root"] == Blob(h.merkleRoot)
    ensures HeaderMap(h).fields["policy_hash"] == Blob(h.policyHash)
    ensures HeaderMap(h).fields["previous_hash"] == Blob(h.previousHash)
  {
  }

  lemma HeaderNumberFields(h: BlockHeader)
    ensures HeaderMap(h).fields["created_at_ms"] == Int(h.createdAtMs)
    ensures HeaderMap(h).fields["event_count"] == Int(h.eventCount)
    ensures HeaderMap(h).fields["height"] == Int(h.height)
  {
  }

  lemma HeaderOtherFields(h: BlockHeader)
    ensures HeaderMap(h).fields["proposer_id"] == Text(h.proposerId)
    ensures HeaderMap(h).fields["quorum_threshold"] == Int(h.quorumThreshold)
    ensures HeaderMap(h).fields["version"] == Int(h.version)
  {
  }

  /** An authority snapshot, in the order of the authority ids. */
  type Snapshot = seq<(string, Bytes)>

  function AuthorityEntry(a: (string, Bytes)): Value {
    Map(map["authority_id" := Text(a.0), "public_key" := Blob(a.1)])
  }

  function SnapshotValue(authorities: Snapshot): Value {
    List(seq(|authorities|, i requires 0 <= i < |authorities| => AuthorityEntry(authorities[i])))
  }

  function SnapshotHash(s: Suite, authorities: Snapshot): Digest {
    s.sha(s.encode(SnapshotValue(authorities)))
  }

  lemma SnapshotValueInjective(s: Suite, a: Snapshot, b: Snapshot)
    requires Lawful(s) && s.encode(SnapshotValue(a)) == s.encode(SnapshotValue(b))
    ensures a == b
  {
    var x, y := SnapshotValue(a), SnapshotValue(b);
    forall i | 0 <= i < |a| ensures Supported(AuthorityEntry(a[i])) {}
    forall i | 0 <= i < |b| ensures Supported(AuthorityEntry(b[i])) {}
    assert Supported(x) && Supported(y);
    assert x.items == y.items;
    assert |a| == |x.items| == |y.items| == |b|;
    forall i | 0 <= i < |a| ensures a[i] == b[i] {
      assert x.items[i] == AuthorityEntry(a[i]) && y.items[i] == AuthorityEntry(b[i]);
      assert AuthorityEntry(a[i]).fields["authority_id"] == AuthorityEntry(b[i]).fields["authority_id"];
      assert AuthorityEntry(a[i]).fields["public_key"] == AuthorityEntry(b[i]).fields["public_key"];
    }
  }
}
