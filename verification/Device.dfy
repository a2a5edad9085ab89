/** The device's side of the chain: events are numbered, linked and signed one after another. */
module Device {
  import opened Primitives
  import opened Models
  import opened Store
  import opened LedgerOperations
  import opened Delivery

  datatype ClientError = BadDeviceId | BadCheckpoint | CannotSign

  /** The signed event that follows a checkpoint. */
  function NextEvent(s: Suite, key: KeyPair, id: string, sequence: int, previousHash: Bytes,
                     eventType: string, payload: map<string, Value>, timeMs: int): SignedEvent
  {
    var unsigned := SignedEvent(id, sequence + 1, timeMs, eventType, payload, previousHash, [], 1);
    unsigned.(signature := key.sign(SigningBytes(s, unsigned)))
  }

  /** The time an event carries: the one given, unless it is absent or zero. */
  function EventTime(deviceTimeMs: Option<int>, now: int): int {
    if deviceTimeMs.Some? && deviceTimeMs.value != 0 then deviceTimeMs.value else now
  }

  /** Numbered and linked after the checkpoint, with the given content. */
  predicate IsNext(e: SignedEvent, id: string, sequence: int, previousHash: Bytes, eventType: string, payload: map<string, Value>) {
    && e.version == 1 && e.deviceId == id && e.eventType == eventType && e.payload == payload
    && e.sequence == sequence + 1 && e.previousEventHash == previousHash
  }

  class DeviceClient {
    const deviceId: string
    const key: KeyPair
    var sequence: int
    var previousEventHash: Bytes

    constructor (deviceId: string, key: KeyPair)
      ensures this.deviceId == deviceId && this.key == key
      ensures sequence == 0 && previousEventHash == ZERO_HASH
    {
      this.deviceId, this.key := deviceId, key;
      sequence, previousEventHash := 0, ZERO_HASH;
    }

    static method Create(deviceId: string, key: KeyPair) returns (r: Result<DeviceClient, ClientError>)
      ensures r.Ok? <==> GoodName(deviceId)
      ensures r.Ok? ==> fresh(r.value) && r.value.deviceId == deviceId && r.value.key == key
      ensures r.Ok? ==> r.value.sequence == 0 && r.value.previousEventHash == ZERO_HASH
    {
      if deviceId == "" || |deviceId| > 128 {
        return Err(BadDeviceId);
      }
      var client := new DeviceClient(deviceId, key);
      r := Ok(client);
    }

    method Restore(sequence: int, previousEventHash: Bytes) returns (error: Option<ClientError>)
      modifies this
      ensures error.None? <==> sequence >= 0 && |previousEventHash| == 32
      ensures error.None? ==> this.sequence == sequence && this.previousEventHash == previousEventHash
      ensures error.Some? ==> unchanged(this)
    {
      if sequence < 0 || |previousEventHash| != 32 {
        return Some(BadCheckpoint);
      }
      this.sequence, this.previousEventHash := sequence, previousEventHash;
      error := None;
    }

    /** Nothing changes when the payload has no canonical encoding; otherwise the checkpoint moves to the new event. */
    method CreateEvent(s: Suite, eventType: string, payload: map<string, Value>, deviceTimeMs: Option<int>, now: int)
      returns (r: Result<SignedEvent, ClientError>)
      modifies this
      ensures r.Ok? <==> Supported(Map(payload))
      ensures r.Ok? ==> r.value == NextEvent(s, key, deviceId, old(sequence), old(previousEventHash), eventType, payload, EventTime(deviceTimeMs, now))
      ensures r.Ok? ==> IsNext(r.value, deviceId, old(sequence), old(previousEventHash), eventType, payload)
      ensures r.Ok? ==> r.value.signature == key.sign(SigningBytes(s, r.value))
      ensures r.Ok? ==> r.value.deviceTimeMs == if deviceTimeMs in {None, Some(0)} then now else deviceTimeMs.value
      ensures r.Ok? ==> sequence == old(sequence) + 1 && previousEventHash == EventHash(s, r.value)
      ensures r.Err? ==> unchanged(this)
    {
      var timeMs := if deviceTimeMs.Some? && deviceTimeMs.value != 0 then deviceTimeMs.value else now;
      var unsigned := SignedEvent(deviceId, sequence + 1, timeMs, eventType, payload, previousEventHash, [], 1);
      if !Encodable(unsigned) {
        return Err(CannotSign);
      }
      var signature := key.sign(SigningBytes(s, unsigned));
      var e := SignedEvent(deviceId, unsigned.sequence, unsigned.deviceTimeMs, eventType, payload, previousEventHash, signature, unsigned.version);
      sequence := e.sequence;
      previousEventHash := EventHash(s, e);
      r := Ok(e);
    }
  }

  /** The signature covers everything but itself. */
  lemma SigningBytesIgnoreSignature(s: Suite, e: SignedEvent, signature: Bytes)
    ensures SigningBytes(s, e.(signature := signature)) == SigningBytes(s, e)
  {
    assert UnsignedMap(e.(signature := signature)) == UnsignedMap(e);
  }

  lemma NextEventUnobjectionable(s: Suite, t: Tables, d: string, key: KeyPair, sequence: nat, previousHash: Bytes,
                                 eventType: string, payload: map<string, Value>, timeMs: int)
    requires d in t.devices && t.devices[d].status == Active && t.devices[d].publicKey == key.publicKey
    requires forall m :: s.verify(key.publicKey, key.sign(m), m)
    requires GoodName(eventType) && Supported(Map(payload))
    ensures Objection(s, t, NextEvent(s, key, d, sequence, previousHash, eventType, payload, timeMs)).None?
  {
    var unsigned := SignedEvent(d, sequence + 1, timeMs, eventType, payload, previousHash, [], 1);
    SigningBytesIgnoreSignature(s, unsigned, key.sign(SigningBytes(s, unsigned)));
  }

  lemma LinksAppend(s: Suite, chain: seq<SignedEvent>, links: seq<Link>, e: SignedEvent, l: Link)
    requires links == Links(s, chain) && l == LinkOf(s, e)
    ensures Links(s, chain + [e]) == links + [l]
  {
  }

  lemma ChainAppend(s: Suite, t: Tables, d: string, chain: seq<SignedEvent>, links: seq<Link>, e: SignedEvent, l: Link)
    requires SignedChain(s, t, d, chain, links) && l == LinkOf(s, e)
    requires e.deviceId == d && e.sequence == |chain| + 1 && e.previousEventHash == HashBefore(links, |links|)
    requires Objection(s, t, e).None?
    ensures SignedChain(s, t, d, chain + [e], links + [l])
  {
    LinksAppend(s, chain, links, e, l);
    var more := chain + [e];
    forall i | 0 <= i < |more| ensures ChainLink(s, t, d, links + [l], more[i], i) {
      if i < |chain| {
        assert ChainLink(s, t, d, links, chain[i], i);
      }
    }
  }

  /** Whatever an enrolled client signs next continues its chain, and the gateway has no objection to it. */
  lemma ClientExtendsChain(s: Suite, t: Tables, d: string, chain: seq<SignedEvent>, links: seq<Link>, e: SignedEvent,
                           key: KeyPair, eventType: string, payload: map<string, Value>, timeMs: int)
    requires SignedChain(s, t, d, chain, links)
    requires d in t.devices && t.devices[d].status == Active && t.devices[d].publicKey == key.publicKey
    requires forall m :: s.verify(key.publicKey, key.sign(m), m)
    requires GoodName(eventType) && Supported(Map(payload))
    requires e == NextEvent(s, key, d, |chain|, HashBefore(links, |links|), eventType, payload, timeMs)
    ensures SignedChain(s, t, d, chain + [e], links + [LinkOf(s, e)])
  {
    NextEventUnobjectionable(s, t, d, key, |chain|, HashBefore(links, |links|), eventType, payload, timeMs);
    ChainAppend(s, t, d, chain, links, e, LinkOf(s, e));
  }
}
