/** Whatever the order, repetition or loss of deliveries, a device's log is a prefix of its signed chain. */
module Delivery {
  import opened Primitives
  import opened Models
  import opened Store
  import opened Audit
  import opened Invariant
  import opened Growth
  import opened LedgerOperations
  import Interleaving

  /** What identifies a signed event once it is stored. */
  datatype Link = Link(hash: Bytes, unsigned: Bytes, signature: Bytes)

  function LinkOf(s: Suite, e: SignedEvent): Link { Link(EventHash(s, e), SigningBytes(s, e), e.signature) }

  function Links(s: Suite, chain: seq<SignedEvent>): (r: seq<Link>)
    ensures |r| == |chain|
    ensures forall i :: 0 <= i < |chain| ==> r[i] == LinkOf(s, chain[i])
  {
    seq(|chain|, i requires 0 <= i < |chain| => LinkOf(s, chain[i]))
  }

  function HashBefore(links: seq<Link>, i: nat): Bytes
    requires i <= |links|
  {
    if i == 0 then ZERO_HASH else links[i - 1].hash
  }

  /** Event i of a chain as the device d signs it: consecutive, linked by hash and free of objections. */
  predicate ChainLink(s: Suite, t: Tables, d: string, links: seq<Link>, e: SignedEvent, i: nat)
    requires i < |links|
  {
    && e.deviceId == d && e.sequence == i + 1
    && e.previousEventHash == HashBefore(links, i)
    && Objection(s, t, e).None?
  }

  ghost predicate SignedChain(s: Suite, t: Tables, d: string, chain: seq<SignedEvent>, links: seq<Link>) {
    && links == Links(s, chain)
    && forall i :: 0 <= i < |chain| ==> ChainLink(s, t, d, links, chain[i], i)
  }

  /** The event is stored, as event n of the device, with the bytes the device signed. */
  predicate Stored(t: Tables, d: string, l: Link, n: int) {
    && l.hash in t.events && EventKey(t, l.hash) == (d, n)
    && t.events[l.hash].unsigned == l.unsigned && t.events[l.hash].signature == l.signature
  }

  /** The gateway's log of the device is exactly the first k events of the chain, and its checkpoint is their end. */
  ghost predicate LogIs(t: Tables, d: string, links: seq<Link>, k: nat) {
    && k <= |links| && d in t.devices
    && t.devices[d].lastSequence == k && t.devices[d].lastEventHash == HashBefore(links, k)
    && (forall i :: 0 <= i < k ==> Stored(t, d, links[i], i + 1))
    && (forall e :: e in t.events && t.events[e].deviceId == d ==> exists i :: 0 <= i < k && e == links[i].hash)
  }

  // ---------------------------------------------------------------------------
  // One delivery
  // ---------------------------------------------------------------------------

  lemma LogPosition(t: Tables, d: string, links: seq<Link>, k: nat, e: Bytes)
    requires LogIs(t, d, links, k) && e in t.events && t.events[e].deviceId == d
    ensures 1 <= t.events[e].sequence <= k
  {
    var i :| 0 <= i < k && e == links[i].hash;
    assert Stored(t, d, links[i], i + 1);
  }

  /** What is stored with the bytes of an event is that event: the signed bytes name the device and the sequence. */
  lemma SameBytesSameKey(s: Suite, t: Tables, e: SignedEvent)
    requires Lawful(s) && Inv(s, t) && Encodable(e) && EventHash(s, e) in t.events && SameBytes(s, t, e)
    ensures EventKey(t, EventHash(s, e)) == (e.deviceId, e.sequence)
  {
    var hash := EventHash(s, e);
    var row := t.events[hash];
    assert EventInv(s, t, hash);
    SigningBytesAreCanonical(s, e);
    CanonicalDetermines(s, row.unsigned, row.deviceId, row.sequence, row.payload, e.deviceId, e.sequence, s.encode(Map(e.payload)));
  }

  /** Re-submitting a stored event is answered as a duplicate and changes nothing. */
  lemma StoredIsDuplicate(s: Suite, t: Tables, d: string, e: SignedEvent, n: int, now: int)
    requires Objection(s, t, e).None? && Stored(t, d, LinkOf(s, e), n)
    ensures Accept(s, t, e, now) == Ok((t, false))
  {
  }

  /** An event with the hash of a different stored event. */
  predicate Clashes(t: Tables, l: Link) {
    l.hash in t.events && !(t.events[l.hash].unsigned == l.unsigned && t.events[l.hash].signature == l.signature)
  }

  lemma AbsentOrClashes(s: Suite, t: Tables, d: string, links: seq<Link>, k: nat, e: SignedEvent, i: nat)
    requires Lawful(s) && Inv(s, t) && LogIs(t, d, links, k) && k <= i < |links|
    requires ChainLink(s, t, d, links, e, i) && EventHash(s, e) in t.events
    ensures Clashes(t, LinkOf(s, e))
  {
    if SameBytes(s, t, e) {
      SameBytesSameKey(s, t, e);
      LogPosition(t, d, links, k, EventHash(s, e));
    }
  }

  /** An event delivered too early is refused; the next one is stored unless its hash clashes. */
  lemma DeliveryOutcome(s: Suite, t: Tables, d: string, e: SignedEvent, now: int)
    requires Inv(s, t) && Objection(s, t, e).None? && e.deviceId == d
    ensures Clashes(t, LinkOf(s, e)) ==> Accept(s, t, e, now) == Err(Refused(HashCollision))
    ensures EventHash(s, e) !in t.events && e.sequence != t.devices[d].lastSequence + 1 ==>
              Accept(s, t, e, now) == Err(Refused(BadSequence(t.devices[d].lastSequence + 1, e.sequence)))
    ensures EventHash(s, e) !in t.events && NextInChain(t, e) ==>
              Accept(s, t, e, now) == Ok((EventTables(s, t, e, s.encode(Map(e.payload)), now), true))
  {
    NextKeyIsFree(s, t, d);
  }

  /** The tables u hold one event more, which is event n of the device and its new checkpoint. */
  predicate Grown(t: Tables, u: Tables, d: string, l: Link, n: int) {
    && l.hash !in t.events && Stored(u, d, l, n)
    && u.events == t.events[l.hash := u.events[l.hash]]
    && d in u.devices && u.devices[d].lastSequence == n && u.devices[d].lastEventHash == l.hash
  }

  lemma NextIsGrown(s: Suite, t: Tables, e: SignedEvent, payload: Bytes, now: int)
    requires e.deviceId in t.devices && EventHash(s, e) !in t.events
    ensures Grown(t, EventTables(s, t, e, payload, now), e.deviceId, LinkOf(s, e), e.sequence)
  {
  }

  lemma LogGrows(t: Tables, u: Tables, d: string, links: seq<Link>, k: nat)
    requires LogIs(t, d, links, k) && k < |links| && Grown(t, u, d, links[k], k + 1)
    ensures LogIs(u, d, links, k + 1)
  {
    forall i | 0 <= i < k + 1 ensures Stored(u, d, links[i], i + 1) {
      if i < k {
        assert Stored(t, d, links[i], i + 1);
      }
    }
    forall f | f in u.events && u.events[f].deviceId == d ensures exists i :: 0 <= i < k + 1 && f == links[i].hash {
      if f != links[k].hash {
        var i :| 0 <= i < k && f == links[i].hash;
      }
    }
  }

  // ---------------------------------------------------------------------------
  // Schedules
  // ---------------------------------------------------------------------------

  /** What the gateway does next: it takes in an event of the chain, or makes any other step. */
  datatype Action = Deliver(index: nat, now: int) | Elsewhere(step: Interleaving.Step)

  ghost function AfterDelivery(s: Suite, t: Tables, e: SignedEvent, now: int): Tables {
    match Accept(s, t, e, now) case Ok(r) => r.0 case Err(_) => t
  }

  /** What leaves the log of an enrolled device alone. */
  ghost predicate LeavesAlone(s: Suite, d: string, t: Tables, u: Tables) {
    && Inv(s, u) && Extends(t, u)
    && d in t.devices && d in u.devices && u.devices[d] == t.devices[d]
    && forall e :: e in u.events && u.events[e].deviceId == d ==> e in t.events
  }

  /** The step is the transaction that stores an event of the device. */
  predicate StoresEventOf(d: string, x: Interleaving.System, step: Interleaving.Step) {
    step.StoreEvent? && step.n in x.tasks && x.tasks[step.n].Accepting? && x.tasks[step.n].event.deviceId == d
  }

  lemma OtherInsertLeavesAlone(s: Suite, d: string, t: Tables, e: SignedEvent, payload: Bytes, now: int)
    requires InsertEvent(s, t, e, payload, now).Ok? && e.deviceId != d
    ensures var u := InsertEvent(s, t, e, payload, now).value.0;
            && (d in t.devices <==> d in u.devices) && (d in t.devices ==> u.devices[d] == t.devices[d])
            && forall f :: f in u.events && u.events[f].deviceId == d ==> f in t.events
  {
  }

  /** Only the transaction that stores an event changes a checkpoint or the set of events. */
  lemma StepKeepsChains(s: Suite, x: Interleaving.System, step: Interleaving.Step)
    requires Interleaving.Enabled(s, x, step) && !step.StoreEvent? && !step.EnrolDevice?
    ensures SameChains(x.tables, Interleaving.TablesAfter(s, x, step))
  {
    match step
    case StoreProposal(n) =>
      var task := x.tasks[n];
      if CreateProposal(x.tables, task.row, task.hashes, task.authorities).Ok? {
        ProposalKeepsChains(x.tables, task.row, task.hashes, task.authorities);
      }
    case StoreSignature(n, now) =>
      var task := x.tasks[n];
      if InsertSignature(x.tables, task.height, task.signer, task.signature, now).Ok? {
        SignatureKeepsChains(x.tables, task.height, task.signer, task.signature, now);
      }
    case _ =>
  }

  /** Every read, transaction and failure of any other request leaves the device's log alone. */
  lemma OtherStepsLeaveAlone(s: Suite, d: string, x: Interleaving.System, step: Interleaving.Step, y: Interleaving.System)
    requires Lawful(s) && Interleaving.SystemInv(s, x) && Interleaving.Next(s, x, step, y)
    requires d in x.tables.devices && !StoresEventOf(d, x, step)
    ensures LeavesAlone(s, d, x.tables, y.tables)
  {
    hide Inv, Extends;
    Interleaving.NextKeepsInv(s, x, step, y);
    if step.StoreEvent? {
      StoringLeavesAlone(s, d, x, step.n, step.now);
    } else if !step.EnrolDevice? {
      StepKeepsChains(s, x, step);
      ChainsLeftAlone(s, d, x.tables, y.tables);
    }
  }

  lemma StoringLeavesAlone(s: Suite, d: string, x: Interleaving.System, n: nat, now: int)
    requires n in x.tasks && x.tasks[n].Accepting? && x.tasks[n].event.deviceId != d && d in x.tables.devices
    ensures var u := Interleaving.TablesAfter(s, x, Interleaving.StoreEvent(n, now));
            && d in u.devices && u.devices[d] == x.tables.devices[d]
            && forall f :: f in u.events && u.events[f].deviceId == d ==> f in x.tables.events
  {
    var task := x.tasks[n];
    if InsertEvent(s, x.tables, task.event, task.payload, now).Ok? {
      OtherInsertLeavesAlone(s, d, x.tables, task.event, task.payload, now);
    }
  }

  lemma ChainsLeftAlone(s: Suite, d: string, t: Tables, u: Tables)
    requires Inv(s, u) && Extends(t, u) && SameChains(t, u) && d in t.devices
    ensures LeavesAlone(s, d, t, u)
  {
  }

  /** Nothing but its enrolment brings a device in. */
  lemma OtherStepsEnrolNobody(s: Suite, d: string, x: Interleaving.System, step: Interleaving.Step, y: Interleaving.System)
    requires Interleaving.Next(s, x, step, y)
    requires d !in x.tables.devices && !(step.EnrolDevice? && step.id == d)
    ensures d !in y.tables.devices
  {
    hide CreateProposal, InsertSignature, Interleaving.Continuation;
    if !step.StoreEvent? && !step.EnrolDevice? {
      StepKeepsChains(s, x, step);
    }
  }

  ghost predicate Act(s: Suite, d: string, chain: seq<SignedEvent>, x: Interleaving.System, a: Action, y: Interleaving.System) {
    match a
    case Deliver(i, now) => i < |chain| && y == x.(tables := AfterDelivery(s, x.tables, chain[i], now))
    case Elsewhere(step) => Interleaving.Next(s, x, step, y) && !StoresEventOf(d, x, step)
  }

  ghost predicate Acts(s: Suite, d: string, chain: seq<SignedEvent>, states: seq<Interleaving.System>, actions: seq<Action>) {
    && |states| == |actions| + 1
    && forall i :: 0 <= i < |actions| ==> Act(s, d, chain, states[i], actions[i], states[i + 1])
  }

  /** How far a schedule gets: it advances on each delivery of the next event and on nothing else. */
  function Progress(actions: seq<Action>): nat {
    if actions == [] then 0
    else
      var n := |actions| - 1;
      var k := Progress(actions[..n]);
      if actions[n].Deliver? && actions[n].index == k then k + 1 else k
  }

  lemma LinkStays(s: Suite, t: Tables, u: Tables, d: string, links: seq<Link>, e: SignedEvent, i: nat)
    requires Extends(t, u) && i < |links| && ChainLink(s, t, d, links, e, i)
    ensures ChainLink(s, u, d, links, e, i)
  {
    assert DeviceKept(t, u, d);
  }

  lemma ChainStays(s: Suite, t: Tables, u: Tables, d: string, chain: seq<SignedEvent>, links: seq<Link>)
    requires Extends(t, u) && SignedChain(s, t, d, chain, links)
    ensures SignedChain(s, u, d, chain, links)
  {
    forall i | 0 <= i < |chain| ensures ChainLink(s, u, d, links, chain[i], i) {
      LinkStays(s, t, u, d, links, chain[i], i);
    }
  }

  lemma LogStays(s: Suite, t: Tables, u: Tables, d: string, links: seq<Link>, k: nat)
    requires LogIs(t, d, links, k) && LeavesAlone(s, d, t, u)
    ensures LogIs(u, d, links, k)
  {
    forall i | 0 <= i < k ensures Stored(u, d, links[i], i + 1) {
      assert Stored(t, d, links[i], i + 1);
      assert EventKept(t, u, links[i].hash);
    }
    forall e | e in u.events && u.events[e].deviceId == d ensures exists i :: 0 <= i < k && e == links[i].hash {
      assert EventKept(t, u, e);
    }
  }

  /** The bytes hashed for the events of the chain and for the stored events. */
  ghost function DeliveryInputs(links: seq<Link>, t: Tables): set<Bytes> {
    (set i | 0 <= i < |links| :: EventInput(links[i].unsigned, links[i].signature))
    + (set e | e in t.events :: EventInput(t.events[e].unsigned, t.events[e].signature))
  }

  lemma ClashCollides(s: Suite, t: Tables, links: seq<Link>, i: nat)
    requires Inv(s, t) && i < |links| && Clashes(t, links[i])
    requires links[i].hash == s.sha(EventInput(links[i].unsigned, links[i].signature))
    requires |links[i].signature| == 64 && Lawful(s)
    ensures CollisionIn(s.sha, DeliveryInputs(links, t))
  {
    var l, row := links[i], t.events[links[i].hash];
    assert EventInv(s, t, l.hash);
    var x, y := EventInput(l.unsigned, l.signature), EventInput(row.unsigned, row.signature);
    if x == y {
      EventInputInjective(l.unsigned, l.signature, row.unsigned, row.signature);
    }
    assert x in DeliveryInputs(links, t) && y in DeliveryInputs(links, t);
  }

  lemma InputsGrow(links: seq<Link>, t: Tables, u: Tables, sha: Hash)
    requires Extends(t, u) && CollisionIn(sha, DeliveryInputs(links, t))
    ensures CollisionIn(sha, DeliveryInputs(links, u))
  {
    forall e | e in t.events ensures EventInput(t.events[e].unsigned, t.events[e].signature) in DeliveryInputs(links, u) {
      assert EventKept(t, u, e);
    }
    assert DeliveryInputs(links, t) <= DeliveryInputs(links, u);
  }

  /** One delivery moves the log by at most the next event, and moves it exactly when its hash does not clash. */
  lemma DeliveryKeepsLog(s: Suite, t: Tables, d: string, links: seq<Link>, k: nat, e: SignedEvent, i: nat, now: int) returns (m: nat)
    requires Lawful(s) && Inv(s, t) && LogIs(t, d, links, k)
    requires i < |links| && links[i] == LinkOf(s, e) && ChainLink(s, t, d, links, e, i)
    ensures LogIs(AfterDelivery(s, t, e, now), d, links, m)
    ensures m == k || (m == k + 1 && i == k)
    ensures i == k && m == k ==> Clashes(t, links[i])
    ensures Accept(s, t, e, now).Ok? <==> i < m
  {
    hide Inv, Objection, Clashes, EventHash, HashBefore;
    m := k;
    if i < k {
      assert Stored(t, d, links[i], i + 1);
      StoredIsDuplicate(s, t, d, e, i + 1, now);
    } else {
      DeliveryOutcome(s, t, d, e, now);
      if EventHash(s, e) in t.events {
        AbsentOrClashes(s, t, d, links, k, e, i);
      } else if i == k {
        NextIsGrown(s, t, e, s.encode(Map(e.payload)), now);
        LogGrows(t, AfterDelivery(s, t, e, now), d, links, k);
        m := k + 1;
      }
    }
  }

  lemma DeliveryKeepsInv(s: Suite, t: Tables, e: SignedEvent, now: int)
    requires Lawful(s) && Inv(s, t)
    ensures Inv(s, AfterDelivery(s, t, e, now)) && Extends(t, AfterDelivery(s, t, e, now))
  {
    ExtendsSelf(t);
    AcceptKeepsInv(s, t, e, now);
  }

  /** What the requests in progress have read stays good enough when the tables grow. */
  lemma TablesGrow(s: Suite, x: Interleaving.System, u: Tables)
    requires Interleaving.SystemInv(s, x) && Inv(s, u) && Extends(x.tables, u)
    ensures Interleaving.SystemInv(s, x.(tables := u))
  {
    forall n | n in x.tasks ensures Interleaving.TaskOk(s, u, x.tasks[n]) {
      Interleaving.TaskStaysOk(s, x.tables, u, x.tasks[n]);
    }
  }

  lemma ActKeepsInv(s: Suite, d: string, chain: seq<SignedEvent>, x: Interleaving.System, a: Action, y: Interleaving.System)
    requires Lawful(s) && Interleaving.SystemInv(s, x) && Act(s, d, chain, x, a, y)
    ensures Interleaving.SystemInv(s, y) && Extends(x.tables, y.tables)
  {
    match a
    case Deliver(i, now) =>
      DeliveryKeepsInv(s, x.tables, chain[i], now);
      TablesGrow(s, x, y.tables);
    case Elsewhere(step) =>
      Interleaving.NextKeepsInv(s, x, step, y);
  }

  lemma ActKeepsLog(s: Suite, d: string, chain: seq<SignedEvent>, links: seq<Link>, x: Interleaving.System, a: Action, y: Interleaving.System, k: nat)
    returns (m: nat)
    requires Lawful(s) && Interleaving.SystemInv(s, x) && SignedChain(s, x.tables, d, chain, links) && LogIs(x.tables, d, links, k)
    requires Act(s, d, chain, x, a, y)
    ensures LogIs(y.tables, d, links, m)
    ensures m == k || (m == k + 1 && a.Deliver? && a.index == k)
    ensures CollisionIn(s.sha, DeliveryInputs(links, x.tables)) || m == if a.Deliver? && a.index == k then k + 1 else k
  {
    hide Inv, Interleaving.Next, LeavesAlone, Clashes, CollisionIn;
    match a
    case Elsewhere(step) =>
      m := k;
      OtherStepsLeaveAlone(s, d, x, step, y);
      LogStays(s, x.tables, y.tables, d, links, k);
    case Deliver(i, now) =>
      assert ChainLink(s, x.tables, d, links, chain[i], i);
      m := DeliveryKeepsLog(s, x.tables, d, links, k, chain[i], i, now);
      if i == k && m == k {
        ClashCollides(s, x.tables, links, i);
      }
  }

  /** What a schedule has achieved when it has made progress n. */
  ghost predicate Achieved(s: Suite, d: string, chain: seq<SignedEvent>, links: seq<Link>, x: Interleaving.System, k: nat, n: nat) {
    && Interleaving.SystemInv(s, x) && SignedChain(s, x.tables, d, chain, links) && LogIs(x.tables, d, links, k)
    && k <= n && (CollisionIn(s.sha, DeliveryInputs(links, x.tables)) || k == n)
  }

  lemma AchievedStep(s: Suite, d: string, chain: seq<SignedEvent>, links: seq<Link>, x: Interleaving.System, a: Action, y: Interleaving.System, k: nat, n: nat)
    returns (m: nat)
    requires Lawful(s) && Achieved(s, d, chain, links, x, k, n) && Act(s, d, chain, x, a, y)
    ensures Achieved(s, d, chain, links, y, m, if a.Deliver? && a.index == n then n + 1 else n)
  {
    ActKeepsInv(s, d, chain, x, a, y);
    ChainStays(s, x.tables, y.tables, d, chain, links);
    m := ActKeepsLog(s, d, chain, links, x, a, y, k);
    if CollisionIn(s.sha, DeliveryInputs(links, x.tables)) {
      InputsGrow(links, x.tables, y.tables, s.sha);
    }
  }

  lemma ProgressStep(actions: seq<Action>, i: nat)
    requires 0 < i <= |actions|
    ensures Progress(actions[..i])
         == if actions[i - 1].Deliver? && actions[i - 1].index == Progress(actions[..i - 1]) then Progress(actions[..i - 1]) + 1
            else Progress(actions[..i - 1])
  {
    assert actions[..i][..i - 1] == actions[..i - 1];
  }

  lemma AchievedNext(s: Suite, d: string, chain: seq<SignedEvent>, links: seq<Link>,
                     states: seq<Interleaving.System>, actions: seq<Action>, i: nat, before: nat) returns (k: nat)
    requires Lawful(s) && Acts(s, d, chain, states, actions) && 0 < i <= |actions|
    requires Achieved(s, d, chain, links, states[i - 1], before, Progress(actions[..i - 1]))
    ensures Achieved(s, d, chain, links, states[i], k, Progress(actions[..i]))
  {
    hide Achieved, Act;
    assert Act(s, d, chain, states[i - 1], actions[i - 1], states[i - 1 + 1]);
    ProgressStep(actions, i);
    k := AchievedStep(s, d, chain, links, states[i - 1], actions[i - 1], states[i], before, Progress(actions[..i - 1]));
  }

  /**
   * After any schedule the log is a prefix of the chain, each event once, with the
   * checkpoint at its end; how long it is depends only on the schedule's progress,
   * unless two of the hashed byte strings collide.
   */
  lemma {:induction false} LogIsPrefix(s: Suite, d: string, chain: seq<SignedEvent>, links: seq<Link>,
                                       states: seq<Interleaving.System>, actions: seq<Action>, i: nat)
    returns (k: nat)
    requires Lawful(s) && Acts(s, d, chain, states, actions) && i <= |actions|
    requires Achieved(s, d, chain, links, states[0], 0, 0)
    ensures Achieved(s, d, chain, links, states[i], k, Progress(actions[..i]))
    decreases i
  {
    hide Achieved, Act;
    if i == 0 {
      k := 0;
    } else {
      var before := LogIsPrefix(s, d, chain, links, states, actions, i - 1);
      k := AchievedNext(s, d, chain, links, states, actions, i, before);
    }
  }

  /** Whatever was stored is answered as a duplicate from then on, and changes nothing. */
  lemma ResubmissionIsDuplicate(s: Suite, t: Tables, d: string, links: seq<Link>, k: nat, e: SignedEvent, i: nat, now: int)
    requires LogIs(t, d, links, k) && i < k && links[i] == LinkOf(s, e) && ChainLink(s, t, d, links, e, i)
    ensures Accept(s, t, e, now) == Ok((t, false))
  {
    assert Stored(t, d, links[i], i + 1);
    StoredIsDuplicate(s, t, d, e, i + 1, now);
  }

  /** A newly enrolled device starts with an empty log. */
  lemma NewDeviceHasEmptyLog(s: Suite, t: Tables, u: Tables, d: string, publicKey: Bytes, keyId: string, now: int, links: seq<Link>)
    requires Inv(s, t) && RegisterDevice(t, d, publicKey, keyId, now) == Ok((u, true))
    ensures LogIs(u, d, links, 0)
  {
    forall e | e in u.events ensures u.events[e].deviceId != d {
      assert EventInv(s, t, e);
    }
  }
}
