/** The gateway as its devices meet it: how it starts, and how it answers a submitted event. */
module Api {
  import opened Primitives
  import opened Numerals
  import opened Models
  import opened Store
  import opened Invariant
  import opened Growth
  import opened LedgerOperations
  import opened Outcomes
  import opened Gateway
  import opened EdgeChain
  import opened Sealing

  /** How a gateway is set up: nothing checks the batch size. */
  datatype Server = Server(settings: Settings, keys: Keys, batchSize: int)

  /** The gateway can sign for a quorum with keys that are enrolled. */
  ghost predicate Serves(s: Suite, server: Server, t: Tables) {
    && Inv(s, t) && KeysEnrolled(s, t, server.keys)
    && server.keys != [] && 1 <= server.settings.quorumThreshold <= |server.keys|
  }

  // ---------------------------------------------------------------------------
  // Submitting an event
  // ---------------------------------------------------------------------------

  datatype Submission = Submission(receipt: Receipt, block: Option<ProposalReport>)

  /** A full batch is pending and nothing is open. */
  ghost predicate SealDue(t: Tables, batchSize: int) { |Pending(t)| >= batchSize && !ProposalOpen(t) }

  /** The seal that follows an accepted event, if one is due. */
  ghost function AutoSeal(s: Suite, server: Server, t: Tables, clock: nat -> int): (Tables, Result<Option<ProposalReport>, LedgerError>)
    requires server.keys != []
  {
    if !SealDue(t, server.batchSize) then (t, Ok(None))
    else
      match Seal(s, t, server.settings, server.keys, server.batchSize, clock)
      case (u, Ok(report)) => (u, Ok(Some(report)))
      case (u, Err(error)) => (u, Err(error))
  }

  /**
   * Accepts the event and then, if a batch is full, seals a block. An error of either is
   * the answer to the request, although the event of a failed seal stays stored.
   */
  ghost function Submit(s: Suite, server: Server, t: Tables, e: SignedEvent, now: int, clock: nat -> int)
    : (Tables, Result<Submission, LedgerError>)
    requires server.keys != []
  {
    match Accept(s, t, e, now)
    case Err(error) => (t, Err(error))
    case Ok((u, isNew)) =>
      match AutoSeal(s, server, u, clock)
      case (v, Ok(block)) => (v, Ok(Submission(Receipt(!isNew, EventHash(s, e), e.deviceId, e.sequence), block)))
      case (v, Err(error)) => (v, Err(error))
  }

  predicate GoodBatch(batchSize: int) { 1 <= batchSize <= 10000 }

  /** The seal that is due fails: the batch size is out of range, or the next header has the hash of a stored block. */
  ghost predicate SealFails(s: Suite, server: Server, t: Tables, now: int)
    requires server.keys != []
  {
    SealDue(t, server.batchSize) && (!GoodBatch(server.batchSize) || Blocked(s, t, server.settings, server.keys, server.batchSize, now))
  }

  lemma AcceptedTables(s: Suite, t: Tables, e: SignedEvent, now: int)
    requires Accept(s, t, e, now).Ok?
    ensures var (u, isNew) := Accept(s, t, e, now).value;
            && EventHash(s, e) in u.events && u.blocks == t.blocks && u.authorities == t.authorities
            && (isNew ==> EventHash(s, e) !in t.events && u.events == t.events[EventHash(s, e) := u.events[EventHash(s, e)]])
            && (isNew ==> u.events[EventHash(s, e)].blockHeight.None?)
            && (!isNew ==> u == t)
  {
  }

  lemma AcceptedServes(s: Suite, server: Server, t: Tables, e: SignedEvent, now: int)
    requires Lawful(s) && Serves(s, server, t) && Accept(s, t, e, now).Ok?
    ensures Serves(s, server, Accept(s, t, e, now).value.0) && Extends(t, Accept(s, t, e, now).value.0)
    ensures EventHash(s, e) in Accept(s, t, e, now).value.0.events
  {
    AcceptKeepsInv(s, t, e, now);
    AcceptedTables(s, t, e, now);
    KeysStayEnrolled(s, t, Accept(s, t, e, now).value.0, server.keys);
  }

  /** With a batch size in range, a seal that is due has something to seal. */
  lemma DueHasEvents(t: Tables, batchSize: int)
    requires SealDue(t, batchSize)
    ensures NothingToSeal(t, batchSize) <==> !GoodBatch(batchSize)
  {
  }

  lemma SealedServes(s: Suite, server: Server, t: Tables, u: Tables)
    requires Serves(s, server, t) && server.batchSize >= 0
    requires Sealed(s, t, u, server.batchSize, server.settings.quorumThreshold, server.keys)
    ensures Serves(s, server, u) && Extends(t, u)
  {
  }

  /** What the seal that follows an accepted event has done: nothing, or a final block of a full batch. */
  ghost predicate AutoSealed(s: Suite, server: Server, t: Tables, u: Tables) {
    if SealDue(t, server.batchSize)
    then server.batchSize >= 0 && Sealed(s, t, u, server.batchSize, server.settings.quorumThreshold, server.keys)
    else u == t
  }

  lemma AutoSealFailsIff(s: Suite, server: Server, t: Tables, clock: nat -> int)
    requires Serves(s, server, t)
    ensures var (u, r) := AutoSeal(s, server, t, clock);
            && (r.Err? <==> SealFails(s, server, t, clock(0)))
            && (r.Err? ==> u == t)
            && (r.Ok? ==> AutoSealed(s, server, t, u))
  {
    if SealDue(t, server.batchSize) {
      DueHasEvents(t, server.batchSize);
      SealOutcome(s, t, server.settings, server.keys, server.batchSize, clock);
    }
  }

  lemma AutoSealKeepsServing(s: Suite, server: Server, t: Tables, clock: nat -> int)
    requires Serves(s, server, t)
    ensures Serves(s, server, AutoSeal(s, server, t, clock).0) && Extends(t, AutoSeal(s, server, t, clock).0)
  {
    AutoSealFailsIff(s, server, t, clock);
    ExtendsSelf(t);
    var u := AutoSeal(s, server, t, clock).0;
    if u != t {
      SealedServes(s, server, t, u);
    }
  }

  /** A request is refused exactly when the ledger refuses its event or the seal that follows fails; the latter leaves the event stored. */
  lemma SubmitFailsIff(s: Suite, server: Server, t: Tables, e: SignedEvent, now: int, clock: nat -> int)
    requires Lawful(s) && Serves(s, server, t)
    ensures var (v, r) := Submit(s, server, t, e, now, clock);
            match Accept(s, t, e, now)
            case Err(error) => r == Err(error) && v == t
            case Ok((u, _)) =>
              && (r.Err? <==> SealFails(s, server, u, clock(0)))
              && (r.Err? ==> v == u && EventHash(s, e) in v.events)
              && (r.Ok? ==> AutoSealed(s, server, u, v))
  {
    if Accept(s, t, e, now).Ok? {
      AcceptedServes(s, server, t, e, now);
      AutoSealFailsIff(s, server, Accept(s, t, e, now).value.0, clock);
    }
  }

  /** Whatever the answer, the gateway's invariant holds afterwards and nothing stored is lost. */
  lemma SubmitKeepsServing(s: Suite, server: Server, t: Tables, e: SignedEvent, now: int, clock: nat -> int)
    requires Lawful(s) && Serves(s, server, t)
    ensures Serves(s, server, Submit(s, server, t, e, now, clock).0) && Extends(t, Submit(s, server, t, e, now, clock).0)
  {
    ExtendsSelf(t);
    if Accept(s, t, e, now).Ok? {
      var u, v := Accept(s, t, e, now).value.0, Submit(s, server, t, e, now, clock).0;
      AcceptedServes(s, server, t, e, now);
      AutoSealKeepsServing(s, server, u, clock);
      ExtendsTransitive(t, u, v);
    }
  }

  lemma OneMorePending(t: Tables, u: Tables, hash: Bytes)
    requires hash !in t.events && hash in u.events
    requires u.events == t.events[hash := u.events[hash]] && u.events[hash].blockHeight.None?
    ensures |Pending(u)| == |Pending(t)| + 1
  {
    assert Pending(u) == Pending(t) + {hash};
  }

  lemma AcceptedPending(s: Suite, t: Tables, e: SignedEvent, now: int)
    requires Accept(s, t, e, now).Ok?
    ensures var (u, isNew) := Accept(s, t, e, now).value;
            |Pending(u)| == (|Pending(t)| + if isNew then 1 else 0) && (ProposalOpen(u) <==> ProposalOpen(t))
  {
    AcceptedTables(s, t, e, now);
    if Accept(s, t, e, now).value.1 {
      OneMorePending(t, Accept(s, t, e, now).value.0, EventHash(s, e));
    }
  }

  /** What a gateway that grants a request answers: whose event it is, whether it had it, and the block it sealed if that made a batch. */
  ghost predicate Answers(s: Suite, server: Server, t: Tables, v: Tables, e: SignedEvent, answer: Submission) {
    && (answer.receipt.duplicate <==> EventHash(s, e) in t.events)
    && answer.receipt.eventHash == EventHash(s, e) && EventHash(s, e) in v.events
    && answer.receipt.deviceId == e.deviceId && answer.receipt.sequence == e.sequence
    && (answer.block.Some? <==> !ProposalOpen(t) && |Pending(t)| + (if EventHash(s, e) in t.events then 0 else 1) >= server.batchSize)
    && (answer.block.Some? ==> answer.block.value.height == |t.blocks| + 1 && answer.block.value.status == Finalized && Reports(v, answer.block.value))
  }

  lemma DueAnswers(s: Suite, server: Server, t: Tables, hash: Bytes, clock: nat -> int)
    requires Serves(s, server, t) && hash in t.events
    ensures var (v, r) := AutoSeal(s, server, t, clock);
            r.Ok? ==> hash in v.events && (r.value.Some? <==> SealDue(t, server.batchSize))
                      && (r.value.Some? ==> r.value.value.height == |t.blocks| + 1 && r.value.value.status == Finalized && Reports(v, r.value.value))
  {
    hide Seal, Inv, KeysEnrolled, Reports, NextBlock, SealDue;
    AutoSealKeepsServing(s, server, t, clock);
    var (v, r) := AutoSeal(s, server, t, clock);
    assert EventKept(t, v, hash);
    if SealDue(t, server.batchSize) {
      SealOutcome(s, t, server.settings, server.keys, server.batchSize, clock);
      SealedBlock(s, t, server.settings, server.keys, server.batchSize, clock);
    }
  }

  lemma SubmitAnswers(s: Suite, server: Server, t: Tables, e: SignedEvent, now: int, clock: nat -> int)
    requires Lawful(s) && Serves(s, server, t)
    ensures var (v, r) := Submit(s, server, t, e, now, clock); r.Ok? ==> Answers(s, server, t, v, e, r.value)
  {
    hide Extends, Inv, KeysEnrolled, Reports, Accept, AutoSeal;
    var (v, r) := Submit(s, server, t, e, now, clock);
    if r.Ok? {
      AcceptedTables(s, t, e, now);
      AcceptedPending(s, t, e, now);
      AcceptOutcome(s, t, e, now);
      AcceptedServes(s, server, t, e, now);
      DueAnswers(s, server, Accept(s, t, e, now).value.0, EventHash(s, e), clock);
    }
  }

  /** As long as nothing stays open, no request that succeeds lets the backlog reach a batch. */
  lemma SubmitKeepsBacklog(s: Suite, server: Server, t: Tables, e: SignedEvent, now: int, clock: nat -> int)
    requires Lawful(s) && Serves(s, server, t) && !ProposalOpen(t) && |Pending(t)| < server.batchSize
    requires Submit(s, server, t, e, now, clock).1.Ok?
    ensures var v := Submit(s, server, t, e, now, clock).0; !ProposalOpen(v) && |Pending(v)| < server.batchSize
  {
    SubmitFailsIff(s, server, t, e, now, clock);
    var u, v := Accept(s, t, e, now).value.0, Submit(s, server, t, e, now, clock).0;
    AcceptedServes(s, server, t, e, now);
    AcceptedPending(s, t, e, now);
    if SealDue(u, server.batchSize) {
      SealedIsClosed(s, u, v, server.batchSize, server.settings.quorumThreshold, server.keys);
    }
  }

  /** With a batch size out of range, the event that fills the batch is stored and refused. */
  lemma StoredButRefused(s: Suite, server: Server, t: Tables, e: SignedEvent, now: int, clock: nat -> int)
    requires server.keys != [] && !GoodBatch(server.batchSize)
    requires Accept(s, t, e, now).Ok? && SealDue(Accept(s, t, e, now).value.0, server.batchSize)
    ensures Submit(s, server, t, e, now, clock) == (Accept(s, t, e, now).value.0, Err(BadLimit))
    ensures EventHash(s, e) in Submit(s, server, t, e, now, clock).0.events
  {
    AcceptedTables(s, t, e, now);
  }

  // ---------------------------------------------------------------------------
  // The names of the gateway's authorities
  // ---------------------------------------------------------------------------

  function TwoDigits(n: nat): (r: string)
    ensures r != []
  {
    if n < 10 then "0" + Decimal(n) else Decimal(n)
  }

  lemma NumberInTwoDigits(n: nat)
    ensures NumberIn(TwoDigits(n)) == n
  {
    NumberInDecimal(n);
    if n < 10 {
      assert TwoDigits(n)[..1] == "0";
      assert NumberIn("0") == 0;
    }
  }

  const MARK: string := "-authority-"

  /** The first authority is the node itself, the others are numbered from 2. */
  function AuthorityName(nodeId: string, i: nat): string {
    if i == 0 then nodeId else nodeId + MARK + TwoDigits(i + 1)
  }

  /** The names carry the numbers 2, 3, ... in at least two digits. */
  lemma NamesAreNumbered(nodeId: string, i: nat) returns (digits: string)
    ensures i == 0 ==> AuthorityName(nodeId, i) == nodeId
    ensures i > 0 ==> AuthorityName(nodeId, i) == nodeId + "-authority-" + digits && |digits| >= 2 && NumberIn(digits) == i + 1
  {
    digits := TwoDigits(i + 1);
    NumberInTwoDigits(i + 1);
    if i + 1 >= 10 {
      assert Decimal((i + 1) / 10) != [];
    }
  }

  lemma SameEnd(start: string, a: string, b: string)
    requires start + a == start + b
    ensures a == b
  {
    assert a == (start + a)[|start|..] && b == (start + b)[|start|..];
  }

  lemma NamesDiffer(nodeId: string, i: nat, j: nat)
    requires i < j
    ensures AuthorityName(nodeId, i) != AuthorityName(nodeId, j)
  {
    hide TwoDigits, NumberIn;
    if i == 0 {
      assert |AuthorityName(nodeId, j)| > |nodeId|;
    } else {
      NumberInTwoDigits(i + 1);
      NumberInTwoDigits(j + 1);
      NumberedDiffer(nodeId + MARK, TwoDigits(i + 1), TwoDigits(j + 1));
    }
  }

  lemma NumberedDiffer(start: string, a: string, b: string)
    requires NumberIn(a) != NumberIn(b)
    ensures start + a != start + b
  {
    if start + a == start + b {
      SameEnd(start, a, b);
    }
  }

  // ---------------------------------------------------------------------------
  // Start-up
  // ---------------------------------------------------------------------------

  datatype StartError = NoAuthorities | QuorumTooLarge | Failed(cause: LedgerError)

  /** The name can be enrolled, or is enrolled already, under this key. */
  predicate Enrollable(t: Tables, id: string, publicKey: Bytes) {
    GoodName(id) && AuthorityFits(t, id, publicKey)
  }

  /** The first n authorities of the node are enrolled in u, and the names of the others are as free as in t. */
  ghost predicate Enrolled(t: Tables, u: Tables, nodeId: string, keys: seq<KeyPair>, n: nat)
    requires n <= |keys|
  {
    && u == t.(authorities := u.authorities)
    && (forall i :: 0 <= i < n ==> HasKey(u, AuthorityName(nodeId, i), keys[i].publicKey))
    && (forall i :: n <= i < |keys| ==> SameAuthority(t, u, AuthorityName(nodeId, i)))
  }

  predicate SameAuthority(t: Tables, u: Tables, id: string) {
    (id in t.authorities <==> id in u.authorities) && (id in t.authorities ==> u.authorities[id] == t.authorities[id])
  }

  lemma RegistrationIsLocal(t: Tables, id: string, publicKey: Bytes, keyId: string, now: int)
    requires RegisterAuthority(t, id, publicKey, keyId, now).Ok?
    ensures var u := RegisterAuthority(t, id, publicKey, keyId, now).value.0;
            && u == t.(authorities := u.authorities) && HasKey(u, id, publicKey)
            && forall other :: other != id ==> SameAuthority(t, u, other)
  {
  }

  lemma EnrolledNext(t: Tables, u: Tables, v: Tables, nodeId: string, keys: seq<KeyPair>, n: nat, keyId: string, now: int, created: bool)
    requires n < |keys| && Enrolled(t, u, nodeId, keys, n)
    requires RegisterAuthority(u, AuthorityName(nodeId, n), keys[n].publicKey, keyId, now) == Ok((v, created))
    ensures Enrolled(t, v, nodeId, keys, n + 1)
  {
    hide RegisterAuthority, AuthorityName;
    RegistrationIsLocal(u, AuthorityName(nodeId, n), keys[n].publicKey, keyId, now);
    forall i | 0 <= i < n ensures HasKey(v, AuthorityName(nodeId, i), keys[i].publicKey) {
      NamesDiffer(nodeId, i, n);
      assert SameAuthority(u, v, AuthorityName(nodeId, i));
    }
    forall i | n < i < |keys| ensures SameAuthority(t, v, AuthorityName(nodeId, i)) {
      NamesDiffer(nodeId, n, i);
      assert SameAuthority(t, u, AuthorityName(nodeId, i)) && SameAuthority(u, v, AuthorityName(nodeId, i));
    }
  }

  function Named(nodeId: string, keys: seq<KeyPair>): (r: Keys)
    ensures |r| == |keys| && forall i :: 0 <= i < |r| ==> r[i] == (AuthorityName(nodeId, i), keys[i])
  {
    seq(|keys|, i requires 0 <= i < |keys| => (AuthorityName(nodeId, i), keys[i]))
  }

  lemma EnrolledServes(s: Suite, t: Tables, u: Tables, nodeId: string, keys: seq<KeyPair>)
    requires Enrolled(t, u, nodeId, keys, |keys|) && forall i :: 0 <= i < |keys| ==> KeyWorks(s, keys[i])
    ensures KeysEnrolled(s, u, Named(nodeId, keys))
  {
    forall i | 0 <= i < |keys| ensures AuthorityName(nodeId, i) in ActiveKeys(u) && ActiveKeys(u)[AuthorityName(nodeId, i)] == keys[i].publicKey {
      assert HasKey(u, AuthorityName(nodeId, i), keys[i].publicKey);
    }
    forall i, j | 0 <= i < j < |keys| ensures AuthorityName(nodeId, i) != AuthorityName(nodeId, j) {
      NamesDiffer(nodeId, i, j);
    }
    forall i | 0 <= i < |keys| ensures KeyWorks(s, Named(nodeId, keys)[i].1) {
      assert KeyWorks(s, keys[i]);
    }
  }

  class App {
    const ledger: Ledger
    const keys: Keys
    const batchSize: int

    constructor (ledger: Ledger, keys: Keys, batchSize: int)
      ensures this.ledger == ledger && this.keys == keys && this.batchSize == batchSize
    {
      this.ledger, this.keys, this.batchSize := ledger, keys, batchSize;
    }

    function Setup(): Server { Server(ledger.settings, keys, batchSize) }

    function State(): Tables
      reads ledger.database
    {
      ledger.State()
    }

    /** The gateway is set up to seal, over tables its operations can have led to. */
    ghost predicate Sound()
      reads ledger.database
    {
      Lawful(ledger.suite) && Serves(ledger.suite, Setup(), State())
    }

    /** Opens the ledger and enrols the gateway's authorities under the keys it has loaded or created. */
    static method Create(database: Database, suite: Suite, settings: Settings, nodeId: string, keys: seq<KeyPair>, batchSize: int,
                         keyId: Bytes -> string, clock: nat -> int)
      returns (r: Result<App, StartError>)
      requires Inv(suite, database.State()) && forall i :: 0 <= i < |keys| ==> KeyWorks(suite, keys[i])
      modifies database
      ensures r.Ok? <==> 1 <= settings.quorumThreshold <= |keys|
                         && forall i :: 0 <= i < |keys| ==> Enrollable(old(database.State()), AuthorityName(nodeId, i), keys[i].publicKey)
      ensures r.Ok? ==> fresh(r.value) && r.value.ledger.database == database && r.value.ledger.suite == suite
      ensures r.Ok? ==> r.value.Setup() == Server(settings, Named(nodeId, keys), batchSize)
      ensures r.Ok? ==> Serves(suite, r.value.Setup(), r.value.State())
      ensures Inv(suite, database.State()) && database.State() == old(database.State()).(authorities := database.State().authorities)
    {
      hide Inv, KeysEnrolled, AuthorityName;
      if keys == [] {
        return Err(NoAuthorities);
      }
      if settings.quorumThreshold > |keys| {
        return Err(QuorumTooLarge);
      }
      var start := Ledger.Open(database, suite, settings);
      if start.Err? {
        return Err(Failed(start.error));
      }
      var ledger := start.value;
      ghost var t := database.State();
      for i := 0 to |keys|
        invariant Inv(suite, database.State()) && Enrolled(t, database.State(), nodeId, keys, i)
        invariant forall j :: 0 <= j < i ==> Enrollable(t, AuthorityName(nodeId, j), keys[j].publicKey)
      {
        assert KeyWorks(suite, keys[i]);
        ghost var u := database.State();
        var enrolled := ledger.RegisterAuthority(AuthorityName(nodeId, i), keys[i].publicKey, keyId(keys[i].publicKey), clock(i));
        assert SameAuthority(t, u, AuthorityName(nodeId, i));
        if enrolled.Err? {
          assert !Enrollable(t, AuthorityName(nodeId, i), keys[i].publicKey);
          return Err(Failed(enrolled.error));
        }
        RegisterAuthorityKeepsInv(suite, u, AuthorityName(nodeId, i), keys[i].publicKey, keyId(keys[i].publicKey), clock(i));
        EnrolledNext(t, u, database.State(), nodeId, keys, i, keyId(keys[i].publicKey), clock(i), enrolled.value);
      }
      EnrolledServes(suite, t, database.State(), nodeId, keys);
      var app := new App(ledger, Named(nodeId, keys), batchSize);
      r := Ok(app);
    }

    /** Seals a block when a full batch is pending and nothing is open. */
    method SealIfDue(clock: nat -> int) returns (r: Result<Option<ProposalReport>, LedgerError>)
      requires keys != []
      modifies ledger.database
      ensures (State(), r) == AutoSeal(ledger.suite, Setup(), old(State()), clock)
    {
      var pending := ledger.database.PendingCount();
      if pending < batchSize {
        return Ok(None);
      }
      var open := ledger.database.FirstProposedBlock();
      if open.Some? {
        return Ok(None);
      }
      var sealed := ProposeAndFinalize(ledger, keys, batchSize, clock);
      r := match sealed case Ok(report) => Ok(Some(report)) case Err(error) => Err(error);
    }

    /** Answers a submitted event. */
    method SubmitEvent(e: SignedEvent, now: int, clock: nat -> int) returns (r: Result<Submission, LedgerError>)
      requires keys != []
      modifies ledger.database
      ensures (State(), r) == Submit(ledger.suite, Setup(), old(State()), e, now, clock)
      ensures old(Sound()) && r.Ok? ==> Answers(ledger.suite, Setup(), old(State()), State(), e, r.value)
      ensures old(Sound()) ==> Sound()
    {
      hide Serves, Answers;
      if Sound() {
        SubmitAnswers(ledger.suite, Setup(), State(), e, now, clock);
        SubmitKeepsServing(ledger.suite, Setup(), State(), e, now, clock);
      }
      var accepted := ledger.AcceptEvent(e, now);
      if accepted.Err? {
        return Err(accepted.error);
      }
      var sealed := SealIfDue(clock);
      r := match sealed case Ok(block) => Ok(Submission(accepted.value, block)) case Err(error) => Err(error);
    }
  }
}
