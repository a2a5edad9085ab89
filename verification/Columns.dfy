/** Which columns of a stored event the audit pins, which it does not read, and what holds of the latter all the same. */
module Columns {
  import opened Primitives
  import opened Models
  import opened Store
  import opened Audit
  import opened Growth
  import opened Interleaving

  // ---------------------------------------------------------------------------
  // Columns no check reads
  // ---------------------------------------------------------------------------

  predicate InFinalBlock(t: Tables, e: Bytes)
    requires e in t.events
  {
    var h := t.events[e].blockHeight;
    h.Some? && h.value in t.blocks && t.blocks[h.value].status == Finalized
  }

  /**
   * The row differs from that of event e at most in columns the audit does not read:
   * device time, event type and arrival time, and outside final blocks the finality flag.
   */
  predicate SameChecked(t: Tables, e: Bytes, row: EventRow)
    requires e in t.events
  {
    && row == t.events[e].(deviceTimeMs := row.deviceTimeMs, eventType := row.eventType, receivedAtMs := row.receivedAtMs, finalized := row.finalized)
    && (InFinalBlock(t, e) ==> row.finalized == t.events[e].finalized)
  }

  function WithRow(t: Tables, e: Bytes, row: EventRow): Tables { t.(events := t.events[e := row]) }

  lemma SameEventOk(s: Suite, t: Tables, e: Bytes, row: EventRow, f: Bytes)
    requires e in t.events && SameChecked(t, e, row) && f in t.events && EventOk(s, t, f)
    ensures EventOk(s, WithRow(t, e, row), f)
  {
  }

  lemma SameContentsOk(s: Suite, t: Tables, e: Bytes, row: EventRow, h: int)
    requires e in t.events && SameChecked(t, e, row) && h in t.blocks && ContentsOk(s, t, h)
    ensures ContentsOk(s, WithRow(t, e, row), h)
  {
    var u := WithRow(t, e, row);
    assert EventHashes(u, h) == EventHashes(t, h);
    forall f | f in EventHashes(u, h) ensures MemberOk(u, h, f) {
      assert MemberOk(t, h, f);
    }
    forall id | id in Signatures(u, h) ensures SignatureOk(s, u, h, id) {
      assert SignatureOk(s, t, h, id);
    }
  }

  lemma SameCheckpointOk(t: Tables, e: Bytes, row: EventRow, d: string)
    requires e in t.events && SameChecked(t, e, row) && d in t.devices && CheckpointOk(t, d)
    ensures CheckpointOk(WithRow(t, e, row), d)
  {
    var u := WithRow(t, e, row);
    if f :| f in u.events && u.events[f].deviceId == d {
      assert t.events[f].deviceId == d;
      assert IsLatest(t, d, t.devices[d].lastEventHash);
    }
  }

  lemma SameMappingOk(t: Tables, e: Bytes, row: EventRow, f: Bytes)
    requires e in t.events && SameChecked(t, e, row) && f in t.events && MappingOk(t, f)
    ensures MappingOk(WithRow(t, e, row), f)
  {
    if t.events[f].blockHeight.Some? {
      var p :| Occupies(t, t.events[f].blockHeight.value, p, f);
      assert Occupies(WithRow(t, e, row), t.events[f].blockHeight.value, p, f);
    }
  }

  lemma UnreadIsInvisible(s: Suite, t: Tables, e: Bytes, row: EventRow)
    requires e in t.events && SameChecked(t, e, row) && WellFormed(s, t)
    ensures WellFormed(s, WithRow(t, e, row))
  {
    var u := WithRow(t, e, row);
    forall h | h in u.blocks ensures BlockOk(s, u, h) {
      assert BlockOk(s, t, h);
      SameContentsOk(s, t, e, row, h);
    }
    forall f | f in u.events ensures EventOk(s, u, f) {
      assert EventOk(s, t, f);
      SameEventOk(s, t, e, row, f);
    }
    forall d | d in u.devices ensures CheckpointOk(u, d) {
      assert CheckpointOk(t, d);
      SameCheckpointOk(t, e, row, d);
    }
    forall f | f in u.events ensures MappingOk(u, f) {
      assert MappingOk(t, f);
      SameMappingOk(t, e, row, f);
    }
  }

  // ---------------------------------------------------------------------------
  // Columns the audit pins
  // ---------------------------------------------------------------------------

  /** The byte strings whose digest is checked for the event before and after the change. */
  function RowInputs(t: Tables, e: Bytes, row: EventRow): set<Bytes>
    requires e in t.events
  {
    {EventInput(t.events[e].unsigned, t.events[e].signature), EventInput(row.unsigned, row.signature)}
  }

  lemma ContentPinned(s: Suite, t: Tables, e: Bytes, row: EventRow)
    requires Lawful(s) && e in t.events && EventOk(s, t, e) && EventOk(s, WithRow(t, e, row), e)
    requires !CollisionIn(s.sha, RowInputs(t, e, row))
    ensures row.unsigned == t.events[e].unsigned && row.signature == t.events[e].signature
    ensures row.deviceId == t.events[e].deviceId && row.sequence == t.events[e].sequence && row.payload == t.events[e].payload
  {
    var x := t.events[e];
    NoCollision(s.sha, RowInputs(t, e, row), EventInput(x.unsigned, x.signature), EventInput(row.unsigned, row.signature));
    EventInputInjective(x.unsigned, x.signature, row.unsigned, row.signature);
    CanonicalDetermines(s, x.unsigned, x.deviceId, x.sequence, x.payload, row.deviceId, row.sequence, row.payload);
  }

  lemma LinkPinned(t: Tables, e: Bytes, row: EventRow)
    requires Keyed(t) && e in t.events && Linked(t, e) && Linked(WithRow(t, e, row), e)
    requires row.deviceId == t.events[e].deviceId && row.sequence == t.events[e].sequence
    ensures row.previousEventHash == t.events[e].previousEventHash
  {
    if row.sequence > 1 {
      assert EventKey(WithRow(t, e, row), row.previousEventHash) == EventKey(t, row.previousEventHash);
    }
  }

  /** Rows of the membership table belong to stored blocks, as its foreign key demands. */
  predicate MembershipRefers(t: Tables) { t.blockEvents.Keys <= t.blocks.Keys }

  lemma NamedBlockHasIt(s: Suite, t: Tables, e: Bytes)
    requires WellFormed(s, t) && MembershipRefers(t) && e in t.events && t.events[e].blockHeight.Some?
    ensures t.events[e].blockHeight.value in t.blocks && e in EventHashes(t, t.events[e].blockHeight.value)
  {
    var h := t.events[e].blockHeight.value;
    assert MappingOk(t, e);
    var p :| Occupies(t, h, p, e);
    MemberIffOccupies(t, h, e);
    assert h in t.blockEvents;
  }

  lemma MemberNamesBlock(s: Suite, t: Tables, h: int, e: Bytes)
    requires WellFormed(s, t) && h in t.blocks && e in EventHashes(t, h)
    ensures e in t.events && t.events[e].blockHeight == Some(h) && (t.blocks[h].status == Finalized ==> t.events[e].finalized)
  {
    assert BlockOk(s, t, h);
    assert MemberOk(t, h, e);
  }

  lemma PlacePinned(s: Suite, t: Tables, e: Bytes, row: EventRow)
    requires WellFormed(s, t) && WellFormed(s, WithRow(t, e, row)) && MembershipRefers(t) && e in t.events
    ensures row.blockHeight == t.events[e].blockHeight
    ensures InFinalBlock(t, e) ==> row.finalized == t.events[e].finalized
  {
    var u := WithRow(t, e, row);
    if t.events[e].blockHeight.Some? {
      var h := t.events[e].blockHeight.value;
      NamedBlockHasIt(s, t, e);
      assert EventHashes(u, h) == EventHashes(t, h);
      MemberNamesBlock(s, t, h, e);
      MemberNamesBlock(s, u, h, e);
    } else if row.blockHeight.Some? {
      NamedBlockHasIt(s, u, e);
      assert EventHashes(u, row.blockHeight.value) == EventHashes(t, row.blockHeight.value);
      MemberNamesBlock(s, t, row.blockHeight.value, e);
    }
  }

  lemma AuditedRow(s: Suite, t: Tables, e: Bytes)
    requires WellFormed(s, t) && e in t.events
    ensures EventOk(s, t, e)
  {
  }

  /**
   * Changing the row of one event of a database that passes the audit goes unnoticed
   * exactly when only columns change that the audit does not read. Anything else it
   * notices, unless the two byte strings hashed for the event collide.
   */
  lemma ChangeUnnoticedIff(s: Suite, t: Tables, e: Bytes, row: EventRow)
    requires Lawful(s) && Keyed(t) && MembershipRefers(t) && WellFormed(s, t) && e in t.events
    ensures CollisionIn(s.sha, RowInputs(t, e, row)) || (WellFormed(s, WithRow(t, e, row)) <==> SameChecked(t, e, row))
  {
    var u := WithRow(t, e, row);
    if SameChecked(t, e, row) {
      UnreadIsInvisible(s, t, e, row);
    }
    if WellFormed(s, u) && !CollisionIn(s.sha, RowInputs(t, e, row)) {
      AuditedRow(s, t, e);
      AuditedRow(s, u, e);
      ContentPinned(s, t, e, row);
      LinkPinned(t, e, row);
      PlacePinned(s, t, e, row);
    }
  }

  // ---------------------------------------------------------------------------
  // What the gateway itself writes into them
  // ---------------------------------------------------------------------------

  /** The columns that the audit does not compare with the signed bytes agree with them. */
  predicate SignedColumns(s: Suite, row: EventRow) {
    match Loads(s, row.unsigned)
    case Ok(Map(m)) =>
      && "device_time_ms" in m && m["device_time_ms"] == Int(row.deviceTimeMs)
      && "event_type" in m && m["event_type"] == Text(row.eventType)
      && "previous_event_hash" in m && m["previous_event_hash"] == Blob(row.previousEventHash)
    case _ => false
  }

  ghost predicate ColumnsSigned(s: Suite, t: Tables) {
    forall e :: e in t.events ==> SignedColumns(s, t.events[e])
  }

  lemma NewRowSigned(s: Suite, e: SignedEvent, payload: Bytes, now: int)
    requires Lawful(s) && Encodable(e)
    ensures SignedColumns(s, NewEventRow(s, e, payload, now))
  {
    UnsignedMapSupported(e);
    LoadsInvertsDumps(s, UnsignedMap(e), SigningBytes(s, e));
    UnsignedTextFields(e);
    UnsignedNumberFields(e);
  }

  /** The only transaction that adds an event adds what was signed. */
  lemma AddedRowSigned(s: Suite, x: System, step: Step, y: System, e: Bytes)
    requires Lawful(s) && SystemInv(s, x) && Next(s, x, step, y) && e in y.tables.events && e !in x.tables.events
    ensures SignedColumns(s, y.tables.events[e])
  {
    AdditionIsInsertion(s, x, step, e);
    var task := x.tasks[step.n];
    assert TaskOk(s, x.tables, task);
    NewRowSigned(s, task.event, task.payload, step.now);
  }

  lemma AdditionIsInsertion(s: Suite, x: System, step: Step, e: Bytes)
    requires Enabled(s, x, step) && e in TablesAfter(s, x, step).events && e !in x.tables.events
    ensures step.StoreEvent? && step.n in x.tasks && x.tasks[step.n].Accepting?
    ensures TablesAfter(s, x, step).events[e] == NewEventRow(s, x.tasks[step.n].event, x.tasks[step.n].payload, step.now)
  {
  }

  lemma NextKeepsColumns(s: Suite, x: System, step: Step, y: System)
    requires Lawful(s) && SystemInv(s, x) && ColumnsSigned(s, x.tables) && Next(s, x, step, y)
    ensures ColumnsSigned(s, y.tables)
  {
    NextKeepsInv(s, x, step, y);
    forall e | e in y.tables.events ensures SignedColumns(s, y.tables.events[e]) {
      if e in x.tables.events {
        assert EventKept(x.tables, y.tables, e);
      } else {
        AddedRowSigned(s, x, step, y, e);
      }
    }
  }

  lemma NoColumns(s: Suite)
    ensures ColumnsSigned(s, EMPTY)
  {
  }

  /** In every reachable state device time, event type and previous hash are the signed ones, although no audit checks it. */
  lemma {:induction false} RunColumnsSigned(s: Suite, states: seq<System>, steps: seq<Step>, i: nat)
    requires Lawful(s) && Run(s, states, steps) && i < |states|
    ensures ColumnsSigned(s, states[i].tables)
    decreases i
  {
    hide SystemInv, Next, ColumnsSigned;
    if i == 0 {
      NoColumns(s);
    } else {
      RunColumnsSigned(s, states, steps, i - 1);
      RunKeepsInv(s, states, steps, i - 1);
      assert Next(s, states[i - 1], steps[i - 1], states[i - 1 + 1]);
      NextKeepsColumns(s, states[i - 1], steps[i - 1], states[i]);
    }
  }
}
