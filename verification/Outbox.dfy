/** The device's durable outbox: a bounded first-in first-out queue kept in a file. */
module Outbox {
  import opened Primitives
  import opened Models

  /** A signed event with its hash, as it is kept and sent. */
  datatype Wire = Wire(event: SignedEvent, eventHash: Bytes)

  function Sequence(w: Wire): int { w.event.sequence }

  /** One element of the list in the file; only an object with readable fields is an item. */
  datatype Entry = NotAnObject | BadFields | Item(wire: Wire)

  datatype File = Absent | Unreadable | NotAList | Listing(entries: seq<Entry>)

  datatype OutboxError =
    | BadCapacity | CannotRead | RootNotAList | EntryNotAnObject | InvalidEntry | NotContiguous
    | Full | DoesNotContinue | DoesNotBeginAtGateway

  function FileOf(items: seq<Wire>): (r: File)
    ensures r.Listing? && |r.entries| == |items| && forall i :: 0 <= i < |items| ==> r.entries[i] == Item(items[i])
  {
    Listing(seq(|items|, i requires 0 <= i < |items| => Item(items[i])))
  }

  predicate Contiguous(items: seq<Wire>) {
    forall i | 0 <= i < |items| - 1 :: Sequence(items[i + 1]) == Sequence(items[i]) + 1
  }

  /** The verdict on one more entry after the items read so far. */
  function EntryError(items: seq<Wire>, e: Entry): Option<OutboxError> {
    match e
    case NotAnObject => Some(EntryNotAnObject)
    case BadFields => Some(InvalidEntry)
    case Item(w) => if items != [] && Sequence(w) != Sequence(items[|items| - 1]) + 1 then Some(NotContiguous) else None
  }

  function ReadEntries(entries: seq<Entry>): (r: Result<seq<Wire>, OutboxError>) {
    if entries == [] then Ok([])
    else
      var n := |entries| - 1;
      match ReadEntries(entries[..n])
      case Err(e) => Err(e)
      case Ok(items) =>
        match EntryError(items, entries[n])
        case Some(e) => Err(e)
        case None => if entries[n].Item? then Ok(items + [entries[n].wire]) else Ok(items)
  }

  function Read(file: File): Result<seq<Wire>, OutboxError> {
    match file
    case Absent => Ok([])
    case Unreadable => Err(CannotRead)
    case NotAList => Err(RootNotAList)
    case Listing(entries) => ReadEntries(entries)
  }

  /** Exactly the contiguous lists survive being written and read back. */
  lemma {:induction false} ReadEntriesOf(items: seq<Wire>, entries: seq<Entry>)
    requires |entries| == |items| && forall i :: 0 <= i < |items| ==> entries[i] == Item(items[i])
    ensures ReadEntries(entries) == if Contiguous(items) then Ok(items) else Err(NotContiguous)
  {
    hide Contiguous;
    if items == [] {
      ShortIsContiguous(items);
    } else {
      var n := |items| - 1;
      assert items == items[..n] + [items[n]];
      ReadEntriesOf(items[..n], entries[..n]);
      if Contiguous(items) {
        ContiguousFront(items, n);
      }
      if Contiguous(items[..n]) {
        ContiguousAppend(items[..n], items[n]);
      }
    }
  }

  lemma ShortIsContiguous(items: seq<Wire>)
    requires |items| <= 1
    ensures Contiguous(items)
  {
  }

  lemma ContiguousFront(items: seq<Wire>, n: nat)
    requires n <= |items| && Contiguous(items)
    ensures Contiguous(items[..n])
  {
    forall i | 0 <= i < n - 1 ensures Sequence(items[..n][i + 1]) == Sequence(items[..n][i]) + 1 {
      assert Sequence(items[i + 1]) == Sequence(items[i]) + 1;
    }
  }

  lemma ContiguousAppend(items: seq<Wire>, w: Wire)
    requires Contiguous(items)
    ensures Contiguous(items + [w]) <==> items == [] || Sequence(w) == Sequence(items[|items| - 1]) + 1
  {
    var more := items + [w];
    if items != [] && Contiguous(more) {
      assert Sequence(more[|items| - 1 + 1]) == Sequence(more[|items| - 1]) + 1;
    }
  }

  lemma ReadBack(items: seq<Wire>)
    ensures Read(FileOf(items)) == if Contiguous(items) then Ok(items) else Err(NotContiguous)
  {
    ReadEntriesOf(items, FileOf(items).entries);
  }

  /** What is left once everything up to a sequence is acknowledged. */
  function Remaining(items: seq<Wire>, acknowledged: int): (r: seq<Wire>)
    ensures forall i :: 0 <= i < |r| ==> Sequence(r[i]) > acknowledged
    ensures |r| <= |items|
  {
    if items == [] then []
    else
      var n := |items| - 1;
      var before := Remaining(items[..n], acknowledged);
      if Sequence(items[n]) > acknowledged then before + [items[n]] else before
  }

  // ---------------------------------------------------------------------------
  // The object
  // ---------------------------------------------------------------------------

  class DurableOutbox {
    var file: File
    var items: seq<Wire>
    const maxItems: Option<int>

    constructor (file: File, maxItems: Option<int>)
      ensures this.file == file && this.maxItems == maxItems && items == []
    {
      this.file, this.maxItems, items := file, maxItems, [];
    }

    /** Opens the outbox over the file that is there. */
    static method Open(file: File, maxItems: Option<int>) returns (r: Result<DurableOutbox, OutboxError>)
      ensures maxItems.Some? && maxItems.value < 1 ==> r == Err(BadCapacity)
      ensures !(maxItems.Some? && maxItems.value < 1) ==>
                match Read(file)
                case Ok(loaded) => r.Ok? && fresh(r.value) && r.value.items == loaded && r.value.file == file && r.value.maxItems == maxItems
                case Err(e) => r == Err(e)
    {
      if maxItems.Some? && maxItems.value < 1 {
        return Err(BadCapacity);
      }
      var outbox := new DurableOutbox(file, maxItems);
      var error := outbox.Load();
      r := if error.Some? then Err(error.value) else Ok(outbox);
    }

    method Load() returns (error: Option<OutboxError>)
      requires items == []
      modifies this`items
      ensures match Read(file) case Ok(loaded) => error.None? && items == loaded case Err(e) => error == Some(e)
    {
      match file
      case Absent => return None;
      case Unreadable => return Some(CannotRead);
      case NotAList => return Some(RootNotAList);
      case Listing(entries) =>
        for i := 0 to |entries|
          invariant file == Listing(entries) && ReadEntries(entries[..i]) == Ok(items)
        {
          assert entries[..i + 1][..i] == entries[..i];
          error := EntryError(items, entries[i]);
          if error.Some? {
            FirstErrorStays(entries, i + 1);
            return;
          }
          if entries[i].Item? {
            items := items + [entries[i].wire];
          }
        }
        assert entries[..|entries|] == entries;
        error := None;
    }

    method Persist()
      modifies this`file
      ensures file == FileOf(items)
    {
      file := FileOf(items);
    }

    predicate AtCapacity()
      reads this
    {
      maxItems.Some? && |items| >= maxItems.value
    }

    method Append(w: Wire) returns (error: Option<OutboxError>)
      modifies this
      ensures error == AppendError(old(items), maxItems, w)
      ensures error.Some? ==> items == old(items) && file == old(file)
      ensures error.None? ==> items == old(items) + [w] && file == FileOf(items)
    {
      if AtCapacity() {
        return Some(Full);
      }
      if items != [] && Sequence(w) != Sequence(items[|items| - 1]) + 1 {
        return Some(DoesNotContinue);
      }
      items := items + [w];
      Persist();
      error := None;
    }

    method Acknowledge(acknowledged: int) returns (removed: nat)
      modifies this
      ensures items == Remaining(old(items), acknowledged) && file == FileOf(items)
      ensures removed == |old(items)| - |items|
    {
      var kept: seq<Wire> := [];
      for i := 0 to |items|
        invariant kept == Remaining(items[..i], acknowledged)
        invariant unchanged(this)
      {
        assert items[..i + 1][..i] == items[..i];
        if Sequence(items[i]) > acknowledged {
          kept := kept + [items[i]];
        }
      }
      assert items[..|items|] == items;
      removed := |items| - |kept|;
      items := kept;
      Persist();
    }

    /** Drops what the gateway has; what is left must be what the gateway expects next. */
    method Reconcile(gatewaySequence: int) returns (error: Option<OutboxError>)
      modifies this
      ensures items == Remaining(old(items), gatewaySequence) && file == FileOf(items)
      ensures error == if items != [] && Sequence(items[0]) != gatewaySequence + 1 then Some(DoesNotBeginAtGateway) else None
    {
      var removed := Acknowledge(gatewaySequence);
      error := if items != [] && Sequence(items[0]) != gatewaySequence + 1 then Some(DoesNotBeginAtGateway) else None;
    }
  }

  function AppendError(items: seq<Wire>, maxItems: Option<int>, w: Wire): Option<OutboxError> {
    if maxItems.Some? && |items| >= maxItems.value then Some(Full)
    else if items != [] && Sequence(w) != Sequence(items[|items| - 1]) + 1 then Some(DoesNotContinue)
    else None
  }

  lemma {:induction false} FirstErrorStays(entries: seq<Entry>, i: nat)
    requires i <= |entries| && ReadEntries(entries[..i]).Err?
    ensures ReadEntries(entries) == ReadEntries(entries[..i])
    decreases |entries| - i
  {
    if i == |entries| {
      assert entries[..i] == entries;
    } else {
      assert entries[..i + 1][..i] == entries[..i];
      FirstErrorStays(entries, i + 1);
    }
  }

  // ---------------------------------------------------------------------------
  // A bounded queue over any history of use
  // ---------------------------------------------------------------------------

  datatype Use = Appended(wire: Wire) | Acknowledged(upTo: int) | Reopened

  /** Everything appended, everything acknowledged, and what the outbox holds. */
  datatype History = History(appended: seq<Wire>, acknowledged: int, items: seq<Wire>)

  /** One use of the outbox: appends continue what was appended before, and may be refused for lack of room. */
  predicate Used(maxItems: Option<int>, x: History, u: Use, y: History) {
    match u
    case Appended(w) =>
      && (x.appended == [] || Sequence(w) == Sequence(x.appended[|x.appended| - 1]) + 1)
      && Sequence(w) > x.acknowledged
      && y == (if AppendError(x.items, maxItems, w).None? then History(x.appended + [w], x.acknowledged, x.items + [w]) else x)
    case Acknowledged(n) =>
      && (n <= x.acknowledged || x.appended == [] || n <= Sequence(x.appended[|x.appended| - 1]))
      && y == History(x.appended, if n > x.acknowledged then n else x.acknowledged, Remaining(x.items, n))
    case Reopened => Read(FileOf(x.items)) == Ok(y.items) && y == x.(items := y.items)
  }

  /** The outbox holds, in order, exactly what was appended and not yet acknowledged. */
  predicate Queue(x: History) {
    && Contiguous(x.appended)
    && x.items == Remaining(x.appended, x.acknowledged)
  }

  lemma {:induction false} ContiguousGap(items: seq<Wire>, i: nat, j: nat)
    requires Contiguous(items) && i <= j < |items|
    ensures Sequence(items[j]) == Sequence(items[i]) + j - i
    decreases j
  {
    if i < j {
      ContiguousGap(items, i, j - 1);
      assert Sequence(items[j - 1 + 1]) == Sequence(items[j - 1]) + 1;
    }
  }

  /** How many items at the front of a contiguous list an acknowledgement covers. */
  function Cut(items: seq<Wire>, acknowledged: int): (r: nat)
    ensures r <= |items|
  {
    if items == [] || acknowledged < Sequence(items[0]) then 0
    else if acknowledged - Sequence(items[0]) + 1 < |items| then acknowledged - Sequence(items[0]) + 1
    else |items|
  }

  /** Of a contiguous list, what is left after an acknowledgement is its end. */
  lemma CutOfFront(items: seq<Wire>, acknowledged: int)
    requires Contiguous(items) && items != []
    ensures var n := |items| - 1;
            if Sequence(items[n]) > acknowledged then Cut(items, acknowledged) == Cut(items[..n], acknowledged)
            else Cut(items[..n], acknowledged) == n && Cut(items, acknowledged) == n + 1
  {
    ContiguousGap(items, 0, |items| - 1);
  }

  lemma {:induction false} RemainingIsSuffix(items: seq<Wire>, acknowledged: int)
    requires Contiguous(items)
    ensures Remaining(items, acknowledged) == items[Cut(items, acknowledged)..]
  {
    hide Cut;
    if items == [] {
      assert items[Cut(items, acknowledged)..] == [];
    } else {
      var n := |items| - 1;
      var front := items[..n];
      RemainingIsSuffix(front, acknowledged);
      CutOfFront(items, acknowledged);
      if Sequence(items[n]) > acknowledged {
        assert items[Cut(items, acknowledged)..] == front[Cut(items, acknowledged)..] + [items[n]];
      }
    }
  }

  /** Acknowledging the first k of consecutively numbered items leaves the others. */
  lemma RemainingDrops(items: seq<Wire>, first: int, k: nat)
    requires Contiguous(items) && k <= |items| && (items != [] ==> Sequence(items[0]) == first)
    ensures Remaining(items, first - 1 + k) == items[k..]
  {
    RemainingIsSuffix(items, first - 1 + k);
  }

  lemma SuffixContiguous(items: seq<Wire>, k: nat)
    requires Contiguous(items) && k <= |items|
    ensures Contiguous(items[k..])
  {
    var rest := items[k..];
    forall i | 0 <= i < |rest| - 1 ensures Sequence(rest[i + 1]) == Sequence(rest[i]) + 1 {
      assert Sequence(items[k + i + 1]) == Sequence(items[k + i]) + 1;
    }
  }

  lemma {:induction false} RemainingTwice(items: seq<Wire>, m: int, n: int)
    ensures Remaining(Remaining(items, m), n) == Remaining(items, if n > m then n else m)
  {
    if items != [] {
      var last := items[|items| - 1];
      RemainingTwice(items[..|items| - 1], m, n);
      var before := Remaining(items[..|items| - 1], m);
      if Sequence(last) > m {
        assert (before + [last])[..|before|] == before;
      }
    }
  }

  lemma QueueSuffix(x: History)
    requires Queue(x)
    ensures x.items == x.appended[Cut(x.appended, x.acknowledged)..]
    ensures Read(FileOf(x.items)) == Ok(x.items)
  {
    RemainingIsSuffix(x.appended, x.acknowledged);
    SuffixContiguous(x.appended, Cut(x.appended, x.acknowledged));
    ReadBack(x.items);
  }

  /** An append that continues the history is refused only for lack of room. */
  lemma OnlyFullRefuses(maxItems: Option<int>, x: History, w: Wire)
    requires Queue(x) && (x.appended == [] || Sequence(w) == Sequence(x.appended[|x.appended| - 1]) + 1)
    ensures AppendError(x.items, maxItems, w).None? || AppendError(x.items, maxItems, w) == Some(Full)
  {
    QueueSuffix(x);
    if x.items != [] {
      assert x.items[|x.items| - 1] == x.appended[|x.appended| - 1];
    }
  }

  lemma AppendKeepsQueue(x: History, w: Wire)
    requires Queue(x) && Sequence(w) > x.acknowledged
    requires x.appended == [] || Sequence(w) == Sequence(x.appended[|x.appended| - 1]) + 1
    ensures Queue(History(x.appended + [w], x.acknowledged, x.items + [w]))
  {
    ContiguousAppend(x.appended, w);
    assert (x.appended + [w])[..|x.appended|] == x.appended;
  }

  lemma UseKeepsQueue(maxItems: Option<int>, x: History, u: Use, y: History)
    requires Queue(x) && Used(maxItems, x, u, y)
    ensures Queue(y)
    ensures maxItems.Some? && |x.items| <= maxItems.value ==> |y.items| <= maxItems.value
  {
    match u
    case Appended(w) =>
      if AppendError(x.items, maxItems, w).None? {
        AppendKeepsQueue(x, w);
      }
    case Acknowledged(n) =>
      RemainingTwice(x.appended, x.acknowledged, n);
    case Reopened =>
      QueueSuffix(x);
  }

  ghost predicate Usage(maxItems: Option<int>, states: seq<History>, uses: seq<Use>) {
    && |states| == |uses| + 1
    && forall i :: 0 <= i < |uses| ==> Used(maxItems, states[i], uses[i], states[i + 1])
  }

  /** What acknowledgements cover and what the outbox holds, put together, is everything appended; and the file gives it back. */
  predicate Lossless(x: History) {
    var k := Cut(x.appended, x.acknowledged);
    && x.appended == x.appended[..k] + x.items
    && (forall j | 0 <= j < |x.appended| :: Sequence(x.appended[j]) <= x.acknowledged <==> j < k)
    && Read(FileOf(x.items)) == Ok(x.items)
  }

  lemma QueueIsLossless(x: History)
    requires Queue(x)
    ensures Lossless(x)
  {
    QueueSuffix(x);
    forall j | 0 <= j < |x.appended| ensures Sequence(x.appended[j]) <= x.acknowledged <==> j < Cut(x.appended, x.acknowledged) {
      ContiguousGap(x.appended, 0, j);
    }
  }

  /**
   * Over any history of appends, acknowledgements and reloads: nothing is lost or
   * reordered, reloading returns the same items, and the bound holds once it does.
   */
  lemma {:induction false} BoundedFifo(maxItems: Option<int>, states: seq<History>, uses: seq<Use>, i: nat)
    requires Usage(maxItems, states, uses) && Queue(states[0]) && i < |states|
    ensures Queue(states[i]) && Lossless(states[i])
    ensures maxItems.Some? && |states[0].items| <= maxItems.value ==> |states[i].items| <= maxItems.value
    decreases i
  {
    if i > 0 {
      BoundedFifo(maxItems, states, uses, i - 1);
      assert Used(maxItems, states[i - 1], uses[i - 1], states[i - 1 + 1]);
      UseKeepsQueue(maxItems, states[i - 1], uses[i - 1], states[i]);
    }
    QueueIsLossless(states[i]);
  }
}
