// What the bounded request queue means: an unbounded ledger of every request
// and every change of state, which the queue shows the end of.
module CtiLedger {
  import opened Common
  import opened CtiRequests

  datatype Change = Change(id: U64, state: RequestState)
  datatype Entry = Entry(id: U64, destination: Wide, key: Bytes)

  // All requests since the last clear, all changes ever, and how many of those
  // there were at the last clear.
  datatype Ledger = Ledger(next: U64, requests: seq<Entry>, log: seq<Change>, mark: nat)

  const NEW_LEDGER := Ledger(1, [], [], 0)

  // Replaying the log: the last change made to a request.
  function StateOf(log: seq<Change>, id: U64): Option<RequestState>
    decreases |log|
  {
    if log == [] then None
    else if log[|log| - 1].id == id then Some(log[|log| - 1].state)
    else StateOf(log[..|log| - 1], id)
  }

  predicate Terminal(s: RequestState) { s == Submitted || s == Rejected || s == Cancelled }

  predicate InState(l: Ledger, e: Entry, s: RequestState) { StateOf(l.log, e.id) == Some(s) }

  predicate NewestIs(l: Ledger, s: RequestState) {
    l.requests != [] && InState(l, l.requests[|l.requests| - 1], s)
  }

  function Newest(l: Ledger): Entry
    requires l.requests != []
  {
    l.requests[|l.requests| - 1]
  }

  // The requests whose records are still kept.
  function Kept(requests: seq<Entry>): seq<Entry> {
    if |requests| > RECORD_CAPACITY then requests[|requests| - RECORD_CAPACITY..] else requests
  }

  function IndexOfEntry(entries: seq<Entry>, id: U64): nat {
    FirstWhere(entries, (e: Entry) => e.id == id)
  }

  function IndexOfEntryKey(entries: seq<Entry>, key: Bytes): nat {
    FirstWhere(entries, (e: Entry) => e.key == key)
  }

  // --- Operations on the ledger ----------------------------------------------

  datatype Op =
    | SubmitOp(destination: Wide)
    | KeyedOp(destination: Wide, key: Bytes, ready: bool)
    | RejectOp
    | TakeOp
    | CompleteOp(id: U64, submitted: bool)
    | CancelOp(id: U64)
    | ClearOp

  datatype Answer =
    | Identifier(id: Option<U64>) | Keyed(r: SubmitResult) | Flag(ok: bool)
    | Handed(request: Option<Pending>) | CancelAnswer(outcome: CancelOutcome) | Done

  predicate InFlight(l: Ledger) { NewestIs(l, Queued) || NewestIs(l, Dispatching) }

  predicate CanCreate(l: Ledger) { l.next != 0 && !InFlight(l) }

  function CreatedIn(l: Ledger, destination: Wide, key: Bytes): Ledger {
    l.(next := Next64(l.next), requests := l.requests + [Entry(l.next, destination, key)],
       log := l.log + [Change(l.next, Queued)])
  }

  function ChangedTo(l: Ledger, s: RequestState): Ledger
    requires l.requests != []
  {
    l.(log := l.log + [Change(Newest(l).id, s)])
  }

  function KeyedAnswer(l: Ledger, destination: Wide, key: Bytes, ready: bool): SubmitResult {
    var kept := Kept(l.requests);
    var k := IndexOfEntryKey(kept, key);
    if destination == [] then SubmitResult(Busy, 0, Queued)
    else if key != [] && k < |kept| then
      SubmitResult(if kept[k].destination != destination then KeyConflict else Replayed, kept[k].id,
                   StateOf(l.log, kept[k].id).GetOr(Queued))
    else if !ready then SubmitResult(NotReady, 0, Queued)
    else if !CanCreate(l) then SubmitResult(Busy, 0, Queued)
    else SubmitResult(Created, l.next, Queued)
  }

  function LedgerStep(l: Ledger, op: Op): (Ledger, Answer) {
    match op
    case SubmitOp(destination) =>
      if destination == [] || !CanCreate(l) then (l, Identifier(None))
      else (CreatedIn(l, destination, []), Identifier(Some(l.next)))
    case KeyedOp(destination, key, ready) =>
      var r := KeyedAnswer(l, destination, key, ready);
      (if r.outcome == Created then CreatedIn(l, destination, key) else l, Keyed(r))
    case RejectOp => if NewestIs(l, Queued) then (ChangedTo(l, Rejected), Flag(true)) else (l, Flag(false))
    case TakeOp =>
      if NewestIs(l, Queued) then
        (ChangedTo(l, Dispatching), Handed(Some(Pending(Newest(l).id, Newest(l).destination))))
      else (l, Handed(None))
    case CompleteOp(id, submitted) =>
      if NewestIs(l, Dispatching) && Newest(l).id == id then
        (ChangedTo(l, if submitted then Submitted else Rejected), Flag(true))
      else (l, Flag(false))
    case CancelOp(id) =>
      if NewestIs(l, Queued) && Newest(l).id == id then (ChangedTo(l, Cancelled), CancelAnswer(CancelledNow))
      else (l, CancelAnswer(if IndexOfEntry(Kept(l.requests), id) < |Kept(l.requests)| then TooLate else NotFound))
    case ClearOp => (l.(requests := [], mark := |l.log|), Done)
  }

  function QueueStep(c: Cti, op: Op): (Cti, Answer) {
    match op
    case SubmitOp(destination) => var r := SubmitPlain(c, destination); (r.0, Identifier(r.1))
    case KeyedOp(destination, key, ready) => var r := SubmitKeyed(c, destination, key, ready); (r.0, Keyed(r.1))
    case RejectOp => var r := RejectedPending(c); (r.0, Flag(r.1))
    case TakeOp => var r := Taken(c); (r.0, Handed(r.1))
    case CompleteOp(id, submitted) => var r := Completed(c, id, submitted); (r.0, Flag(r.1))
    case CancelOp(id) => var r := CancelledRequest(c, id); (r.0, CancelAnswer(r.1))
    case ClearOp => (ClearedCti(c), Done)
  }

  // --- The invariant of the ledger -------------------------------------------

  predicate IdsRise(l: Ledger) {
    && (forall i, j :: 0 <= i < j < |l.requests| ==> l.requests[i].id < l.requests[j].id)
    && (forall i :: 0 <= i < |l.requests| ==> Issued(l.next, l.requests[i].id) && l.requests[i].destination != [])
  }

  predicate Issued(next: U64, id: U64) { 1 <= id && (next != 0 ==> id < next) }

  predicate LogIssued(l: Ledger) {
    forall i :: 0 <= i < |l.log| ==> Issued(l.next, l.log[i].id)
  }

  // Only the newest request can still change.
  predicate OthersTerminal(l: Ledger) {
    && (forall i :: 0 <= i < |l.requests| ==> StateOf(l.log, l.requests[i].id).Some?)
    && (forall i :: 0 <= i < |l.requests| - 1 ==> Terminal(StateOf(l.log, l.requests[i].id).value))
  }

  predicate KeysUnique(entries: seq<Entry>) {
    forall i, j :: 0 <= i < j < |entries| && entries[i].key != [] ==> entries[i].key != entries[j].key
  }

  predicate LedgerInv(l: Ledger) {
    IdsRise(l) && LogIssued(l) && OthersTerminal(l) && KeysUnique(Kept(l.requests)) && l.mark <= |l.log|
  }

  lemma StateAfter(log: seq<Change>, c: Change, id: U64)
    ensures StateOf(log + [c], id) == if id == c.id then Some(c.state) else StateOf(log, id)
  {
    assert (log + [c])[..|log|] == log;
  }

  lemma {:induction false} UnissuedHasNoState(log: seq<Change>, id: U64)
    requires forall i :: 0 <= i < |log| ==> log[i].id != id
    ensures StateOf(log, id) == None
    decreases |log|
  {
    if log != [] {
      UnissuedHasNoState(log[..|log| - 1], id);
    }
  }

  lemma KeptGrows(requests: seq<Entry>, e: Entry)
    ensures Kept(requests + [e]) == Bounded(Kept(requests) + [e], RECORD_CAPACITY)
  {
    var n := |requests|;
    if n > RECORD_CAPACITY {
      assert (requests + [e])[n + 1 - RECORD_CAPACITY..] == (requests[n - RECORD_CAPACITY..] + [e])[1..];
    } else if n == RECORD_CAPACITY {
      assert (requests + [e])[1..] == (requests + [e])[n + 1 - RECORD_CAPACITY..];
    }
  }

  lemma CreateKeepsIds(l: Ledger, destination: Wide, key: Bytes)
    requires LedgerInv(l) && CanCreate(l) && destination != []
    ensures IdsRise(CreatedIn(l, destination, key)) && LogIssued(CreatedIn(l, destination, key))
  {
    hide StateOf, Kept, OthersTerminal, KeysUnique;
  }

  lemma CreateKeepsStates(l: Ledger, destination: Wide, key: Bytes)
    requires LedgerInv(l) && CanCreate(l)
    ensures OthersTerminal(CreatedIn(l, destination, key))
  {
    var after := CreatedIn(l, destination, key);
    forall i | 0 <= i < |after.requests|
      ensures StateOf(after.log, after.requests[i].id) ==
              if i < |l.requests| then StateOf(l.log, l.requests[i].id) else Some(Queued)
    {
      StateAfter(l.log, Change(l.next, Queued), after.requests[i].id);
    }
    NotInFlightIsTerminal(l);
    hide StateOf, Kept, LogIssued, KeysUnique, InFlight;
  }

  lemma CreateKeepsKeys(requests: seq<Entry>, e: Entry)
    requires KeysUnique(Kept(requests))
    requires e.key != [] ==> IndexOfEntryKey(Kept(requests), e.key) == |Kept(requests)|
    ensures KeysUnique(Kept(requests + [e]))
  {
    KeptGrows(requests, e);
    hide Kept;
    assert KeysUnique(Kept(requests) + [e]);
  }

  lemma {:induction false} CreateKeepsInv(l: Ledger, destination: Wide, key: Bytes)
    requires LedgerInv(l) && CanCreate(l) && destination != []
    requires key != [] ==> IndexOfEntryKey(Kept(l.requests), key) == |Kept(l.requests)|
    ensures LedgerInv(CreatedIn(l, destination, key))
  {
    CreateKeepsIds(l, destination, key);
    CreateKeepsStates(l, destination, key);
    CreateKeepsKeys(l.requests, Entry(l.next, destination, key));
    hide IdsRise, LogIssued, OthersTerminal, KeysUnique, Kept;
  }

  lemma NotInFlightIsTerminal(l: Ledger)
    requires OthersTerminal(l) && !InFlight(l)
    ensures forall i :: 0 <= i < |l.requests| ==> Terminal(StateOf(l.log, l.requests[i].id).value)
  {
    hide StateOf;
  }

  lemma ChangeKeepsInv(l: Ledger, s: RequestState)
    requires LedgerInv(l) && l.requests != []
    ensures LedgerInv(ChangedTo(l, s)) && NewestIs(ChangedTo(l, s), s)
  {
    var after := ChangedTo(l, s);
    forall i | 0 <= i < |l.requests|
      ensures StateOf(after.log, l.requests[i].id) ==
              if i == |l.requests| - 1 then Some(s) else StateOf(l.log, l.requests[i].id)
    {
      StateAfter(l.log, Change(Newest(l).id, s), l.requests[i].id);
    }
    hide StateOf, Kept;
  }

  lemma {:induction false} StepKeepsInv(l: Ledger, op: Op)
    requires LedgerInv(l)
    ensures LedgerInv(LedgerStep(l, op).0)
  {
    match op
    case SubmitOp(destination) => if destination != [] && CanCreate(l) { CreateKeepsInv(l, destination, []); }
    case KeyedOp(destination, key, ready) =>
      if KeyedAnswer(l, destination, key, ready).outcome == Created { CreateKeepsInv(l, destination, key); }
    case RejectOp => if NewestIs(l, Queued) { ChangeKeepsInv(l, Rejected); }
    case TakeOp => if NewestIs(l, Queued) { ChangeKeepsInv(l, Dispatching); }
    case CompleteOp(id, submitted) =>
      if NewestIs(l, Dispatching) { ChangeKeepsInv(l, if submitted then Submitted else Rejected); }
    case CancelOp(id) => if NewestIs(l, Queued) { ChangeKeepsInv(l, Cancelled); }
    case ClearOp => ClearKeepsInv(l);
    hide LedgerInv, CanCreate, NewestIs, CreatedIn, ChangedTo;
  }

  lemma ClearKeepsInv(l: Ledger)
    requires LedgerInv(l)
    ensures LedgerInv(l.(requests := [], mark := |l.log|))
  {
  }

  // --- The queue shows the end of the ledger ---------------------------------

  function Top(log: seq<Change>): U64 { if |log| > MAX64 then MAX64 else |log| }

  // Changes from..end of a log, numbered from one.
  function Numbered(log: seq<Change>, from: nat, end: nat): (r: seq<Transition>)
    requires from <= end <= |log| && end <= MAX64
    ensures |r| == end - from
    decreases end
  {
    if from == end then [] else Numbered(log, from, end - 1) + [Transition(end, log[end - 1].id, log[end - 1].state)]
  }

  function KeptFrom(log: seq<Change>, mark: nat): (r: nat)
    requires mark <= |log|
    ensures r <= Top(log) && (mark <= Top(log) ==> mark <= r) && Top(log) - r <= EVENT_CAPACITY
  {
    var first := if mark < Top(log) then mark else Top(log);
    if Top(log) - first > EVENT_CAPACITY then Top(log) - EVENT_CAPACITY else first
  }

  predicate ShowsEvents(events: seq<Transition>, sequence: U64, log: seq<Change>, mark: nat) {
    mark <= |log| && sequence == Top(log) && events == Numbered(log, KeptFrom(log, mark), Top(log))
  }

  function RecordOf(log: seq<Change>, e: Entry): Record {
    Record(e.id, StateOf(log, e.id).GetOr(Queued), e.key, if e.key == [] then [] else e.destination)
  }

  predicate ShowsRecords(records: seq<Record>, log: seq<Change>, kept: seq<Entry>) {
    |records| == |kept| && forall i :: 0 <= i < |records| ==> records[i] == RecordOf(log, kept[i])
  }

  function NewestAs(l: Ledger, s: RequestState): Option<Pending> {
    if NewestIs(l, s) then Some(Pending(Newest(l).id, Newest(l).destination)) else None
  }

  predicate Refines(c: Cti, l: Ledger) {
    && c.next == l.next
    && c.pending == NewestAs(l, Queued) && c.active == NewestAs(l, Dispatching)
    && ShowsRecords(c.records, l.log, Kept(l.requests))
    && ShowsEvents(c.events, c.sequence, l.log, l.mark)
  }

  lemma NewRefines()
    ensures LedgerInv(NEW_LEDGER) && Refines(NEW_CTI, NEW_LEDGER)
  {
  }

  lemma {:induction false} NumberedPrefix(log: seq<Change>, c: Change, from: nat, end: nat)
    requires from <= end <= |log| && end <= MAX64
    ensures Numbered(log + [c], from, end) == Numbered(log, from, end)
    decreases end
  {
    if from < end {
      NumberedPrefix(log, c, from, end - 1);
    }
  }

  lemma {:induction false} NumberedAt(log: seq<Change>, from: nat, end: nat, i: nat)
    requires from <= end <= |log| && end <= MAX64 && i < end - from
    ensures Numbered(log, from, end)[i] == Transition(from + i + 1, log[from + i].id, log[from + i].state)
    decreases end
  {
    if i < end - from - 1 {
      NumberedAt(log, from, end - 1, i);
    }
  }

  lemma {:induction false} NumberedTail(log: seq<Change>, from: nat, end: nat)
    requires from < end <= |log| && end <= MAX64
    ensures Numbered(log, from, end)[1..] == Numbered(log, from + 1, end)
    decreases end
  {
    if from + 1 < end {
      NumberedTail(log, from, end - 1);
      var x := [Transition(end, log[end - 1].id, log[end - 1].state)];
      var before := Numbered(log, from, end - 1);
      assert (before + x)[1..] == before[1..] + x;
    }
  }

  lemma NotedBelowCeiling(log: seq<Change>, mark: nat, change: Change, events: seq<Transition>)
    requires mark <= |log| < MAX64 && events == Numbered(log, KeptFrom(log, mark), |log|)
    ensures var longer, x := log + [change], Transition(|log| + 1, change.id, change.state);
            Bounded(events + [x], EVENT_CAPACITY) == Numbered(longer, KeptFrom(longer, mark), |longer|)
  {
    var longer := log + [change];
    var from := KeptFrom(log, mark);
    NumberedPrefix(log, change, from, |log|);
    assert Numbered(longer, from, |longer|) == events + [Transition(|log| + 1, change.id, change.state)];
    if |events| == EVENT_CAPACITY {
      NumberedTail(longer, from, |longer|);
    }
    hide Numbered;
  }

  lemma NotedShows(c: Cti, log: seq<Change>, mark: nat, change: Change)
    requires ShowsEvents(c.events, c.sequence, log, mark)
    ensures var d := Noted(c, change.id, change.state); ShowsEvents(d.events, d.sequence, log + [change], mark)
  {
    hide Numbered;
    if c.sequence < MAX64 {
      NotedBelowCeiling(log, mark, change, c.events);
    } else {
      NumberedPrefix(log, change, KeptFrom(log, mark), Top(log));
    }
  }

  lemma ClearShows(c: Cti, log: seq<Change>, mark: nat)
    requires ShowsEvents(c.events, c.sequence, log, mark)
    ensures ShowsEvents([], c.sequence, log, |log|)
  {
  }

  lemma {:induction false} SameIndex(records: seq<Record>, log: seq<Change>, kept: seq<Entry>, id: U64)
    requires ShowsRecords(records, log, kept)
    ensures IndexOfId(records, id) == IndexOfEntry(kept, id)
    decreases |records|
  {
    hide StateOf;
    if records != [] {
      assert records[0] == RecordOf(log, kept[0]);
      if records[0].id != id {
        SameIndex(records[1..], log, kept[1..], id);
      }
    }
  }

  lemma {:induction false} SameKeyIndex(records: seq<Record>, log: seq<Change>, kept: seq<Entry>, key: Bytes)
    requires ShowsRecords(records, log, kept)
    ensures IndexOfKey(records, key) == IndexOfEntryKey(kept, key)
    decreases |records|
  {
    hide StateOf;
    if records != [] {
      assert records[0] == RecordOf(log, kept[0]);
      if records[0].key != key {
        SameKeyIndex(records[1..], log, kept[1..], key);
      }
    }
  }

  // The newest request's record is the last one kept, and the only one of its id.
  lemma NewestIsLast(c: Cti, l: Ledger)
    requires LedgerInv(l) && Refines(c, l) && l.requests != []
    ensures c.records != [] && IndexOfId(c.records, Newest(l).id) == |c.records| - 1
    ensures c.records[|c.records| - 1] == RecordOf(l.log, Newest(l))
  {
    var kept := Kept(l.requests);
    assert kept[|kept| - 1] == Newest(l);
    SameIndex(c.records, l.log, kept, Newest(l).id);
    var k := IndexOfEntry(kept, Newest(l).id);
    hide StateOf, OthersTerminal, ShowsEvents;
  }

  lemma NewestQueuedIndex(c: Cti, l: Ledger)
    requires LedgerInv(l) && Refines(c, l) && NewestIs(l, Queued)
    ensures c.records != [] && IndexOfQueued(c.records, Newest(l).id) == |c.records| - 1
  {
    NewestIsLast(c, l);
    var k := IndexOfQueued(c.records, Newest(l).id);
    hide StateOf, ShowsEvents;
  }

  // A change of the newest request, on both sides.
  lemma {:induction false} ChangeRefines(c: Cti, l: Ledger, s: RequestState, pending: Option<Pending>, active: Option<Pending>)
    requires LedgerInv(l) && Refines(c, l) && l.requests != []
    requires pending == NewestAs(ChangedTo(l, s), Queued) && active == NewestAs(ChangedTo(l, s), Dispatching)
    ensures IndexOfId(c.records, Newest(l).id) == |c.records| - 1 < |c.records|
    ensures Refines(Marked(c.(pending := pending, active := active), |c.records| - 1, s), ChangedTo(l, s))
  {
    NewestIsLast(c, l);
    var change := Change(Newest(l).id, s);
    var kept, after := Kept(l.requests), ChangedTo(l, s);
    var last := |c.records| - 1;
    var records := c.records[last := c.records[last].(state := s)];
    forall i | 0 <= i < |records| ensures records[i] == RecordOf(after.log, kept[i]) {
      StateAfter(l.log, change, kept[i].id);
      KeptInOrder(l, i);
    }
    NotedShows(c.(pending := pending, active := active, records := records), l.log, l.mark, change);
    hide StateOf, Kept, ShowsEvents, LedgerInv, NewestIs;
  }

  lemma KeptInOrder(l: Ledger, i: nat)
    requires IdsRise(l) && i < |Kept(l.requests)|
    ensures var kept := Kept(l.requests); kept[i].id == Newest(l).id <==> i == |kept| - 1
  {
  }

  lemma {:induction false} CreateRefines(c: Cti, l: Ledger, destination: Wide, key: Bytes)
    requires LedgerInv(l) && Refines(c, l) && CanCreate(l)
    ensures Refines(WithRequest(c, destination, key), CreatedIn(l, destination, key))
  {
    var e, change := Entry(l.next, destination, key), Change(l.next, Queued);
    var after, kept := CreatedIn(l, destination, key), Kept(l.requests);
    KeptGrows(l.requests, e);
    var records := c.records + [Record(l.next, Queued, key, if key == [] then [] else destination)];
    forall i | 0 <= i < |records| ensures records[i] == RecordOf(after.log, (kept + [e])[i]) {
      StateAfter(l.log, change, (kept + [e])[i].id);
      if i < |kept| { assert kept[i].id < l.next by { KeptIssued(l, i); } }
    }
    assert ShowsRecords(Bounded(records, RECORD_CAPACITY), after.log, Kept(after.requests));
    StateAfter(l.log, change, l.next);
    NotedShows(c.(next := Next64(l.next), pending := Some(Pending(l.next, destination)),
                  records := Bounded(records, RECORD_CAPACITY)), l.log, l.mark, change);
    hide StateOf, Kept, ShowsEvents, LedgerInv;
  }

  lemma KeptIssued(l: Ledger, i: nat)
    requires IdsRise(l) && i < |Kept(l.requests)| && l.next != 0
    ensures Kept(l.requests)[i].id < l.next
  {
  }

  lemma FreeMeansCanCreate(c: Cti, l: Ledger)
    requires Refines(c, l)
    ensures Free(c) <==> CanCreate(l)
  {
    hide ShowsEvents, ShowsRecords;
  }

  // In any state the ledger explains, queue and ledger do the same and answer
  // the same: lookups succeed, evictions lose only finished requests, and every
  // kept record is in the state the log replays to.
  lemma {:induction false} StepRefines(c: Cti, l: Ledger, op: Op)
    requires LedgerInv(l) && Refines(c, l)
    ensures Refines(QueueStep(c, op).0, LedgerStep(l, op).0)
    ensures QueueStep(c, op).1 == LedgerStep(l, op).1
  {
    FreeMeansCanCreate(c, l);
    match op
    case SubmitOp(destination) => if CanCreate(l) { CreateRefines(c, l, destination, []); } hide Refines, CanCreate;
    case KeyedOp(destination, key, ready) => KeyedRefines(c, l, destination, key, ready);
    case RejectOp => RejectRefines(c, l);
    case TakeOp => TakeRefines(c, l);
    case CompleteOp(id, submitted) => CompleteRefines(c, l, id, submitted);
    case CancelOp(id) => CancelRefines(c, l, id);
    case ClearOp => ClearShows(c, l.log, l.mark);
    hide WithRequest, CreatedIn, RejectedPending, Taken, Completed, CancelledRequest;
  }

  lemma KeyedAnswers(c: Cti, l: Ledger, destination: Wide, key: Bytes, ready: bool)
    requires Refines(c, l)
    ensures SubmitKeyed(c, destination, key, ready).1 == KeyedAnswer(l, destination, key, ready)
  {
    FreeMeansCanCreate(c, l);
    var kept := Kept(l.requests);
    SameKeyIndex(c.records, l.log, kept, key);
    var k := IndexOfKey(c.records, key);
    if k < |c.records| {
      assert c.records[k] == RecordOf(l.log, kept[k]);
    }
    hide CanCreate, Free, StateOf, Kept, ShowsEvents, ShowsRecords, WithRequest, NewestAs;
  }

  // A keyed submission that creates nothing changes nothing, on either side.
  lemma KeyedChanges(c: Cti, l: Ledger, destination: Wide, key: Bytes, ready: bool)
    ensures var r := SubmitKeyed(c, destination, key, ready);
            if r.1.outcome == Created then Free(c) && r.0 == WithRequest(c, destination, key) else r.0 == c
    ensures var r := LedgerStep(l, KeyedOp(destination, key, ready));
            && r.1 == Keyed(KeyedAnswer(l, destination, key, ready))
            && r.0 == if KeyedAnswer(l, destination, key, ready).outcome == Created then CreatedIn(l, destination, key) else l
  {
    hide IndexOfKey, Free, WithRequest, KeyedAnswer, CreatedIn;
  }

  lemma {:induction false} KeyedRefines(c: Cti, l: Ledger, destination: Wide, key: Bytes, ready: bool)
    requires LedgerInv(l) && Refines(c, l)
    ensures var r := LedgerStep(l, KeyedOp(destination, key, ready));
            Refines(SubmitKeyed(c, destination, key, ready).0, r.0) && Keyed(SubmitKeyed(c, destination, key, ready).1) == r.1
  {
    KeyedAnswers(c, l, destination, key, ready);
    KeyedChanges(c, l, destination, key, ready);
    FreeMeansCanCreate(c, l);
    hide Refines, CanCreate, Free, KeyedAnswer, WithRequest, CreatedIn, LedgerInv, SubmitKeyed, LedgerStep;
    if CanCreate(l) { CreateRefines(c, l, destination, key); }
  }

  lemma AfterChange(l: Ledger, s: RequestState)
    requires LedgerInv(l) && l.requests != []
    ensures NewestAs(ChangedTo(l, s), Queued) ==
            if s == Queued then Some(Pending(Newest(l).id, Newest(l).destination)) else None
    ensures NewestAs(ChangedTo(l, s), Dispatching) ==
            if s == Dispatching then Some(Pending(Newest(l).id, Newest(l).destination)) else None
  {
    ChangeKeepsInv(l, s);
    hide StateOf, LedgerInv;
  }

  // What the queue holds in flight is the newest request.
  lemma InFlightIsNewest(c: Cti, l: Ledger)
    requires Refines(c, l)
    ensures c.pending == (if NewestIs(l, Queued) then Some(Pending(Newest(l).id, Newest(l).destination)) else None)
    ensures c.active == (if NewestIs(l, Dispatching) then Some(Pending(Newest(l).id, Newest(l).destination)) else None)
    ensures !(c.pending.Some? && c.active.Some?)
    ensures NewestIs(l, Queued) || NewestIs(l, Dispatching) ==> l.requests != []
  {
    hide ShowsRecords, ShowsEvents, StateOf;
  }

  // One change of the newest request, as the queue makes it.
  lemma {:induction false} ChangeStep(c: Cti, l: Ledger, s: RequestState)
    requires LedgerInv(l) && Refines(c, l) && l.requests != [] && s != Queued
    ensures IndexOfId(c.records, Newest(l).id) == |c.records| - 1 < |c.records|
    ensures var active := if s == Dispatching then Some(Pending(Newest(l).id, Newest(l).destination)) else None;
            Refines(Marked(c.(pending := None, active := active), |c.records| - 1, s), ChangedTo(l, s))
  {
    AfterChange(l, s);
    ChangeRefines(c, l, s, None, NewestAs(ChangedTo(l, s), Dispatching));
    hide Refines, LedgerInv, Marked, ChangedTo, NewestAs;
  }

  lemma {:induction false} RejectedHit(c: Cti, l: Ledger)
    requires LedgerInv(l) && Refines(c, l) && NewestIs(l, Queued)
    ensures Refines(RejectedPending(c).0, ChangedTo(l, Rejected)) && RejectedPending(c).1
  {
    InFlightIsNewest(c, l);
    NotBoth(l);
    NewestQueuedIndex(c, l);
    ChangeStep(c, l, Rejected);
    hide Refines, LedgerInv, Marked, ChangedTo, NewestIs;
  }

  lemma {:induction false} RejectRefines(c: Cti, l: Ledger)
    requires LedgerInv(l) && Refines(c, l)
    ensures var r := LedgerStep(l, RejectOp); Refines(RejectedPending(c).0, r.0) && Flag(RejectedPending(c).1) == r.1
  {
    InFlightIsNewest(c, l);
    hide Refines, LedgerInv, Marked, ChangedTo, NewestIs;
    if NewestIs(l, Queued) {
      RejectedHit(c, l);
      hide RejectedPending;
    }
  }

  lemma NotBoth(l: Ledger)
    ensures !(NewestIs(l, Queued) && NewestIs(l, Dispatching))
  {
  }

  lemma {:induction false} TakeRefines(c: Cti, l: Ledger)
    requires LedgerInv(l) && Refines(c, l)
    ensures var r := LedgerStep(l, TakeOp); Refines(Taken(c).0, r.0) && Handed(Taken(c).1) == r.1
  {
    InFlightIsNewest(c, l);
    if NewestIs(l, Queued) {
      ChangeStep(c, l, Dispatching);
    }
    hide Refines, LedgerInv, Marked, ChangedTo, NewestIs;
  }

  lemma {:induction false} CompletedHit(c: Cti, l: Ledger, submitted: bool)
    requires LedgerInv(l) && Refines(c, l) && NewestIs(l, Dispatching)
    ensures var s := if submitted then Submitted else Rejected;
            Refines(Completed(c, Newest(l).id, submitted).0, ChangedTo(l, s)) && Completed(c, Newest(l).id, submitted).1
  {
    InFlightIsNewest(c, l);
    NotBoth(l);
    ChangeStep(c, l, if submitted then Submitted else Rejected);
    hide Refines, LedgerInv, Marked, ChangedTo, NewestIs;
  }

  lemma {:induction false} CompleteRefines(c: Cti, l: Ledger, id: U64, submitted: bool)
    requires LedgerInv(l) && Refines(c, l)
    ensures var r := LedgerStep(l, CompleteOp(id, submitted));
            Refines(Completed(c, id, submitted).0, r.0) && Flag(Completed(c, id, submitted).1) == r.1
  {
    InFlightIsNewest(c, l);
    hide Refines, LedgerInv, Marked, ChangedTo, NewestIs;
    if NewestIs(l, Dispatching) && Newest(l).id == id {
      CompletedHit(c, l, submitted);
      hide Completed;
    }
  }

  lemma {:induction false} CancelledHit(c: Cti, l: Ledger)
    requires LedgerInv(l) && Refines(c, l) && NewestIs(l, Queued)
    ensures Refines(CancelledRequest(c, Newest(l).id).0, ChangedTo(l, Cancelled))
    ensures CancelledRequest(c, Newest(l).id).1 == CancelledNow
  {
    InFlightIsNewest(c, l);
    NotBoth(l);
    NewestIsLast(c, l);
    ChangeStep(c, l, Cancelled);
    hide Refines, LedgerInv, Marked, ChangedTo, NewestIs, StateOf;
    assert c.records[|c.records| - 1].state == Queued by { NewestState(l); }
  }

  lemma NewestState(l: Ledger)
    requires NewestIs(l, Queued)
    ensures RecordOf(l.log, Newest(l)).state == Queued
  {
  }

  lemma {:induction false} CancelRefines(c: Cti, l: Ledger, id: U64)
    requires LedgerInv(l) && Refines(c, l)
    ensures var r := LedgerStep(l, CancelOp(id));
            Refines(CancelledRequest(c, id).0, r.0) && CancelAnswer(CancelledRequest(c, id).1) == r.1
  {
    InFlightIsNewest(c, l);
    var kept := Kept(l.requests);
    SameIndex(c.records, l.log, kept, id);
    assert |c.records| == |kept|;
    hide Refines, LedgerInv, Marked, ChangedTo, NewestIs, Kept, ShowsRecords;
    if NewestIs(l, Queued) && Newest(l).id == id {
      CancelledHit(c, l);
      hide CancelledRequest;
    }
  }

  function QueueRun(c: Cti, ops: seq<Op>): Cti
    decreases |ops|
  {
    if ops == [] then c else QueueRun(QueueStep(c, ops[0]).0, ops[1..])
  }

  function LedgerRun(l: Ledger, ops: seq<Op>): Ledger
    decreases |ops|
  {
    if ops == [] then l else LedgerRun(LedgerStep(l, ops[0]).0, ops[1..])
  }

  lemma {:induction false} RunRefines(c: Cti, l: Ledger, ops: seq<Op>)
    requires LedgerInv(l) && Refines(c, l)
    ensures LedgerInv(LedgerRun(l, ops)) && Refines(QueueRun(c, ops), LedgerRun(l, ops))
    decreases |ops|
  {
    hide LedgerInv, Refines, QueueStep, LedgerStep;
    if ops != [] {
      StepKeepsInv(l, ops[0]);
      StepRefines(c, l, ops[0]);
      RunRefines(QueueStep(c, ops[0]).0, LedgerStep(l, ops[0]).0, ops[1..]);
    }
  }
}
