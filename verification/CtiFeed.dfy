// What clients of the request queue can rely on: one request in flight, lawful
// histories, event pages without silent loss, and keys that name one request.
module CtiFeed {
  import opened Common
  import opened CtiRequests
  import opened CtiLedger

  // --- One in flight ---------------------------------------------------------

  // In every reachable state at most one request is in flight; its record is the
  // newest and says which way; every other record is final.
  lemma AtMostOneInFlight(ops: seq<Op>, i: nat)
    ensures var c := QueueRun(NEW_CTI, ops);
            var n := |c.records|;
            && !(c.pending.Some? && c.active.Some?)
            && (c.pending.Some? ==> n > 0 && c.records[n - 1].id == c.pending.value.id && c.records[n - 1].state == Queued)
            && (c.active.Some? ==> n > 0 && c.records[n - 1].id == c.active.value.id && c.records[n - 1].state == Dispatching)
            && (i < n && !Terminal(c.records[i].state) ==> i == n - 1 && (c.pending.Some? || c.active.Some?))
  {
    NewRefines();
    RunRefines(NEW_CTI, NEW_LEDGER, ops);
    hide QueueRun, LedgerRun;
    var c, l := QueueRun(NEW_CTI, ops), LedgerRun(NEW_LEDGER, ops);
    InFlightIsNewest(c, l);
    if l.requests != [] {
      NewestIsLast(c, l);
      hide LedgerInv, Refines, StateOf;
      if i < |c.records| { RecordStates(c, l, i); }
    }
  }

  lemma RecordStates(c: Cti, l: Ledger, i: nat)
    requires LedgerInv(l) && Refines(c, l) && i < |c.records|
    ensures !Terminal(c.records[i].state) ==> i == |c.records| - 1 && (NewestIs(l, Queued) || NewestIs(l, Dispatching))
  {
    var kept := Kept(l.requests);
    assert c.records[i] == RecordOf(l.log, kept[i]);
    KeptInOrder(l, i);
    hide StateOf, ShowsEvents, IdsRise;
  }

  // --- Histories -------------------------------------------------------------

  function HistoryOf(log: seq<Change>, id: U64): seq<RequestState>
    decreases |log|
  {
    if log == [] then []
    else
      var before := HistoryOf(log[..|log| - 1], id);
      if log[|log| - 1].id == id then before + [log[|log| - 1].state] else before
  }

  // Queued; then taken and finished, or rejected or cancelled before that.
  predicate Lawful(h: seq<RequestState>) {
    && |h| <= 3
    && (|h| > 0 ==> h[0] == Queued)
    && (|h| > 1 ==> h[1] == Dispatching || h[1] == Rejected || h[1] == Cancelled)
    && (|h| > 2 ==> h[1] == Dispatching && (h[2] == Submitted || h[2] == Rejected))
  }

  predicate HistoryInv(l: Ledger, id: U64) {
    var h := HistoryOf(l.log, id);
    Lawful(h) && StateOf(l.log, id) == if h == [] then None else Some(h[|h| - 1])
  }

  lemma HistoryAfter(log: seq<Change>, c: Change, id: U64)
    ensures HistoryOf(log + [c], id) == if id == c.id then HistoryOf(log, id) + [c.state] else HistoryOf(log, id)
  {
    assert (log + [c])[..|log|] == log;
  }

  lemma CreateIsLawful(l: Ledger, destination: Wide, key: Bytes, id: U64)
    requires LedgerInv(l) && HistoryInv(l, id) && l.next != 0
    ensures HistoryInv(CreatedIn(l, destination, key), id)
  {
    var change := Change(l.next, Queued);
    HistoryAfter(l.log, change, id);
    StateAfter(l.log, change, id);
    UnissuedHasNoState(l.log, l.next);
    hide StateOf, HistoryOf, IdsRise, OthersTerminal;
  }

  lemma ChangeIsLawful(l: Ledger, s: RequestState, id: U64)
    requires HistoryInv(l, id) && l.requests != []
    requires || (NewestIs(l, Queued) && (s == Dispatching || s == Rejected || s == Cancelled))
             || (NewestIs(l, Dispatching) && (s == Submitted || s == Rejected))
    ensures HistoryInv(ChangedTo(l, s), id)
  {
    var change := Change(Newest(l).id, s);
    HistoryAfter(l.log, change, id);
    StateAfter(l.log, change, id);
    hide StateOf, HistoryOf;
  }

  // Every request's changes, over any run and any number of clears, follow its
  // life cycle: nothing happens twice, and nothing after an end.
  lemma {:induction false} HistoriesAreLawful(l: Ledger, ops: seq<Op>, id: U64)
    requires LedgerInv(l) && HistoryInv(l, id)
    ensures HistoryInv(LedgerRun(l, ops), id)
    decreases |ops|
  {
    if ops != [] {
      StepKeepsInv(l, ops[0]);
      StepIsLawful(l, ops[0], id);
      hide LedgerInv, HistoryInv, LedgerStep;
      HistoriesAreLawful(LedgerStep(l, ops[0]).0, ops[1..], id);
    }
  }

  lemma StepIsLawful(l: Ledger, op: Op, id: U64)
    requires LedgerInv(l) && HistoryInv(l, id)
    ensures HistoryInv(LedgerStep(l, op).0, id)
  {
    match op
    case SubmitOp(destination) => if CanCreate(l) { CreateIsLawful(l, destination, [], id); }
    case KeyedOp(destination, key, ready) => if CanCreate(l) { CreateIsLawful(l, destination, key, id); }
    case RejectOp => if NewestIs(l, Queued) { ChangeIsLawful(l, Rejected, id); }
    case TakeOp => if NewestIs(l, Queued) { ChangeIsLawful(l, Dispatching, id); }
    case CompleteOp(done, submitted) =>
      if NewestIs(l, Dispatching) { ChangeIsLawful(l, if submitted then Submitted else Rejected, id); }
    case CancelOp(cancelled) => if NewestIs(l, Queued) { ChangeIsLawful(l, Cancelled, id); }
    case ClearOp =>
    hide StateOf, HistoryOf, LedgerInv, CreatedIn, ChangedTo;
  }

  // --- Event pages -----------------------------------------------------------

  lemma {:induction false} LaterOfNumbered(log: seq<Change>, from: nat, end: nat, after: U64)
    requires from <= end <= |log| && end <= MAX64
    ensures Later(Numbered(log, from, end), after, None) ==
            if after >= end then [] else Numbered(log, if after > from then after else from, end)
    decreases end - from
  {
    if from < end {
      var all := Numbered(log, from, end);
      NumberedAt(log, from, end, 0);
      NumberedTail(log, from, end);
      LaterOfNumbered(log, from + 1, end, after);
      if from >= after {
        assert all == [all[0]] + all[1..];
      }
      hide Numbered;
    }
  }

  // The changes numbered after a cursor, complete.
  function Missing(l: Ledger, after: U64): seq<Transition> {
    if after >= Top(l.log) then [] else Numbered(l.log, after, Top(l.log))
  }

  // A page says that something is lost exactly when changes after the cursor
  // are no longer kept although others are; a page that does not say so is
  // complete, unless nothing at all is kept and the cursor is behind.
  lemma PageIsHonest(c: Cti, l: Ledger, after: U64)
    requires Refines(c, l)
    ensures var page := PageAfter(c, after, None);
            && page.latest == Top(l.log)
            && (page.gap <==> c.events != [] && after < KeptFrom(l.log, l.mark))
            && (page.events == Missing(l, after) <==> !page.gap && (c.events != [] || after >= Top(l.log)))
  {
    var from, top := KeptFrom(l.log, l.mark), Top(l.log);
    LaterOfNumbered(l.log, from, top, after);
    if from < top {
      NumberedAt(l.log, from, top, 0);
    }
    hide Numbered, ShowsRecords, StateOf;
  }

  // Below the ceiling of the sequence the one silent loss is after a clear, before
  // the next change: a client whose cursor is behind it is told of no gap, and
  // shown nothing.
  lemma SilentExactlyAfterClear(c: Cti, l: Ledger, after: U64)
    requires Refines(c, l)
    ensures var page := PageAfter(c, after, None);
            !page.gap && page.events != Missing(l, after) <==> after < Top(l.log) <= l.mark
  {
    PageIsHonest(c, l, after);
    var from, top := KeptFrom(l.log, l.mark), Top(l.log);
    assert |c.events| == top - from;
    hide Numbered, ShowsRecords, StateOf, PageAfter;
  }

  // How many changes were ever made after a cursor, numbered or not.
  function Behind(l: Ledger, after: U64): nat {
    if after < |l.log| then |l.log| - after else 0
  }

  // A page that flags no gap shows fewer changes than were made after its cursor
  // exactly when the cursor is behind a clear after which nothing changed, or
  // the sequence has reached its ceiling, past which changes have no number.
  lemma SilentLossExactlyWhen(c: Cti, l: Ledger, after: U64)
    requires Refines(c, l)
    ensures var page := PageAfter(c, after, None);
            !page.gap && |page.events| != Behind(l, after) <==>
            (after < |l.log| <= l.mark) || (|l.log| > MAX64 && (l.mark >= MAX64 || after >= KeptFrom(l.log, l.mark)))
  {
    PageIsHonest(c, l, after);
    SilentExactlyAfterClear(c, l, after);
    LaterOfNumbered(l.log, KeptFrom(l.log, l.mark), Top(l.log), after);
    hide Numbered, ShowsRecords, StateOf, Later;
  }

  // The failing input: one request, then a clear. A client that has seen nothing
  // yet is shown nothing, and is told that it missed nothing.
  lemma ClearHidesChanges()
    ensures var ops := [SubmitOp([49]), ClearOp];
            var page := PageAfter(QueueRun(NEW_CTI, ops), 0, None);
            && page == Page(1, 0, false, [])
            && Missing(LedgerRun(NEW_LEDGER, ops), 0) == [Transition(1, 1, Queued)]
  {
    var ops, l := [SubmitOp([49]), ClearOp], LedgerStep(NEW_LEDGER, SubmitOp([49])).0;
    assert ops[1..] == [ClearOp] && ops[1..][1..] == [];
    assert l.log == [Change(1, Queued)];
    assert LedgerRun(NEW_LEDGER, ops) == LedgerStep(l, ClearOp).0 by {
      assert LedgerRun(l, [ClearOp]) == LedgerRun(LedgerStep(l, ClearOp).0, []);
    }
    assert QueueRun(NEW_CTI, ops) == ClearedCti(QueueStep(NEW_CTI, SubmitOp([49])).0) by {
      assert QueueRun(QueueStep(NEW_CTI, SubmitOp([49])).0, [ClearOp])
          == QueueRun(ClearedCti(QueueStep(NEW_CTI, SubmitOp([49])).0), []);
    }
    assert Numbered(l.log, 0, 1) == Numbered(l.log, 0, 0) + [Transition(1, 1, Queued)];
  }

  datatype FeedOp = Work(op: Op) | Poll
  datatype Client = Client(cursor: U64, received: seq<Transition>, lost: bool)

  function Polled(c: Cti, k: Client): Client {
    var page := PageAfter(c, k.cursor, None);
    Client(page.latest, k.received + page.events, k.lost || page.gap)
  }

  // A client that always asks for what comes after the last latest sequence.
  function Follow(c: Cti, k: Client, ops: seq<FeedOp>): Client
    decreases |ops|
  {
    if ops == [] then k
    else match ops[0]
      case Work(op) => Follow(QueueStep(c, op).0, k, ops[1..])
      case Poll => Follow(c, Polled(c, k), ops[1..])
  }

  function Worked(l: Ledger, ops: seq<FeedOp>): Ledger
    decreases |ops|
  {
    if ops == [] then l
    else if ops[0].Work? then Worked(LedgerStep(l, ops[0].op).0, ops[1..])
    else Worked(l, ops[1..])
  }

  predicate NeverClears(ops: seq<FeedOp>) {
    forall i :: 0 <= i < |ops| ==> ops[i] != Work(ClearOp)
  }

  lemma {:induction false} NumberedConcat(log: seq<Change>, a: nat, b: nat, c: nat)
    requires a <= b <= c <= |log| && c <= MAX64
    ensures Numbered(log, a, b) + Numbered(log, b, c) == Numbered(log, a, c)
    decreases c
  {
    if b < c {
      NumberedConcat(log, a, b, c - 1);
      var x := [Transition(c, log[c - 1].id, log[c - 1].state)];
      assert Numbered(log, a, b) + (Numbered(log, b, c - 1) + x) == (Numbered(log, a, b) + Numbered(log, b, c - 1)) + x;
    } else {
      assert Numbered(log, a, b) + [] == Numbered(log, a, b);
    }
  }

  // A client in step with the log from some position on.
  predicate InStep(l: Ledger, from: nat, k: Client) {
    && l.mark <= from <= k.cursor <= Top(l.log)
    && k.received == Numbered(l.log, from, k.cursor)
  }

  lemma PollStaysInStep(c: Cti, l: Ledger, from: nat, k: Client)
    requires Refines(c, l) && InStep(l, from, k) && !Polled(c, k).lost
    ensures InStep(l, from, Polled(c, k)) && Polled(c, k).cursor == Top(l.log)
  {
    PageIsHonest(c, l, k.cursor);
    SilentExactlyAfterClear(c, l, k.cursor);
    if k.cursor < Top(l.log) {
      NumberedConcat(l.log, from, k.cursor, Top(l.log));
    } else {
      assert k.received + [] == k.received;
    }
    hide Numbered, Refines, PageAfter;
  }

  lemma WorkStaysInStep(l: Ledger, op: Op, from: nat, k: Client)
    requires InStep(l, from, k) && op != ClearOp && LedgerInv(l)
    ensures InStep(LedgerStep(l, op).0, from, k)
  {
    var after := LedgerStep(l, op).0;
    if after.log != l.log {
      var change := after.log[|l.log|];
      assert after.log == l.log + [change];
      NumberedPrefix(l.log, change, from, k.cursor);
    }
    hide Numbered, StateOf, Kept, KeysUnique, OthersTerminal, NewestIs, CanCreate, IndexOfEntryKey;
  }

  lemma {:induction false} PolledKeepsLost(c: Cti, k: Client, ops: seq<FeedOp>)
    requires k.lost
    ensures Follow(c, k, ops).lost
    decreases |ops|
  {
    hide QueueStep, PageAfter;
    if ops != [] {
      match ops[0]
      case Work(op) => PolledKeepsLost(QueueStep(c, op).0, k, ops[1..]);
      case Poll => PolledKeepsLost(c, Polled(c, k), ops[1..]);
    }
  }

  // Between clears, a client that polls from its last cursor and is never told
  // of a gap has received every change since it started, once each and in order.
  lemma {:induction false} PollingReconstructsTheLog(c: Cti, l: Ledger, from: nat, k: Client, ops: seq<FeedOp>)
    requires LedgerInv(l) && Refines(c, l) && InStep(l, from, k) && NeverClears(ops)
    requires !Follow(c, k, ops).lost
    ensures InStep(Worked(l, ops), from, Follow(c, k, ops))
    decreases |ops|
  {
    hide LedgerInv, Refines, InStep, QueueStep, LedgerStep, Polled;
    if ops != [] {
      match ops[0]
      case Work(op) =>
        StepKeepsInv(l, op);
        StepRefines(c, l, op);
        WorkStaysInStep(l, op, from, k);
        PollingReconstructsTheLog(QueueStep(c, op).0, LedgerStep(l, op).0, from, k, ops[1..]);
      case Poll =>
        if Polled(c, k).lost {
          PolledKeepsLost(c, Polled(c, k), ops[1..]);
        }
        PollStaysInStep(c, l, from, k);
        PollingReconstructsTheLog(c, l, from, Polled(c, k), ops[1..]);
    }
  }

  // --- One request's feed ----------------------------------------------------

  function Only(events: seq<Transition>, id: U64): seq<Transition> {
    if events == [] then []
    else if events[0].id == id then [events[0]] + Only(events[1..], id)
    else Only(events[1..], id)
  }

  lemma {:induction false} LaterOfOne(events: seq<Transition>, after: U64, id: U64)
    ensures Later(events, after, Some(id)) == Only(Later(events, after, None), id)
    decreases |events|
  {
    if events != [] {
      var e, rest := events[0], Later(events[1..], after, None);
      LaterOfOne(events[1..], after, id);
      assert ([e] + rest)[1..] == rest;
    }
  }

  // A request's feed is the whole feed with the others' changes left out, for
  // exactly the requests whose records are kept.
  lemma {:induction false} RequestFeedIsFiltered(c: Cti, id: U64, after: U64)
    ensures PageFor(c, id, after).Some? <==> exists i :: 0 <= i < |c.records| && c.records[i].id == id
    ensures var whole := PageAfter(c, after, None);
            PageFor(c, id, after).Some? ==> PageFor(c, id, after).value == whole.(events := Only(whole.events, id))
  {
    LaterOfOne(c.events, after, id);
    var k := IndexOfId(c.records, id);
    assert k < |c.records| ==> c.records[k].id == id;
  }

  lemma {:induction false} OnlyAppends(events: seq<Transition>, e: Transition, id: U64)
    ensures Only(events + [e], id) == if e.id == id then Only(events, id) + [e] else Only(events, id)
    decreases |events|
  {
    if events == [] {
      assert events + [e] == [e] && [e][1..] == [];
    } else {
      assert (events + [e])[1..] == events[1..] + [e];
      OnlyAppends(events[1..], e, id);
    }
  }

  function StatesIn(events: seq<Transition>): seq<RequestState> {
    if events == [] then [] else StatesIn(events[..|events| - 1]) + [events[|events| - 1].state]
  }

  // A client that has the whole log has each request's exact history.
  lemma {:induction false} FeedTellsHistory(log: seq<Change>, end: nat, id: U64)
    requires end <= |log| && end <= MAX64
    ensures StatesIn(Only(Numbered(log, 0, end), id)) == HistoryOf(log[..end], id)
    decreases end
  {
    if end > 0 {
      var before := Numbered(log, 0, end - 1);
      var e := Transition(end, log[end - 1].id, log[end - 1].state);
      FeedTellsHistory(log, end - 1, id);
      OnlyAppends(before, e, id);
      HistoryAfter(log[..end - 1], Change(e.id, e.state), id);
      assert log[..end] == log[..end - 1] + [Change(e.id, e.state)];
      var kept := Only(before, id);
      assert (kept + [e])[..|kept|] == kept;
      hide HistoryOf, Only;
    } else {
      assert log[..0] == [];
    }
  }

  // --- Looking a request up --------------------------------------------------

  predicate KeptAt(l: Ledger, k: int, id: U64) { 0 <= k < |Kept(l.requests)| && Kept(l.requests)[k].id == id }

  // A request is found exactly while it is kept, and what is found is that very
  // request: its key, its destination if it has a key, and the last change made
  // to it.
  lemma {:induction false} FoundIsTheRequest(c: Cti, l: Ledger, id: U64)
    requires LedgerInv(l) && Refines(c, l)
    ensures Found(c, id).Some? <==> exists k :: KeptAt(l, k, id)
    ensures forall k :: KeptAt(l, k, id) ==>
              var e := Kept(l.requests)[k];
              var s := StateOf(l.log, id);
              s.Some? && Found(c, id) == Some(Record(id, s.value, e.key, if e.key == [] then [] else e.destination))
  {
    var i := IndexOfId(c.records, id);
    if i < |c.records| {
      assert c.records[i] == RecordOf(l.log, Kept(l.requests)[i]);
      assert KeptAt(l, i, id);
    }
    forall k | KeptAt(l, k, id)
      ensures var e, s := Kept(l.requests)[k], StateOf(l.log, id);
              s.Some? && Found(c, id) == Some(Record(id, s.value, e.key, if e.key == [] then [] else e.destination))
    {
      assert c.records[k] == RecordOf(l.log, Kept(l.requests)[k]);
      KeptOnce(l, k, i);
    }
    hide StateOf, ShowsEvents, OthersTerminal, LogIssued, KeysUnique;
  }

  lemma KeptOnce(l: Ledger, i: nat, j: nat)
    requires LedgerInv(l) && i < |Kept(l.requests)| && j < |Kept(l.requests)|
    ensures Kept(l.requests)[i].id == Kept(l.requests)[j].id ==> i == j
    ensures StateOf(l.log, Kept(l.requests)[i].id).Some?
  {
    var from := |l.requests| - |Kept(l.requests)|;
    assert Kept(l.requests)[i] == l.requests[from + i] && Kept(l.requests)[j] == l.requests[from + j];
  }

  // After any run.
  lemma {:induction false} GetTellsTheHistory(ops: seq<Op>, id: U64)
    ensures var c, l := QueueRun(NEW_CTI, ops), LedgerRun(NEW_LEDGER, ops);
            && (Found(c, id).Some? <==> exists k :: KeptAt(l, k, id))
            && forall k :: KeptAt(l, k, id) ==>
                 var e := Kept(l.requests)[k];
                 var s := StateOf(l.log, id);
                 s.Some? && Found(c, id) == Some(Record(id, s.value, e.key, if e.key == [] then [] else e.destination))
  {
    NewRefines();
    RunRefines(NEW_CTI, NEW_LEDGER, ops);
    FoundIsTheRequest(QueueRun(NEW_CTI, ops), LedgerRun(NEW_LEDGER, ops), id);
    hide QueueRun, LedgerRun, Refines, LedgerInv, Found, KeptAt;
  }

  // --- Idempotency -----------------------------------------------------------

  predicate SameKey(ops: seq<Op>, key: Bytes) {
    forall i :: 0 <= i < |ops| ==> ops[i].KeyedOp? && ops[i].key == key
  }

  // While a key's record is kept, resubmitting it, however often, whatever the
  // destination and readiness, changes nothing at all.
  lemma {:induction false} ResubmittingChangesNothing(c: Cti, ops: seq<Op>, key: Bytes)
    requires key != [] && IndexOfKey(c.records, key) < |c.records| && SameKey(ops, key)
    ensures QueueRun(c, ops) == c
    decreases |ops|
  {
    if ops != [] {
      ResubmittingChangesNothing(c, ops[1..], key);
    }
  }

  // An identifier stands for one entry for good: none of its fields change, and
  // it is not given out again, not even after a clear.
  predicate EntryFixed(l: Ledger, e: Entry) {
    Issued(l.next, e.id) && forall i :: 0 <= i < |l.requests| && l.requests[i].id == e.id ==> l.requests[i] == e
  }

  lemma {:induction false} StepFixesEntry(l: Ledger, op: Op, e: Entry)
    requires LedgerInv(l) && EntryFixed(l, e)
    ensures EntryFixed(LedgerStep(l, op).0, e)
  {
    hide StateOf, Kept, OthersTerminal, NewestIs;
  }

  lemma {:induction false} RunFixesEntry(l: Ledger, ops: seq<Op>, e: Entry)
    requires LedgerInv(l) && EntryFixed(l, e)
    ensures EntryFixed(LedgerRun(l, ops), e)
    decreases |ops|
  {
    hide LedgerInv, EntryFixed, LedgerStep;
    if ops != [] {
      StepFixesEntry(l, ops[0], e);
      StepKeepsInv(l, ops[0]);
      RunFixesEntry(LedgerStep(l, ops[0]).0, ops[1..], e);
    }
  }

  predicate RecordTells(r: Record, e: Entry) {
    r.id == e.id && r.key == e.key && r.keyDestination == if e.key == [] then [] else e.destination
  }

  lemma {:induction false} KeptEntry(c: Cti, l: Ledger, k: nat) returns (e: Entry)
    requires LedgerInv(l) && Refines(c, l) && k < |c.records|
    ensures RecordTells(c.records[k], e) && EntryFixed(l, e) && e == Kept(l.requests)[k]
  {
    var kept := Kept(l.requests);
    e := kept[k];
    assert c.records[k] == RecordOf(l.log, e);
    var i :| 0 <= i < |l.requests| && l.requests[i] == e;
    forall j | 0 <= j < |l.requests| && l.requests[j].id == e.id ensures j == i {
    }
    hide StateOf, ShowsEvents, OthersTerminal, LogIssued, KeysUnique;
  }

  lemma {:induction false} KeyLeadsToRequest(c: Cti, l: Ledger, e: Entry)
    requires LedgerInv(l) && Refines(c, l) && EntryFixed(l, e) && e.key != []
    requires IndexOfId(c.records, e.id) < |c.records|
    ensures IndexOfKey(c.records, e.key) == IndexOfId(c.records, e.id)
    ensures RecordTells(c.records[IndexOfId(c.records, e.id)], e)
  {
    var i := IndexOfId(c.records, e.id);
    var found := KeptEntry(c, l, i);
    assert found in l.requests;
    var k := IndexOfKey(c.records, e.key);
    var first := KeptEntry(c, l, k);
    assert KeysUnique(Kept(l.requests));
    hide Refines, LedgerInv, Kept, StateOf;
  }

  // After anything at all, as long as a keyed request's record is kept, its key
  // still leads to it: the same destination replays its identifier, another is
  // a conflict, and no second request is made.
  lemma {:induction false} KeyNamesOneRequest(before: seq<Op>, after: seq<Op>, k: nat, destination: Wide, ready: bool)
    requires k < |QueueRun(NEW_CTI, before).records| && QueueRun(NEW_CTI, before).records[k].key != [] && destination != []
    ensures var c := QueueRun(NEW_CTI, before);
            var r, d := c.records[k], QueueRun(c, after);
            IndexOfId(d.records, r.id) < |d.records| ==>
              var answer := SubmitKeyed(d, destination, r.key, ready);
              && answer.0 == d && answer.1.id == r.id
              && answer.1.outcome == if destination == r.keyDestination then Replayed else KeyConflict
  {
    hide QueueRun, LedgerRun, LedgerInv, Refines, EntryFixed;
    NewRefines();
    RunRefines(NEW_CTI, NEW_LEDGER, before);
    var c, l := QueueRun(NEW_CTI, before), LedgerRun(NEW_LEDGER, before);
    var e := KeptEntry(c, l, k);
    RunRefines(c, l, after);
    RunFixesEntry(l, after, e);
    var d := QueueRun(c, after);
    if IndexOfId(d.records, e.id) < |d.records| {
      KeyLeadsToRequest(d, LedgerRun(l, after), e);
    }
  }
}
