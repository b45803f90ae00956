// The local call-request queue: one request in flight, the last 32 requests,
// the last 64 transitions. As the code does it; CtiLedger says what it means.
module CtiRequests {
  import opened Common

  const RECORD_CAPACITY: nat := 32
  const EVENT_CAPACITY: nat := 64

  datatype RequestState = Queued | Dispatching | Submitted | Rejected | Cancelled
  datatype CancelOutcome = CancelledNow | NotFound | TooLate
  datatype SubmitOutcome = Created | Replayed | KeyConflict | Busy | NotReady
  datatype SubmitResult = SubmitResult(outcome: SubmitOutcome, id: U64, state: RequestState)

  datatype Pending = Pending(id: U64, destination: Wide)
  datatype Record = Record(id: U64, state: RequestState, key: Bytes, keyDestination: Wide)
  datatype Transition = Transition(sequence: U64, id: U64, state: RequestState)
  datatype Page = Page(latest: U64, oldest: U64, gap: bool, events: seq<Transition>)

  // next is 0 once every identifier was given out.
  datatype Cti = Cti(next: U64, pending: Option<Pending>, active: Option<Pending>,
                     records: seq<Record>, events: seq<Transition>, sequence: U64)

  const NEW_CTI := Cti(1, None, None, [], [], 0)

  // --- Specification of each operation ---------------------------------------

  function Bounded<T>(s: seq<T>, capacity: nat): seq<T> {
    if |s| > capacity then s[1..] else s
  }

  // At the ceiling of the sequence no more transitions are kept.
  function Noted(c: Cti, id: U64, state: RequestState): Cti {
    if c.sequence == MAX64 then c
    else
      c.(sequence := c.sequence + 1,
         events := Bounded(c.events + [Transition(c.sequence + 1, id, state)], EVENT_CAPACITY))
  }

  // The first record with the identifier, or the number of records.
  function IndexOfId(records: seq<Record>, id: U64): nat {
    FirstWhere(records, (r: Record) => r.id == id)
  }

  function IndexOfKey(records: seq<Record>, key: Bytes): nat {
    FirstWhere(records, (r: Record) => r.key == key)
  }

  predicate Free(c: Cti) { c.pending == None && c.active == None && c.next != 0 }

  function WithRequest(c: Cti, destination: Wide, key: Bytes): Cti
    requires c.next != 0
  {
    var id := c.next;
    Noted(c.(next := Next64(id), pending := Some(Pending(id, destination)),
             records := Bounded(c.records + [Record(id, Queued, key, if key == [] then [] else destination)], RECORD_CAPACITY)),
          id, Queued)
  }

  function SubmitPlain(c: Cti, destination: Wide): (Cti, Option<U64>) {
    if destination == [] || !Free(c) then (c, None) else (WithRequest(c, destination, []), Some(c.next))
  }

  function SubmitKeyed(c: Cti, destination: Wide, key: Bytes, ready: bool): (Cti, SubmitResult) {
    var k := IndexOfKey(c.records, key);
    if destination == [] then (c, SubmitResult(Busy, 0, Queued))
    else if key != [] && k < |c.records| then
      (c, SubmitResult(if c.records[k].keyDestination != destination then KeyConflict else Replayed,
                       c.records[k].id, c.records[k].state))
    else if !ready then (c, SubmitResult(NotReady, 0, Queued))
    else if !Free(c) then (c, SubmitResult(Busy, 0, Queued))
    else (WithRequest(c, destination, key), SubmitResult(Created, c.next, Queued))
  }

  function Marked(c: Cti, k: nat, state: RequestState): Cti
    requires k < |c.records|
  {
    Noted(c.(records := c.records[k := c.records[k].(state := state)]), c.records[k].id, state)
  }

  // The first record of that identifier that is still queued.
  function IndexOfQueued(records: seq<Record>, id: U64): nat {
    FirstWhere(records, (r: Record) => r.id == id && r.state == Queued)
  }

  function RejectedPending(c: Cti): (Cti, bool) {
    if c.pending == None then (c, false)
    else
      var e := c.(pending := None);
      var k := IndexOfQueued(c.records, c.pending.value.id);
      if k < |c.records| then (Marked(e, k, Rejected), true) else (e, false)
  }

  function Taken(c: Cti): (Cti, Option<Pending>) {
    if c.pending == None || c.active != None then (c, None)
    else
      var e := c.(active := c.pending, pending := None);
      var k := IndexOfId(c.records, c.pending.value.id);
      (if k < |c.records| then Marked(e, k, Dispatching) else e, c.pending)
  }

  function Completed(c: Cti, id: U64, submitted: bool): (Cti, bool) {
    if c.active == None || c.active.value.id != id then (c, false)
    else
      var e := c.(active := None);
      var k := IndexOfId(c.records, id);
      if k < |c.records| then (Marked(e, k, if submitted then Submitted else Rejected), true) else (e, false)
  }

  function CancelledRequest(c: Cti, id: U64): (Cti, CancelOutcome) {
    var k := IndexOfId(c.records, id);
    if k == |c.records| then (c, NotFound)
    else if c.pending == None || c.pending.value.id != id || c.records[k].state != Queued then (c, TooLate)
    else (Marked(c.(pending := None), k, Cancelled), CancelledNow)
  }

  function Found(c: Cti, id: U64): Option<Record> {
    var k := IndexOfId(c.records, id);
    if k < |c.records| then Some(c.records[k]) else None
  }

  // The kept transitions after a cursor, of one request or of all.
  function Later(events: seq<Transition>, after: U64, only: Option<U64>): seq<Transition> {
    if events == [] then []
    else
      var rest := Later(events[1..], after, only);
      if events[0].sequence > after && (only == None || events[0].id == only.value) then [events[0]] + rest else rest
  }

  lemma LaterStep(events: seq<Transition>, i: nat, after: U64, only: Option<U64>)
    requires i < |events|
    ensures var rest := Later(events[i + 1..], after, only);
            Later(events[i..], after, only) ==
            if events[i].sequence > after && (only == None || events[i].id == only.value) then [events[i]] + rest else rest
  {
    assert events[i..][1..] == events[i + 1..];
  }

  lemma LaterNone(after: U64, only: Option<U64>)
    ensures Later([], after, only) == []
  {
  }

  function PageAfter(c: Cti, after: U64, only: Option<U64>): Page {
    var oldest := if c.events == [] then 0 else c.events[0].sequence;
    Page(c.sequence, oldest, oldest > 0 && after < oldest - 1, Later(c.events, after, only))
  }

  function PageFor(c: Cti, id: U64, after: U64): Option<Page> {
    if IndexOfId(c.records, id) < |c.records| then Some(PageAfter(c, after, Some(id))) else None
  }

  // Identifiers and cursors are never reused.
  function ClearedCti(c: Cti): Cti { Cti(c.next, None, None, [], [], c.sequence) }

  // --- The code --------------------------------------------------------------

  class RequestQueue {
    var next: U64
    var pending: Option<Pending>
    var active: Option<Pending>
    var records: seq<Record>
    var events: seq<Transition>
    var sequence: U64

    ghost function State(): Cti
      reads this
    {
      Cti(next, pending, active, records, events, sequence)
    }

    constructor ()
      ensures State() == NEW_CTI
    {
      next, pending, active, records, events, sequence := 1, None, None, [], [], 0;
    }

    method AppendEvent(id: U64, state: RequestState)
      modifies this
      ensures State() == Noted(old(State()), id, state)
    {
      if sequence == MAX64 { return; }
      sequence := sequence + 1;
      events := events + [Transition(sequence, id, state)];
      if |events| > EVENT_CAPACITY { events := events[1..]; }
    }

    method Create(destination: Wide, key: Bytes) returns (id: U64)
      requires next != 0
      modifies this
      ensures State() == WithRequest(old(State()), destination, key) && id == old(next)
    {
      id := next;
      next := Next64(next);
      pending := Some(Pending(id, destination));
      records := records + [Record(id, Queued, key, if |key| == 0 then [] else destination)];
      if |records| > RECORD_CAPACITY { records := records[1..]; }
      AppendEvent(id, Queued);
    }

    method Submit(destination: Wide) returns (id: Option<U64>)
      modifies this
      ensures (State(), id) == SubmitPlain(old(State()), destination)
    {
      if |destination| == 0 { return None; }
      if pending.Some? || active.Some? || next == 0 { return None; }
      var created := Create(destination, []);
      return Some(created);
    }

    method SubmitIdempotent(destination: Wide, key: Bytes, ready: bool) returns (r: SubmitResult)
      modifies this
      ensures (State(), r) == SubmitKeyed(old(State()), destination, key, ready)
    {
      if |destination| == 0 { return SubmitResult(Busy, 0, Queued); }
      if |key| != 0 {
        for i := 0 to |records|
          invariant unchanged(this)
          invariant forall j :: 0 <= j < i ==> records[j].key != key
        {
          if records[i].key == key {
            assert IndexOfKey(records, key) == i;
            if records[i].keyDestination != destination {
              return SubmitResult(KeyConflict, records[i].id, records[i].state);
            }
            return SubmitResult(Replayed, records[i].id, records[i].state);
          }
        }
        assert IndexOfKey(records, key) == |records|;
      }
      if !ready { return SubmitResult(NotReady, 0, Queued); }
      if pending.Some? || active.Some? || next == 0 { return SubmitResult(Busy, 0, Queued); }
      var id := Create(destination, key);
      return SubmitResult(Created, id, Queued);
    }

    method RejectPending() returns (ok: bool)
      modifies this
      ensures (State(), ok) == RejectedPending(old(State()))
    {
      if pending.None? { return false; }
      var id := pending.value.id;
      pending := None;
      for i := 0 to |records|
        invariant State() == old(State()).(pending := None)
        invariant forall j :: 0 <= j < i ==> records[j].id != id || records[j].state != Queued
      {
        if records[i].id == id && records[i].state == Queued {
          assert IndexOfQueued(records, id) == i;
          records := records[i := records[i].(state := Rejected)];
          AppendEvent(id, Rejected);
          return true;
        }
      }
      return false;
    }

    method Take() returns (r: Option<Pending>)
      modifies this
      ensures (State(), r) == Taken(old(State()))
    {
      if pending.None? || active.Some? { return None; }
      active := pending;
      pending := None;
      for i := 0 to |records|
        invariant State() == old(State()).(active := old(pending), pending := None)
        invariant forall j :: 0 <= j < i ==> records[j].id != active.value.id
      {
        if records[i].id == active.value.id {
          assert IndexOfId(records, active.value.id) == i;
          records := records[i := records[i].(state := Dispatching)];
          AppendEvent(active.value.id, Dispatching);
          break;
        }
      }
      return active;
    }

    method Complete(id: U64, submitted: bool) returns (ok: bool)
      modifies this
      ensures (State(), ok) == Completed(old(State()), id, submitted)
    {
      if active.None? || active.value.id != id { return false; }
      active := None;
      for i := 0 to |records|
        invariant State() == old(State()).(active := None)
        invariant forall j :: 0 <= j < i ==> records[j].id != id
      {
        if records[i].id == id {
          assert IndexOfId(records, id) == i;
          records := records[i := records[i].(state := if submitted then Submitted else Rejected)];
          AppendEvent(id, records[i].state);
          return true;
        }
      }
      return false;
    }

    method Cancel(id: U64) returns (r: CancelOutcome)
      modifies this
      ensures (State(), r) == CancelledRequest(old(State()), id)
    {
      for i := 0 to |records|
        invariant unchanged(this)
        invariant forall j :: 0 <= j < i ==> records[j].id != id
      {
        if records[i].id != id { continue; }
        assert IndexOfId(records, id) == i;
        if pending.None? || pending.value.id != id || records[i].state != Queued { return TooLate; }
        pending := None;
        records := records[i := records[i].(state := Cancelled)];
        AppendEvent(id, Cancelled);
        return CancelledNow;
      }
      return NotFound;
    }

    method Get(id: U64) returns (r: Option<Record>)
      ensures r == Found(State(), id)
      ensures r.Some? ==> r.value in records && r.value.id == id
      ensures r.None? ==> forall i :: 0 <= i < |records| ==> records[i].id != id
    {
      for i := 0 to |records|
        invariant forall j :: 0 <= j < i ==> records[j].id != id
      {
        if records[i].id == id {
          assert IndexOfId(records, id) == i;
          return Some(records[i]);
        }
      }
      return None;
    }

    method CollectAfter(after: U64, only: Option<U64>) returns (page: Page)
      ensures page == PageAfter(State(), after, only)
    {
      var oldest: U64 := if |events| == 0 then 0 else events[0].sequence;
      var kept := [];
      assert events[0..] == events;
      LaterNone(after, only);
      hide Later;
      for i := 0 to |events|
        invariant Later(events, after, only) == kept + Later(events[i..], after, only)
      {
        LaterStep(events, i, after, only);
        if events[i].sequence > after && (only.None? || events[i].id == only.value) { kept := kept + [events[i]]; }
      }
      assert events[|events|..] == [];
      assert kept + [] == kept;
      page := Page(sequence, oldest, oldest > 0 && after < oldest - 1, kept);
    }

    method EventsAfter(after: U64) returns (page: Page)
      ensures page == PageAfter(State(), after, None)
    {
      page := CollectAfter(after, None);
    }

    method EventsAfterForRequest(id: U64, after: U64) returns (page: Option<Page>)
      ensures page == PageFor(State(), id, after)
    {
      var known := Get(id);
      if known.None? { return None; }
      var p := CollectAfter(after, Some(id));
      return Some(p);
    }

    method Clear()
      modifies this
      ensures State() == ClearedCti(old(State()))
    {
      pending, active, records, events := None, None, [], [];
    }
  }
}
