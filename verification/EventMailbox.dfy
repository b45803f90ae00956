// The bounded queue between native callbacks and the user interface thread.
module EventMailbox {
  import opened Common
  import opened EventReducer

  const MAILBOX_CAPACITY: nat := 32

  datatype Batch = Batch(events: seq<NativeEvent>, session: U64, overflow: bool)
  datatype MailboxState = MailboxState(generation: U64, session: U64, overflow: bool, queue: seq<NativeEvent>)

  // --- Specification ---------------------------------------------------------

  const NEW_MAILBOX := MailboxState(0, 0, false, [])

  // A session number is never reused: the last one leaves the box shut.
  function Began(m: MailboxState): MailboxState {
    if m.generation == MAX64 then MailboxState(m.generation, 0, true, [])
    else MailboxState(m.generation + 1, m.generation + 1, false, [])
  }

  function Shut(m: MailboxState): MailboxState {
    MailboxState(m.generation, 0, false, [])
  }

  predicate Accepts(m: MailboxState, e: NativeEvent) {
    m.session != 0 && e.session == m.session && !m.overflow && |m.queue| < MAILBOX_CAPACITY
  }

  // One event too many drops them all: history is never partial.
  function Enqueued(m: MailboxState, e: NativeEvent): MailboxState {
    if Accepts(m, e) then m.(queue := m.queue + [e])
    else if m.session == 0 || e.session != m.session || m.overflow then m
    else m.(queue := [], overflow := true)
  }

  function Waiting(m: MailboxState): Batch {
    Batch(m.queue, m.session, m.overflow)
  }

  function Drained(m: MailboxState): MailboxState {
    m.(queue := [])
  }

  predicate MailboxInv(m: MailboxState) {
    && m.session <= m.generation
    && |m.queue| <= MAILBOX_CAPACITY
    && (m.overflow || m.session == 0 ==> m.queue == [])
    && (forall i :: 0 <= i < |m.queue| ==> m.queue[i].session == m.session)
  }

  // Where the k-th queued event lies, and that the code's remainder says so.
  function Slot(first: nat, k: nat): (r: nat)
    requires first < MAILBOX_CAPACITY && k < MAILBOX_CAPACITY
    ensures r < MAILBOX_CAPACITY
  {
    if first + k < MAILBOX_CAPACITY then first + k else first + k - MAILBOX_CAPACITY
  }

  lemma SlotIsRemainder(first: nat, k: nat)
    requires first < MAILBOX_CAPACITY && k < MAILBOX_CAPACITY
    ensures Slot(first, k) == (first + k) % MAILBOX_CAPACITY
  {
  }

  // --- The ring --------------------------------------------------------------

  class Mailbox {
    const entries: array<NativeEvent>
    var first: nat
    var pending: nat
    var generation: U64
    var session: U64
    var overflow: bool

    ghost predicate Valid()
      reads this, entries
    {
      && entries.Length == MAILBOX_CAPACITY && first < MAILBOX_CAPACITY && pending <= MAILBOX_CAPACITY
      && MailboxInv(State())
    }

    // The queued events, oldest first, from position i of the queue on.
    ghost function From(i: nat): (r: seq<NativeEvent>)
      requires i <= pending <= entries.Length == MAILBOX_CAPACITY && first < MAILBOX_CAPACITY
      reads this, entries
      ensures |r| == pending - i
      ensures forall k :: 0 <= k < |r| ==> r[k] == entries[Slot(first, i + k)]
      decreases pending - i
    {
      if i == pending then [] else [entries[Slot(first, i)]] + From(i + 1)
    }

    ghost function State(): MailboxState
      requires entries.Length == MAILBOX_CAPACITY && pending <= MAILBOX_CAPACITY && first < MAILBOX_CAPACITY
      reads this, entries
    {
      MailboxState(generation, session, overflow, From(0))
    }

    constructor ()
      ensures Valid() && fresh(entries) && State() == NEW_MAILBOX
    {
      entries := new NativeEvent[MAILBOX_CAPACITY](_ => NativeEvent(RegisterStarted, 0, 0, 0, 0));
      first, pending, generation, session, overflow := 0, 0, 0, 0, false;
    }

    method BeginSession() returns (r: U64)
      requires Valid()
      modifies this
      ensures Valid() && State() == Began(old(State())) && r == State().session
    {
      if generation == MAX64 {
        session, overflow, pending := 0, true, 0;
        return 0;
      }
      generation := generation + 1;
      session, pending, first, overflow := generation, 0, 0, false;
      return session;
    }

    method InvalidateSession()
      requires Valid()
      modifies this
      ensures Valid() && State() == Shut(old(State()))
    {
      session, pending, first, overflow := 0, 0, 0, false;
    }

    method Enqueue(e: NativeEvent) returns (ok: bool)
      requires Valid()
      modifies this, entries
      ensures Valid() && State() == Enqueued(old(State()), e) && ok == Accepts(old(State()), e)
    {
      if session == 0 || e.session != session || overflow { return false; }
      if pending == MAILBOX_CAPACITY {
        pending, first, overflow := 0, 0, true;
        return false;
      }
      ghost var was := From(0);
      SlotIsRemainder(first, pending);
      entries[(first + pending) % MAILBOX_CAPACITY] := e;
      pending := pending + 1;
      assert From(0) == was + [e];
      return true;
    }

    method Drain() returns (batch: Batch)
      requires Valid()
      modifies this
      ensures Valid() && State() == Drained(old(State())) && batch == Waiting(old(State()))
    {
      var events := [];
      if !overflow {
        for i := 0 to pending
          invariant unchanged(this)
          invariant events == From(0)[..i]
        {
          SlotIsRemainder(first, i);
          events := events + [entries[(first + i) % MAILBOX_CAPACITY]];
        }
      }
      assert events == From(0);
      batch := Batch(events, session, overflow);
      first, pending := 0, 0;
    }
  }

  // --- Runs ------------------------------------------------------------------

  datatype MailboxOp = BeginOp | InvalidateOp | EnqueueOp(e: NativeEvent) | DrainOp

  // The box, what it was offered of its session, and what it handed over, since
  // the last begin or invalidation.
  datatype Ledger = Ledger(m: MailboxState, offered: seq<NativeEvent>, delivered: seq<NativeEvent>)

  function Step(s: Ledger, op: MailboxOp): Ledger {
    match op
    case BeginOp => Ledger(Began(s.m), [], [])
    case InvalidateOp => Ledger(Shut(s.m), [], [])
    case EnqueueOp(e) => Ledger(Enqueued(s.m, e), if e.session == s.m.session then s.offered + [e] else s.offered, s.delivered)
    case DrainOp => Ledger(Drained(s.m), s.offered, s.delivered + Waiting(s.m).events)
  }

  function Run(s: Ledger, ops: seq<MailboxOp>): Ledger
    decreases |ops|
  {
    if ops == [] then s else Run(Step(s, ops[0]), ops[1..])
  }

  // Of a session, the box hands over all it was offered, once and in order; or it
  // was offered more at a time than it holds, flags that, and hands over nothing
  // of what it held or was offered from then on.
  predicate Delivers(s: Ledger) {
    && MailboxInv(s.m)
    && s.delivered <= s.offered
    && (s.m.session != 0 ==>
          && (s.m.overflow <==> |s.offered| > |s.delivered| + 32)
          && (!s.m.overflow ==> s.delivered + s.m.queue == s.offered)
          && (s.m.overflow ==> s.m.queue == []))
    && (s.m.session == 0 ==> s.delivered == [])
  }

  lemma {:induction false} RunDelivers(s: Ledger, ops: seq<MailboxOp>)
    requires Delivers(s)
    ensures Delivers(Run(s, ops))
    decreases |ops|
  {
    if ops != [] {
      StepDelivers(s, ops[0]);
      RunDelivers(Step(s, ops[0]), ops[1..]);
    }
  }

  lemma StepDelivers(s: Ledger, op: MailboxOp)
    requires Delivers(s)
    ensures Delivers(Step(s, op))
  {
    if op.EnqueueOp? {
      assert s.delivered + (s.m.queue + [op.e]) == (s.delivered + s.m.queue) + [op.e];
    }
  }

  function Batches(m: MailboxState, ops: seq<MailboxOp>): seq<Batch>
    decreases |ops|
  {
    if ops == [] then []
    else
      var later := Batches(Step(Ledger(m, [], []), ops[0]).m, ops[1..]);
      if ops[0] == DrainOp then [Waiting(m)] + later else later
  }

  // Batches of real sessions never go back to an earlier session, and fit.
  predicate RisingFrom(floor: U64, batches: seq<Batch>)
    decreases |batches|
  {
    batches == [] ||
    (var b := batches[0];
     && (b.session == 0 || floor <= b.session)
     && |b.events| <= MAILBOX_CAPACITY
     && (b.overflow ==> b.events == [])
     && RisingFrom(if b.session == 0 then floor else b.session, batches[1..]))
  }

  lemma {:induction false} DrainsRise(m: MailboxState, ops: seq<MailboxOp>, floor: U64)
    requires MailboxInv(m) && floor <= m.generation && (m.session == 0 || floor <= m.session)
    ensures RisingFrom(floor, Batches(m, ops))
    decreases |ops|
  {
    if ops != [] {
      var next := Step(Ledger(m, [], []), ops[0]).m;
      if ops[0] == DrainOp {
        var floor' := if m.session == 0 then floor else m.session;
        DrainsRise(next, ops[1..], floor');
        assert Batches(m, ops)[1..] == Batches(next, ops[1..]);
      } else {
        DrainsRise(next, ops[1..], floor);
      }
    }
  }
}
