// Registration requests from any thread to the native loop. A cancel outranks
// everything that waits and shuts the generation.
module RegistrationQueue {
  import opened Common

  const QUEUE_CAPACITY: nat := 16
  const MIN_TIMEOUT_MS: nat := 1000
  const MAX_TIMEOUT_MS: nat := 120000

  datatype RegistrationKind = SubmitSelectedAccount | CancelRegistration
  datatype RegistrationCommand = RegistrationCommand(kind: RegistrationKind, generation: U64, timeout: U64)
  datatype CommandBatch = CommandBatch(commands: seq<RegistrationCommand>, generation: U64, revision: U64, overflow: bool)

  datatype QueueState = QueueState(
    items: seq<RegistrationCommand>, generation: U64, lastGeneration: U64, revision: U64, open: bool, overflow: bool)

  // --- Specification ---------------------------------------------------------

  const NEW_QUEUE := QueueState([], 0, 0, 0, false, false)

  predicate MayBegin(q: QueueState) {
    !q.open && q.items == [] && !q.overflow && q.lastGeneration != MAX64
  }

  function QueueBegun(q: QueueState): QueueState {
    if MayBegin(q) then q.(generation := q.lastGeneration + 1, lastGeneration := q.lastGeneration + 1, open := true) else q
  }

  predicate Takes(q: QueueState, generation: U64) {
    q.open && generation != 0 && generation == q.generation && !q.overflow
  }

  predicate TimeoutOk(timeout: U64) { MIN_TIMEOUT_MS <= timeout <= MAX_TIMEOUT_MS }

  function Cancelled(q: QueueState, generation: U64): QueueState {
    if !Takes(q, generation) then q
    else q.(items := [RegistrationCommand(CancelRegistration, generation, 0)], open := false, revision := Next64(q.revision))
  }

  // One request too many drops them all and shuts the generation.
  function SubmittedTo(q: QueueState, generation: U64, timeout: U64): QueueState {
    if !TimeoutOk(timeout) || !Takes(q, generation) then q
    else if |q.items| == QUEUE_CAPACITY then q.(items := [], open := false, overflow := true, revision := Next64(q.revision))
    else q.(items := q.items + [RegistrationCommand(SubmitSelectedAccount, generation, timeout)])
  }

  predicate Drains(q: QueueState, expected: U64) {
    expected != 0 && q.generation == expected && (q.open || q.items != [] || q.overflow)
  }

  const NO_BATCH := CommandBatch([], 0, 0, false)

  function BatchOf(q: QueueState, expected: U64): CommandBatch {
    if Drains(q, expected) then CommandBatch(if q.overflow then [] else q.items, q.generation, q.revision, q.overflow)
    else NO_BATCH
  }

  function QueueDrained(q: QueueState, expected: U64): QueueState {
    if Drains(q, expected) then q.(items := [], overflow := false) else q
  }

  predicate StillAdmitted(q: QueueState, b: CommandBatch) {
    b.generation != 0 && b.generation == q.generation && b.revision == q.revision && q.open && !q.overflow
  }

  function Invalidated(q: QueueState): QueueState {
    q.(open := false, items := [], overflow := false, revision := Next64(q.revision))
  }

  // What is waiting belongs to the current generation; a shut generation holds
  // at most its own cancel, and only an open one holds requests.
  predicate QueueInv(q: QueueState) {
    && q.generation == q.lastGeneration
    && (q.generation == 0 ==> !q.open && q.items == [] && !q.overflow)
    && |q.items| <= QUEUE_CAPACITY
    && (q.overflow ==> !q.open && q.items == [])
    && (!q.open ==> q.items == [] || q.items == [RegistrationCommand(CancelRegistration, q.generation, 0)])
    && (q.open ==> forall i :: 0 <= i < |q.items| ==>
          q.items[i].kind == SubmitSelectedAccount && q.items[i].generation == q.generation && TimeoutOk(q.items[i].timeout))
  }

  // --- The code --------------------------------------------------------------

  class CommandQueue {
    const entries: array<RegistrationCommand>
    var size: nat
    var generation: U64
    var lastGeneration: U64
    var revision: U64
    var open: bool
    var overflow: bool

    ghost predicate Valid()
      reads this, entries
    {
      entries.Length == QUEUE_CAPACITY && size <= QUEUE_CAPACITY && (overflow ==> size == 0)
    }

    ghost function State(): QueueState
      requires Valid()
      reads this, entries
    {
      QueueState(entries[..size], generation, lastGeneration, revision, open, overflow)
    }

    constructor ()
      ensures Valid() && fresh(entries) && State() == NEW_QUEUE
    {
      entries := new RegistrationCommand[QUEUE_CAPACITY](_ => RegistrationCommand(CancelRegistration, 0, 0));
      size, generation, lastGeneration, revision, open, overflow := 0, 0, 0, 0, false, false;
    }

    method BeginGeneration() returns (r: U64)
      requires Valid()
      modifies this
      ensures Valid() && State() == QueueBegun(old(State()))
      ensures r == if MayBegin(old(State())) then generation else 0
    {
      if open || size != 0 || overflow || lastGeneration == MAX64 { return 0; }
      lastGeneration := lastGeneration + 1;
      generation := lastGeneration;
      open := true;
      return generation;
    }

    method EnqueueCommand(c: RegistrationCommand) returns (ok: bool)
      requires Valid() && (c.kind == CancelRegistration ==> c.timeout == 0)
      modifies this, entries
      ensures Valid()
      ensures c.kind == CancelRegistration ==>
                State() == Cancelled(old(State()), c.generation) && ok == Takes(old(State()), c.generation)
      ensures c.kind == SubmitSelectedAccount && TimeoutOk(c.timeout) ==>
                State() == SubmittedTo(old(State()), c.generation, c.timeout) &&
                ok == (Takes(old(State()), c.generation) && old(size) < QUEUE_CAPACITY)
    {
      if !open || c.generation == 0 || c.generation != generation || overflow { return false; }
      if c.kind == CancelRegistration {
        entries[0] := c;
        size := 1;
        open := false;
        revision := Next64(revision);
        return true;
      }
      if size == QUEUE_CAPACITY {
        size, open, overflow, revision := 0, false, true, Next64(revision);
        return false;
      }
      entries[size] := c;
      size := size + 1;
      return true;
    }

    method Submit(toGeneration: U64, timeout: U64) returns (ok: bool)
      requires Valid()
      modifies this, entries
      ensures Valid() && State() == SubmittedTo(old(State()), toGeneration, timeout)
      ensures ok == (TimeoutOk(timeout) && Takes(old(State()), toGeneration) && old(size) < QUEUE_CAPACITY)
    {
      if timeout < MIN_TIMEOUT_MS || timeout > MAX_TIMEOUT_MS { return false; }
      ok := EnqueueCommand(RegistrationCommand(SubmitSelectedAccount, toGeneration, timeout));
    }

    method Cancel(toGeneration: U64) returns (ok: bool)
      requires Valid()
      modifies this, entries
      ensures Valid() && State() == Cancelled(old(State()), toGeneration) && ok == Takes(old(State()), toGeneration)
    {
      ok := EnqueueCommand(RegistrationCommand(CancelRegistration, toGeneration, 0));
    }

    method Drain(expected: U64) returns (batch: CommandBatch)
      requires Valid()
      modifies this
      ensures Valid() && State() == QueueDrained(old(State()), expected) && batch == BatchOf(old(State()), expected)
    {
      batch := NO_BATCH;
      if expected == 0 || generation != expected { return; }
      if !open && size == 0 && !overflow { return; }
      var commands := [];
      if !overflow {
        for i := 0 to size
          invariant unchanged(this) && commands == entries[..i]
        {
          commands := commands + [entries[i]];
        }
      }
      batch := CommandBatch(commands, generation, revision, overflow);
      size := 0;
      overflow := false;
    }

    method IsStillAdmitted(batch: CommandBatch) returns (ok: bool)
      requires Valid()
      ensures ok == StillAdmitted(State(), batch)
    {
      return batch.generation != 0 && batch.generation == generation && batch.revision == revision && open && !overflow;
    }

    method Invalidate()
      requires Valid()
      modifies this
      ensures Valid() && State() == Invalidated(old(State()))
    {
      open, size, overflow, revision := false, 0, false, Next64(revision);
    }
  }

  // --- Admission sees every revocation ---------------------------------------

  datatype QueueOp = BeginOp | SubmitOp(generation: U64, timeout: U64) | CancelOp(generation: U64) | InvalidateOp | DrainOp(expected: U64)

  function QueueStep(q: QueueState, op: QueueOp): QueueState {
    match op
    case BeginOp => QueueBegun(q)
    case SubmitOp(generation, timeout) => SubmittedTo(q, generation, timeout)
    case CancelOp(generation) => Cancelled(q, generation)
    case InvalidateOp => Invalidated(q)
    case DrainOp(expected) => QueueDrained(q, expected)
  }

  function QueueRun(q: QueueState, ops: seq<QueueOp>): QueueState
    decreases |ops|
  {
    if ops == [] then q else QueueRun(QueueStep(q, ops[0]), ops[1..])
  }

  // Open at the start, and after every operation.
  predicate OpenThroughout(q: QueueState, ops: seq<QueueOp>)
    decreases |ops|
  {
    q.open && (ops == [] || OpenThroughout(QueueStep(q, ops[0]), ops[1..]))
  }

  lemma StepKeepsQueueInv(q: QueueState, op: QueueOp)
    requires QueueInv(q)
    ensures QueueInv(QueueStep(q, op))
  {
  }

  lemma {:induction false} RunKeepsQueueInv(q: QueueState, ops: seq<QueueOp>)
    requires QueueInv(q)
    ensures QueueInv(QueueRun(q, ops))
    decreases |ops|
  {
    if ops != [] {
      StepKeepsQueueInv(q, ops[0]);
      RunKeepsQueueInv(QueueStep(q, ops[0]), ops[1..]);
    }
  }

  // A batch is still admitted exactly while its generation was never shut since
  // it was drained, although the revision that guards it wraps around.
  lemma {:induction false} AdmittedWhileOpen(q: QueueState, b: CommandBatch, ops: seq<QueueOp>)
    requires QueueInv(q) && b.generation == q.generation && b.generation != 0 && b.revision == q.revision
    ensures StillAdmitted(QueueRun(q, ops), b) <==> OpenThroughout(q, ops)
    decreases |ops|
  {
    if !q.open {
      NeverAdmittedAgain(q, b, ops);
    } else if ops != [] {
      StepKeepsQueueInv(q, ops[0]);
      var next := QueueStep(q, ops[0]);
      if next.open {
        AdmittedWhileOpen(next, b, ops[1..]);
      } else {
        NeverAdmittedAgain(next, b, ops[1..]);
      }
    }
  }

  // A shut generation never opens again.
  lemma {:induction false} NeverAdmittedAgain(q: QueueState, b: CommandBatch, ops: seq<QueueOp>)
    requires QueueInv(q) && b.generation != 0
    requires b.generation < q.generation || (b.generation == q.generation && !q.open)
    ensures !StillAdmitted(QueueRun(q, ops), b)
    decreases |ops|
  {
    if ops != [] {
      StepKeepsQueueInv(q, ops[0]);
      NeverAdmittedAgain(QueueStep(q, ops[0]), b, ops[1..]);
    }
  }
}
