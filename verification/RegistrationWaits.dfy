// What becomes of a registration request: it is handed over, submitted once,
// and waits for its confirmation exactly as long as it was given.
module RegistrationWaits {
  import opened Common
  import opened EventAdapter
  import opened RegistrationQueue
  import opened RegistrationGateway
  import opened RegistrationDispatcher

  // --- Handing over ----------------------------------------------------------

  // The request an operation brings, if the generation is its own and the
  // timeout in range; and what a drain hands over.
  function Brought(q: QueueState, op: QueueOp): seq<RegistrationCommand> {
    if op.SubmitOp? && op.generation == q.generation && 1000 <= op.timeout <= 120000
    then [RegistrationCommand(SubmitSelectedAccount, op.generation, op.timeout)] else []
  }

  function Handed(q: QueueState, op: QueueOp): seq<RegistrationCommand> {
    if op.DrainOp? then BatchOf(q, op.expected).commands else []
  }

  function AllBrought(q: QueueState, ops: seq<QueueOp>): seq<RegistrationCommand>
    decreases |ops|
  {
    if ops == [] then [] else Brought(q, ops[0]) + AllBrought(QueueStep(q, ops[0]), ops[1..])
  }

  function AllHanded(q: QueueState, ops: seq<QueueOp>): seq<RegistrationCommand>
    decreases |ops|
  {
    if ops == [] then [] else Handed(q, ops[0]) + AllHanded(QueueStep(q, ops[0]), ops[1..])
  }

  lemma OneIsHandedOver(q: QueueState, op: QueueOp)
    requires QueueInv(q) && q.open && QueueStep(q, op).open
    ensures Handed(q, op) + QueueStep(q, op).items == q.items + Brought(q, op)
  {
  }

  // While a generation stays open, every request of it with a timeout in range
  // is handed over, once and in order, or still waits.
  lemma {:induction false} RequestsAreHandedOver(q: QueueState, ops: seq<QueueOp>)
    requires QueueInv(q) && OpenThroughout(q, ops)
    ensures AllHanded(q, ops) + QueueRun(q, ops).items == q.items + AllBrought(q, ops)
    decreases |ops|
  {
    hide QueueInv, QueueStep, Handed, Brought;
    if ops == [] {
      assert q.items + [] == q.items == [] + q.items;
    } else {
      var next, rest := QueueStep(q, ops[0]), ops[1..];
      StepKeepsQueueInv(q, ops[0]);
      RequestsAreHandedOver(next, rest);
      OneIsHandedOver(q, ops[0]);
      Chain(Handed(q, ops[0]), AllHanded(next, rest), QueueRun(next, rest).items, next.items, AllBrought(next, rest),
            q.items, Brought(q, ops[0]));
    }
  }

  lemma Chain<T>(h: seq<T>, hs: seq<T>, last: seq<T>, mid: seq<T>, bs: seq<T>, first: seq<T>, b: seq<T>)
    requires hs + last == mid + bs && h + mid == first + b
    ensures (h + hs) + last == first + (b + bs)
  {
    assert (h + hs) + last == h + (hs + last);
    assert h + (mid + bs) == (h + mid) + bs;
  }

  // A cancel that is taken replaces whatever waited, and is all that the next
  // drain hands over.
  lemma CancelIsHandedOver(q: QueueState, generation: U64)
    requires QueueInv(q) && q.open && generation == q.generation
    ensures var batch := BatchOf(QueueStep(q, CancelOp(generation)), generation);
            batch.commands == [RegistrationCommand(CancelRegistration, generation, 0)] && !batch.overflow
  {
  }

  // --- One undisturbed submission --------------------------------------------

  // Nothing happens between the steps of the tick.
  function Alone(d: Dispatch, a: Answers, steps: nat): Dispatch
    decreases steps
  {
    if steps == 0 then d else Alone(Step(d, a), a, steps - 1)
  }

  // The loop at rest with one request waiting and no registration up.
  predicate OneWaits(d: Dispatch, generation: U64, wait: U64) {
    && DispatchInv(d) && d.pc == AtRest && d.thread == d.gw.thread && Down(d.gw)
    && d.queue.open && d.queue.generation == generation
    && d.queue.items == [RegistrationCommand(SubmitSelectedAccount, generation, wait)]
  }

  // A tick that nobody interferes with registers the account, under a session
  // never used before, and waits for it from now - exactly when an account is
  // selected, a session number is left, and the native side takes both calls.
  // Otherwise it stops, and the generation is shut.
  lemma {:induction false} SubmissionSucceedsExactlyWhen(d: Dispatch, generation: U64, wait: U64, now: U64, selected: Pointer, a: Answers)
    requires OneWaits(d, generation, wait)
    ensures var end := Alone(TickStarted(d, d.thread, generation, now, selected), a, 9);
            var ok := selected != 0 && a.started && !a.error && d.gw.bridge.issued != MAX64;
            && end.pc == AtRest
            && (ok ==>
                  && end.last == Outcome(DispatchSubmitted, SubmittedNow)
                  && end.gw.owner == selected && end.gw.bridge.active && end.gw.bridge.session == d.gw.bridge.issued + 1
                  && end.gw.deadline == Deadline(true, end.gw.bridge.session, now, wait)
                  && end.queue.open && end.queue.items == [])
            && (!ok ==>
                  && end.last == Outcome(DispatchFailed, if selected == 0 then InvalidAccount
                                                         else if !a.started || d.gw.bridge.issued == MAX64 then BridgeUnavailable
                                                         else SubmissionRejected)
                  && Down(end.gw) && !end.queue.open && end.queue.items == [])
  {
    var d1 := TickStarted(d, d.thread, generation, now, selected);
    var d2 := Step(d1, a);
    var d3 := Step(d2, a);
    var d4 := Step(d3, a);
    var d5 := Step(d4, a);
    var d6 := Step(d5, a);
    var d7 := Step(d6, a);
    var d8 := Step(d7, a);
    var d9 := Step(d8, a);
    var d10 := Step(d9, a);
    assert d2.pc == Calling(0);
    assert Alone(d1, a, 9) == d10;
  }

  // --- Waiting for the confirmation ------------------------------------------

  // A registration of the session waits since armed, for wait milliseconds, and
  // nothing else is asked for.
  predicate Waits(d: Dispatch, session: U64, armed: U64, wait: U64) {
    && DispatchInv(d) && d.thread == d.gw.thread
    && d.gw.owner != 0 && d.gw.bridge.active && d.gw.bridge.session == session != 0 && !d.gw.bridge.confirmed
    && d.gw.deadline == Deadline(true, session, armed, wait)
    && d.queue.open && d.queue.items == []
    && (d.pc == AtRest || d.pc == Polling || (d.pc.Looping? && d.pc.i >= |d.tick.batch.commands|))
  }

  // Neither a confirmation nor the end of the session, and no request or cancel
  // that the queue would take; ticks only from armed until the wait is over.
  predicate Quiet(m: Move, generation: U64, armed: U64, wait: U64) {
    match m
    case Interrupt(UserSubmit(g, timeout)) => g != generation || !(1000 <= timeout <= 120000)
    case Interrupt(UserCancel(g)) => g != generation
    case Interrupt(Native(Confirm(confirmed))) => !confirmed
    case Interrupt(Native(EpochRevoked)) => false
    case StartTick(_, _, now, _) => armed <= now < armed + wait
    case Begin | Continue(_) => true
  }

  predicate AllQuiet(moves: seq<Move>, generation: U64, armed: U64, wait: U64) {
    forall i :: 0 <= i < |moves| ==> Quiet(moves[i], generation, armed, wait)
  }

  // The tick that runs, if one does, is within the wait.
  predicate TickInTime(d: Dispatch, armed: U64, wait: U64) {
    d.pc != AtRest ==> armed <= d.tick.now < armed + wait
  }

  lemma WaitsOn(d: Dispatch, m: Move, session: U64, armed: U64, wait: U64)
    requires Waits(d, session, armed, wait) && TickInTime(d, armed, wait) && Quiet(m, d.queue.generation, armed, wait)
    ensures var e := Moved(d, m);
            Waits(e, session, armed, wait) && TickInTime(e, armed, wait) && e.queue.generation == d.queue.generation
  {
    MoveKeepsInv(d, m);
  }

  // As long as nothing happens, every poll within the wait leaves the deadline
  // armed as it was.
  lemma {:induction false} WaitsThroughout(d: Dispatch, moves: seq<Move>, session: U64, armed: U64, wait: U64)
    requires Waits(d, session, armed, wait) && TickInTime(d, armed, wait) && AllQuiet(moves, d.queue.generation, armed, wait)
    ensures var e := MovedAll(d, moves);
            Waits(e, session, armed, wait) && TickInTime(e, armed, wait) && e.queue.generation == d.queue.generation
    decreases |moves|
  {
    hide Waits, TickInTime, Moved, Quiet;
    if moves != [] {
      WaitsOn(d, moves[0], session, armed, wait);
      WaitsThroughout(Moved(d, moves[0]), moves[1..], session, armed, wait);
    }
  }

  // --- What a tick tells -----------------------------------------------------

  // A live registration with a deadline, confirmed or not, and nothing asked for.
  predicate Armed(d: Dispatch, session: U64, armed: U64, wait: U64) {
    Waits(d.(gw := d.gw.(bridge := d.gw.bridge.(confirmed := false))), session, armed, wait)
  }

  predicate InTime(now: U64, armed: U64, wait: U64) { armed <= now < armed + wait }

  // A tick that nobody interferes with reports the deadline over, the
  // registration confirmed, or still pending; and then stops it, disarms it, or
  // leaves everything as it was.
  lemma {:induction false} TickTellsVerdict(d: Dispatch, session: U64, armed: U64, wait: U64, now: U64, selected: Pointer, a: Answers)
    requires DispatchInv(d) && Armed(d, session, armed, wait) && d.pc == AtRest
    ensures var end := Alone(TickStarted(d, d.thread, d.queue.generation, now, selected), a, 3);
            && end.pc == AtRest
            && (!InTime(now, armed, wait) ==>
                  end.last == Plain(DeadlineExpired) && Down(end.gw) && !end.queue.open && end.queue.items == [])
            && (InTime(now, armed, wait) && d.gw.bridge.confirmed ==>
                  end.last == Plain(Confirmed) && end.gw == d.gw.(deadline := NO_DEADLINE) && end.queue == d.queue)
            && (InTime(now, armed, wait) && !d.gw.bridge.confirmed ==>
                  end.last == Plain(DispatchPending) && end.gw == d.gw && end.queue == d.queue)
  {
    var d1 := TickStarted(d, d.thread, d.queue.generation, now, selected);
    var d2 := Step(d1, a);
    var d3 := Step(d2, a);
    var d4 := Step(d3, a);
    assert d2.pc == Polling;
    assert Alone(d1, a, 3) == d4;
  }

  // Once confirmed, and so disarmed, a registration stays up however late it is.
  lemma {:induction false} DisarmedTickIsIdle(d: Dispatch, now: U64, selected: Pointer, a: Answers)
    requires DispatchInv(d) && d.pc == AtRest && d.thread == d.gw.thread && !d.gw.deadline.armed
    requires d.queue.open && d.queue.items == []
    ensures var end := Alone(TickStarted(d, d.thread, d.queue.generation, now, selected), a, 2);
            end.pc == AtRest && end.last.kind == DispatchIdle && end.gw == d.gw && end.queue == d.queue
  {
    var d1 := TickStarted(d, d.thread, d.queue.generation, now, selected);
    var d2 := Step(d1, a);
    assert d2.pc == Polling;
    assert Alone(d1, a, 2) == Step(d2, a);
  }

  // --- Expiry, whatever happens in the tick ----------------------------------

  // The running tick will report the deadline over.
  predicate WillExpire(d: Dispatch, session: U64, armed: U64, wait: U64) {
    match d.pc
    case Looping(_) | Polling =>
      && (d.pc.Looping? ==> d.pc.i >= |d.tick.batch.commands|)
      && d.thread == d.gw.thread && d.gw.deadline == Deadline(true, session, armed, wait)
      && !InTime(d.tick.now, armed, wait)
    case Shutting(o) => o == Plain(DeadlineExpired) && Down(d.gw)
    case AtRest => d.last == Plain(DeadlineExpired) && Down(d.gw) && !d.queue.open && d.queue.items == [] && !d.queue.overflow
    case _ => false
  }

  lemma WillExpireOn(d: Dispatch, m: Move, session: U64, armed: U64, wait: U64)
    requires WillExpire(d, session, armed, wait) && (m.Interrupt? || m.Continue?)
    ensures WillExpire(Moved(d, m), session, armed, wait)
  {
  }

  lemma {:induction false} ExpiresInTheEnd(d: Dispatch, moves: seq<Move>, session: U64, armed: U64, wait: U64)
    requires WillExpire(d, session, armed, wait)
    requires forall i :: 0 <= i < |moves| ==> moves[i].Interrupt? || moves[i].Continue?
    ensures WillExpire(MovedAll(d, moves), session, armed, wait)
    decreases |moves|
  {
    hide WillExpire, Moved;
    if moves != [] {
      WillExpireOn(d, moves[0], session, armed, wait);
      ExpiresInTheEnd(Moved(d, moves[0]), moves[1..], session, armed, wait);
    }
  }

  lemma ExpiringTickStarts(d: Dispatch, session: U64, armed: U64, wait: U64, now: U64, selected: Pointer)
    requires Waits(d, session, armed, wait) && d.pc == AtRest && !InTime(now, armed, wait)
    ensures WillExpire(TickStarted(d, d.thread, d.queue.generation, now, selected), session, armed, wait)
  {
  }

  // --- Submitted means armed -------------------------------------------------

  // The deadline is the one that command i of the running tick asked for.
  predicate ArmedBy(d: Dispatch, i: int) {
    && 0 <= i < |d.tick.batch.commands|
    && d.gw.deadline == Deadline(true, d.gw.bridge.session, d.tick.now, d.tick.batch.commands[i].timeout)
    && d.gw.owner != 0
  }

  predicate ArmInv(d: Dispatch) {
    match d.pc
    case LastCheck(i, _) => ArmedBy(d, i)
    case Looping(i) => d.tick.result.kind == DispatchSubmitted ==> i <= |d.tick.batch.commands| && ArmedBy(d, i - 1)
    case Polling => d.tick.result.kind == DispatchSubmitted ==> ArmedBy(d, |d.tick.batch.commands| - 1)
    case AtRest => d.last.kind == DispatchSubmitted ==> ArmedBy(d, |d.tick.batch.commands| - 1)
    case _ => true
  }

  lemma {:induction false} MoveKeepsArmInv(d: Dispatch, m: Move)
    requires DispatchInv(d) && ArmInv(d)
    ensures ArmInv(Moved(d, m))
  {
    hide NothingLost, TickInv;
    match m
    case Continue(a) => StepKeepsArmInv(d, a);
    case Interrupt(_) =>
    case Begin =>
    case StartTick(caller, generation, now, selected) =>
  }

  lemma {:induction false} StepKeepsArmInv(d: Dispatch, a: Answers)
    requires DispatchInv(d) && ArmInv(d)
    ensures ArmInv(Step(d, a))
  {
    hide NothingLost, TickInv, QueueInv, Admitted, SubmitBegun, SubmitEnded;
  }

  lemma {:induction false} RunKeepsArmInv(d: Dispatch, moves: seq<Move>)
    requires DispatchInv(d) && ArmInv(d)
    ensures ArmInv(MovedAll(d, moves))
    decreases |moves|
  {
    hide DispatchInv, ArmInv, Moved;
    if moves != [] {
      MoveKeepsInv(d, moves[0]);
      MoveKeepsArmInv(d, moves[0]);
      RunKeepsArmInv(Moved(d, moves[0]), moves[1..]);
    }
  }

  // After any run, a tick that reported a submission has armed the wait of the
  // command it submitted, from the time of the tick, for the session it opened.
  lemma SubmittedMeansArmed(loop: nat, gatewayThread: nat, moves: seq<Move>)
    ensures var d := MovedAll(NewDispatch(loop, gatewayThread), moves);
            d.pc == AtRest && d.last.kind == DispatchSubmitted ==>
              var commands := d.tick.batch.commands;
              && commands != [] && d.gw.owner != 0
              && d.gw.deadline == Deadline(true, d.gw.bridge.session, d.tick.now, commands[|commands| - 1].timeout)
  {
    NewDispatchInv(loop, gatewayThread);
    RunKeepsArmInv(NewDispatch(loop, gatewayThread), moves);
    hide MovedAll;
  }

  // --- Together --------------------------------------------------------------

  // After any run that ended in a reported submission: as long as nothing
  // happens, ticks within its wait leave it armed as it was; and the first tick
  // after its wait, whatever happens during it, reports the deadline over, and
  // leaves the gateway down and the queue shut.
  lemma {:induction false} UnconfirmedRegistrationExpires(loop: nat, before: seq<Move>, between: seq<Move>,
                                                          now: U64, selected: Pointer, later: seq<Move>)
    requires var d := MovedAll(NewDispatch(loop, loop), before);
             && d.pc == AtRest && d.last.kind == DispatchSubmitted
             && d.gw.bridge.active && !d.gw.bridge.confirmed && d.queue.open && d.queue.items == []
    requires var d := MovedAll(NewDispatch(loop, loop), before);
             && AllQuiet(between, d.queue.generation, d.gw.deadline.started, d.gw.deadline.wait)
             && MovedAll(d, between).pc == AtRest && !InTime(now, d.gw.deadline.started, d.gw.deadline.wait)
    requires forall i :: 0 <= i < |later| ==> later[i].Interrupt? || later[i].Continue?
    ensures var d := MovedAll(NewDispatch(loop, loop), before);
            var waiting := MovedAll(d, between);
            var end := MovedAll(Moved(waiting, StartTick(loop, d.queue.generation, now, selected)), later);
            && waiting.gw.deadline == d.gw.deadline
            && d.tick.batch.commands != []
            && d.gw.deadline == Deadline(true, d.gw.bridge.session, d.tick.now,
                                         d.tick.batch.commands[|d.tick.batch.commands| - 1].timeout)
            && (end.pc == AtRest ==>
                  end.last == Plain(DeadlineExpired) && Down(end.gw) && !end.queue.open && end.queue.items == [])
  {
    var start := NewDispatch(loop, loop);
    var d := MovedAll(start, before);
    SubmittedMeansArmed(loop, loop, before);
    NewDispatchInv(loop, loop);
    RunKeepsInv(start, before);
    ThreadStays(start, before);
    var session, armed, wait := d.gw.bridge.session, d.gw.deadline.started, d.gw.deadline.wait;
    SessionIsReal(start, before);
    assert Waits(d, session, armed, wait);
    WaitsThroughout(d, between, session, armed, wait);
    var waiting := MovedAll(d, between);
    ExpiringTickStarts(waiting, session, armed, wait, now, selected);
    ThreadStays(d, between);
    var tick := StartTick(loop, d.queue.generation, now, selected);
    assert Moved(waiting, tick) == TickStarted(waiting, waiting.thread, waiting.queue.generation, now, selected);
    ExpiresInTheEnd(Moved(waiting, tick), later, session, armed, wait);
    hide MovedAll, TickStarted, DispatchInv;
  }

  lemma {:induction false} SessionIsReal(d: Dispatch, moves: seq<Move>)
    requires d.gw.bridge.active ==> d.gw.bridge.session != 0
    ensures MovedAll(d, moves).gw.bridge.active ==> MovedAll(d, moves).gw.bridge.session != 0
    decreases |moves|
  {
    if moves != [] {
      SessionIsReal(Moved(d, moves[0]), moves[1..]);
    }
  }

  // --- Other ticks -----------------------------------------------------------

  // The tick after a generation was shut says why, and leaves the gateway down;
  // on another thread than the loop's, or for another generation, a tick does
  // nothing but say so.
  lemma {:induction false} ShutTickTells(d: Dispatch, now: U64, selected: Pointer, a: Answers)
    requires DispatchInv(d) && d.pc == AtRest && !d.queue.open
    ensures var end := Alone(TickStarted(d, d.thread, d.queue.generation, now, selected), a, 3);
            && end.pc == AtRest && Down(end.gw)
            && end.last == Plain(if d.queue.overflow then OverflowStopped
                                 else if d.queue.items != [] then DispatchCancelled
                                 else StaleGeneration)
  {
    var d1 := TickStarted(d, d.thread, d.queue.generation, now, selected);
    var d2 := Step(d1, a);
    var d3 := Step(d2, a);
    assert Alone(d1, a, 3) == Step(d3, a);
  }

  // A further request while a registration is up stops it.
  lemma {:induction false} FurtherRequestStops(d: Dispatch, now: U64, selected: Pointer, a: Answers)
    requires DispatchInv(d) && d.pc == AtRest && d.thread == d.gw.thread && d.gw.owner != 0
    requires d.queue.open && d.queue.items != []
    ensures var end := Alone(TickStarted(d, d.thread, d.queue.generation, now, selected), a, 5);
            && end.pc == AtRest && Down(end.gw) && !end.queue.open
            && end.last == Outcome(DispatchFailed, if d.gw.bridge.active then AlreadySubmitted else NativeSessionRevoked)
  {
    var d1 := TickStarted(d, d.thread, d.queue.generation, now, selected);
    var d2 := Step(d1, a);
    var d3 := Step(d2, a);
    var d4 := Step(d3, a);
    var d5 := Step(d4, a);
    assert d2.pc == Calling(0);
    assert Alone(d1, a, 5) == Step(d5, a);
  }

  // What happened during the SDK's register call decides: a cancel or overflow
  // supersedes it; then an error, or the end of the session, fails it.
  lemma {:induction false} InterruptedCallFails(d: Dispatch, a: Answers)
    requires DispatchInv(d) && d.pc.Registering? && (!d.queue.open || a.error || !d.gw.bridge.active)
    ensures var end := Alone(d, a, 4);
            var r := if a.error then SubmissionRejected else if !d.gw.bridge.active then NativeSessionRevoked else SubmittedNow;
            && end.pc == AtRest && Down(end.gw) && !end.queue.open
            && end.last == Outcome(if d.queue.open then DispatchFailed else SupersededDuringDispatch, r)
  {
    AdmittedMeansOpen(d);
    var d2 := Step(d, a);
    var d3 := Step(d2, a);
    var d4 := Step(d3, a);
    assert Alone(d, a, 4) == Step(d4, a);
  }

  // A tick that is shut out between two of its steps says so, once it looks.
  lemma {:induction false} SupersededTickTells(d: Dispatch, a: Answers)
    requires DispatchInv(d) && !d.queue.open && IsSubmitBatch(d.tick.batch)
    requires d.pc.Checking? || d.pc.LastCheck? || (d.pc.Looping? && d.pc.i < |d.tick.batch.commands|)
    ensures var end := Alone(d, a, 3);
            end.pc == AtRest && end.last.kind == SupersededDuringDispatch && Down(end.gw)
  {
    AdmittedMeansOpen(d);
    var d2 := Step(d, a);
    var d3 := Step(d2, a);
    assert Alone(d, a, 3) == Step(d3, a);
  }

  // And then the next generation can begin, if a number is left.
  lemma NextGenerationBegins(d: Dispatch)
    requires DispatchInv(d) && d.pc == AtRest && Silent(d.queue)
    ensures var q := Moved(d, Begin).queue;
            if d.queue.generation == MAX64 then q == d.queue
            else q.open && q.generation == d.queue.generation + 1 && q.items == [] && Down(d.gw)
  {
  }

  lemma MisplacedTickTells(d: Dispatch, caller: nat, generation: U64, now: U64, selected: Pointer)
    requires DispatchInv(d) && d.pc == AtRest && (caller != d.thread || generation != d.queue.generation)
    ensures var end := TickStarted(d, caller, generation, now, selected);
            && end.pc == AtRest && end.gw == d.gw && end.queue == d.queue
            && end.last == Plain(if caller != d.thread then WrongOwnerThread else StaleGeneration)
  {
  }
}
