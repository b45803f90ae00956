// The native loop's tick over registration requests. A user may cancel, and the
// SDK may revoke, between any two of its steps.
module RegistrationDispatcher {
  import opened Common
  import opened EventAdapter
  import opened RegistrationQueue
  import opened RegistrationGateway

  datatype DispatchKind =
    | DispatchIdle | DispatchSubmitted | DispatchCancelled | DeadlineExpired | Confirmed
    | DispatchFailed | OverflowStopped | WrongOwnerThread | StaleGeneration | DispatchPending
    | SupersededDuringDispatch

  datatype Outcome = Outcome(kind: DispatchKind, submission: Submission)

  function Plain(kind: DispatchKind): Outcome { Outcome(kind, InvalidAccount) }

  const NOTHING := Outcome(DispatchIdle, BridgeUnavailable)

  // --- Steps of a tick -------------------------------------------------------

  datatype TickPc =
    | AtRest
    | Looping(i: nat)                       // at the head of the loop
    | Calling(i: nat)                       // admitted, about to submit
    | Registering(i: nat)                   // inside the SDK's register call
    | Checking(i: nat, r: Submission)       // back from it
    | Arming(i: nat, r: Submission)
    | LastCheck(i: nat, r: Submission)
    | Polling
    | Stopping(o: Outcome)                  // about to stop the gateway
    | Shutting(o: Outcome)                  // about to invalidate the queue

  datatype Tick = Tick(generation: U64, now: U64, selected: Pointer, batch: CommandBatch, result: Outcome)

  const NO_TICK := Tick(0, 0, 0, NO_BATCH, NOTHING)

  // thread is the loop owner's; last is what the last finished tick returned.
  datatype Dispatch = Dispatch(queue: QueueState, gw: Gateway, thread: nat, pc: TickPc, tick: Tick, last: Outcome)

  // What the native side answers when a step asks it.
  datatype Answers = Answers(started: bool, error: bool)

  function Finished(d: Dispatch, o: Outcome): Dispatch { d.(pc := AtRest, last := o) }

  // Enters tick() on some thread.
  function TickStarted(d: Dispatch, caller: nat, generation: U64, now: U64, selected: Pointer): Dispatch {
    if caller != d.thread then Finished(d, Plain(WrongOwnerThread))
    else
      var batch := BatchOf(d.queue, generation);
      var e := d.(queue := QueueDrained(d.queue, generation), tick := Tick(generation, now, selected, batch, NOTHING));
      if batch.generation != generation || generation == 0 then Finished(e, Plain(StaleGeneration))
      else if batch.overflow then e.(pc := Stopping(Plain(OverflowStopped)))
      else e.(pc := Looping(0))
  }

  function Admitted(d: Dispatch): bool { StillAdmitted(d.queue, d.tick.batch) }

  function LoopStep(d: Dispatch, i: nat): Dispatch {
    if i >= |d.tick.batch.commands| then d.(pc := Polling)
    else
      var c := d.tick.batch.commands[i];
      if c.generation != d.tick.generation then d.(pc := Stopping(Plain(DispatchFailed)))
      else if c.kind == CancelRegistration then d.(pc := Stopping(Plain(DispatchCancelled)))
      else if !Admitted(d) then d.(pc := Stopping(Plain(SupersededDuringDispatch)))
      else d.(pc := Calling(i))
  }

  function PollStep(d: Dispatch): Dispatch {
    var v := PollVerdict(d.gw, d.thread, d.tick.now);
    var e := d.(gw := GatewayPolled(d.gw, d.thread, d.tick.now));
    match v
    case Expired | ClockRegressed | SessionRevoked => e.(pc := Shutting(Plain(DeadlineExpired)))
    case CallbackConfirmed => Finished(e, Plain(Confirmed))
    case Pending => Finished(e, if d.tick.batch.commands != [] then d.tick.result else Plain(DispatchPending))
    case Unarmed | WrongThread => Finished(e, d.tick.result)
  }

  function Step(d: Dispatch, a: Answers): Dispatch {
    match d.pc
    case AtRest => d
    case Looping(i) => LoopStep(d, i)
    case Calling(i) =>
      var r := SubmitBegun(d.gw, d.thread, d.tick.selected, a.started);
      d.(gw := r.0, pc := if r.1.Some? then Checking(i, r.1.value) else Registering(i))
    case Registering(i) =>
      var r := SubmitEnded(d.gw, d.tick.selected, a.error);
      d.(gw := r.0, pc := Checking(i, r.1))
    case Checking(i, r) =>
      if !Admitted(d) then d.(pc := Stopping(Outcome(SupersededDuringDispatch, r)))
      else if r != SubmittedNow then d.(pc := Stopping(Outcome(DispatchFailed, r)))
      else d.(pc := Arming(i, r))
    case Arming(i, r) =>
      if i < |d.tick.batch.commands| && CanArmGateway(d.gw, d.thread, d.tick.batch.commands[i].timeout) then
        d.(gw := GatewayArmed(d.gw, d.thread, d.tick.now, d.tick.batch.commands[i].timeout), pc := LastCheck(i, r))
      else d.(pc := Stopping(Outcome(DispatchFailed, r)))
    case LastCheck(i, r) =>
      if !Admitted(d) then d.(pc := Stopping(Outcome(SupersededDuringDispatch, r)))
      else d.(tick := d.tick.(result := Outcome(DispatchSubmitted, r)), pc := Looping(i + 1))
    case Polling => PollStep(d)
    case Stopping(o) => d.(gw := GatewayStopped(d.gw, d.thread), pc := Shutting(o))
    case Shutting(o) => Finished(d.(queue := Invalidated(d.queue)), o)
  }

  // --- What may happen between two steps -------------------------------------

  datatype Interruption =
    | UserSubmit(generation: U64, timeout: U64)
    | UserCancel(generation: U64)
    | Native(m: BridgeMove)

  function Interrupted(d: Dispatch, x: Interruption): Dispatch {
    match x
    case UserSubmit(generation, timeout) => d.(queue := SubmittedTo(d.queue, generation, timeout))
    case UserCancel(generation) => d.(queue := RegistrationQueue.Cancelled(d.queue, generation))
    case Native(m) => d.(gw := d.gw.(bridge := BridgeMoved(d.gw.bridge, m)))
  }

  datatype Move =
    | Interrupt(x: Interruption)
    | Begin                                              // the owner, between ticks
    | StartTick(caller: nat, generation: U64, now: U64, selected: Pointer)
    | Continue(a: Answers)

  function Moved(d: Dispatch, m: Move): Dispatch {
    match m
    case Interrupt(x) => Interrupted(d, x)
    case Begin => if d.pc == AtRest then d.(queue := QueueBegun(d.queue)) else d
    case StartTick(caller, generation, now, selected) =>
      if d.pc == AtRest then TickStarted(d, caller, generation, now, selected) else d
    case Continue(a) => Step(d, a)
  }

  function MovedAll(d: Dispatch, moves: seq<Move>): Dispatch
    decreases |moves|
  {
    if moves == [] then d else MovedAll(Moved(d, moves[0]), moves[1..])
  }

  function NewDispatch(loop: nat, gatewayThread: nat): Dispatch {
    Dispatch(NEW_QUEUE, Gateway(gatewayThread, 0, NO_DEADLINE, IDLE_BRIDGE), loop, AtRest, NO_TICK, NOTHING)
  }

  // --- The invariant ---------------------------------------------------------

  predicate Down(g: Gateway) { g.owner == 0 && !g.bridge.active && !g.deadline.armed }

  // Shut, with nothing left in it that would tell the loop to stop.
  predicate Silent(q: QueueState) { !q.open && q.items == [] && !q.overflow }

  predicate IsCancelBatch(b: CommandBatch) {
    b.commands == [RegistrationCommand(CancelRegistration, b.generation, 0)]
  }

  predicate IsSubmitBatch(b: CommandBatch) {
    forall i :: 0 <= i < |b.commands| ==>
      b.commands[i].kind == SubmitSelectedAccount && b.commands[i].generation == b.generation && TimeoutOk(b.commands[i].timeout)
  }

  // The tick is about to stop the gateway, whatever else happens.
  predicate BoundToStop(d: Dispatch) {
    d.pc.Stopping? || (d.pc == Looping(0) && IsCancelBatch(d.tick.batch))
  }

  predicate TickInv(d: Dispatch) {
    d.pc != AtRest ==>
      && d.tick.generation == d.tick.batch.generation == d.queue.generation != 0
      && (d.queue.open ==> d.tick.batch.revision == d.queue.revision)
      && (IsSubmitBatch(d.tick.batch) || (IsCancelBatch(d.tick.batch) && !d.queue.open))
      && (IsCancelBatch(d.tick.batch) ==> BoundToStop(d) || d.pc.Shutting?)
      && (d.tick.result == NOTHING || d.tick.result == Outcome(DispatchSubmitted, SubmittedNow))
  }

  predicate PcInv(d: Dispatch) {
    match d.pc
    case Calling(i) => i < |d.tick.batch.commands|
    case Registering(i) => i < |d.tick.batch.commands| && d.tick.selected != 0
    case Checking(i, r) => i < |d.tick.batch.commands|
    case Arming(i, r) => i < |d.tick.batch.commands| && r == SubmittedNow
    case LastCheck(i, r) => i < |d.tick.batch.commands| && r == SubmittedNow
    case Stopping(o) => o.kind != DispatchSubmitted
    case Shutting(o) => o.kind != DispatchSubmitted && Down(d.gw)
    case AtRest | Looping(_) | Polling => true
  }

  // A gateway of another thread refuses the loop, and so never goes live.
  predicate GatewayInv(d: Dispatch) {
    && (d.gw.thread != d.thread ==> Down(d.gw) && !d.pc.Registering?)
    && (d.gw.owner == 0 ==> !d.gw.deadline.armed && (d.gw.bridge.active ==> d.pc.Registering?))
    && (d.pc.Registering? ==> d.gw.owner == 0)
  }

  // The registration cannot outlive its generation: if that is shut, then the
  // loop will still be told, or is already stopping, or has stopped.
  predicate NothingLost(d: Dispatch) {
    Silent(d.queue) ==> BoundToStop(d) || d.pc.Shutting? || (d.pc == AtRest && Down(d.gw))
  }

  predicate DispatchInv(d: Dispatch) {
    QueueInv(d.queue) && TickInv(d) && PcInv(d) && GatewayInv(d) && NothingLost(d)
  }

  lemma NewDispatchInv(loop: nat, gatewayThread: nat)
    ensures DispatchInv(NewDispatch(loop, gatewayThread))
  {
  }

  lemma StartKeepsInv(d: Dispatch, caller: nat, generation: U64, now: U64, selected: Pointer)
    requires DispatchInv(d) && d.pc == AtRest
    ensures DispatchInv(TickStarted(d, caller, generation, now, selected))
  {
  }

  lemma InterruptionKeepsInv(d: Dispatch, x: Interruption)
    requires DispatchInv(d)
    ensures DispatchInv(Interrupted(d, x))
  {
  }

  lemma AdmittedMeansOpen(d: Dispatch)
    requires DispatchInv(d) && d.pc != AtRest
    ensures Admitted(d) <==> d.queue.open
  {
  }

  lemma {:induction false} StepKeepsInv(d: Dispatch, a: Answers)
    requires DispatchInv(d)
    ensures DispatchInv(Step(d, a))
  {
    if d.pc != AtRest {
      AdmittedMeansOpen(d);
    }
    hide Admitted;
  }

  lemma {:induction false} MoveKeepsInv(d: Dispatch, m: Move)
    requires DispatchInv(d)
    ensures DispatchInv(Moved(d, m))
  {
    match m
    case Interrupt(x) => InterruptionKeepsInv(d, x);
    case Begin => BeginKeepsInv(d);
    case StartTick(caller, generation, now, selected) =>
      if d.pc == AtRest { StartKeepsInv(d, caller, generation, now, selected); }
    case Continue(a) => StepKeepsInv(d, a);
    hide DispatchInv, TickStarted, Step, Interrupted;
  }

  lemma BeginKeepsInv(d: Dispatch)
    requires DispatchInv(d)
    ensures DispatchInv(Moved(d, Begin))
  {
  }

  lemma {:induction false} RunKeepsInv(d: Dispatch, moves: seq<Move>)
    requires DispatchInv(d)
    ensures DispatchInv(MovedAll(d, moves))
    decreases |moves|
  {
    hide DispatchInv, Moved;
    if moves != [] {
      MoveKeepsInv(d, moves[0]);
      RunKeepsInv(Moved(d, moves[0]), moves[1..]);
    }
  }

  // --- After a revocation ----------------------------------------------------

  predicate NoBegin(moves: seq<Move>) {
    forall i :: 0 <= i < |moves| ==> moves[i] != Begin
  }

  // How many native submissions a run starts.
  function Submissions(d: Dispatch, moves: seq<Move>): nat
    decreases |moves|
  {
    if moves == [] then 0
    else (if d.pc.Calling? && moves[0].Continue? then 1 else 0) + Submissions(Moved(d, moves[0]), moves[1..])
  }

  // Shut means shut: only the owner's next begin opens the queue again, and no
  // step admits another submission.
  lemma ShutStaysShut(d: Dispatch, m: Move)
    requires DispatchInv(d) && !d.queue.open && m != Begin
    ensures !Moved(d, m).queue.open && Moved(d, m).queue.generation == d.queue.generation
    ensures Moved(d, m).pc.Calling? ==> d.pc.Calling? && !m.Continue?
  {
    if d.pc != AtRest {
      AdmittedMeansOpen(d);
    }
    hide Admitted, TickInv, NothingLost;
  }

  // After a cancel or an overflow was taken, whatever is interleaved, at most
  // the one submission that was already admitted still starts.
  lemma {:induction false} AtMostOneSubmission(d: Dispatch, moves: seq<Move>)
    requires DispatchInv(d) && !d.queue.open && NoBegin(moves)
    ensures Submissions(d, moves) <= if d.pc.Calling? then 1 else 0
    decreases |moves|
  {
    hide DispatchInv, Moved;
    if moves != [] {
      MoveKeepsInv(d, moves[0]);
      ShutStaysShut(d, moves[0]);
      AtMostOneSubmission(Moved(d, moves[0]), moves[1..]);
    }
  }

  // Before its last admission check of this batch, or stopping.
  predicate CannotReportSubmitted(d: Dispatch) {
    || (d.pc == AtRest && d.last.kind != DispatchSubmitted)
    || (d.pc.Looping? && d.pc.i < |d.tick.batch.commands|)
    || d.pc.Calling? || d.pc.Registering? || d.pc.Checking? || d.pc.Arming? || d.pc.LastCheck?
    || d.pc.Stopping? || d.pc.Shutting?
  }

  lemma StepReportsNothing(d: Dispatch, m: Move)
    requires DispatchInv(d) && !d.queue.open && CannotReportSubmitted(d) && d.pc != AtRest
    ensures CannotReportSubmitted(Moved(d, m))
  {
    AdmittedMeansOpen(d);
    hide Admitted, TickInv, NothingLost;
  }

  // A tick revoked before its last check never reports that it submitted.
  lemma {:induction false} RevokedTickReportsNoSubmission(d: Dispatch, moves: seq<Move>)
    requires DispatchInv(d) && !d.queue.open && CannotReportSubmitted(d) && d.pc != AtRest
    requires forall i :: 0 <= i < |moves| ==> moves[i].Interrupt? || moves[i].Continue?
    ensures var e := MovedAll(d, moves); e.pc == AtRest ==> e.last.kind != DispatchSubmitted
    decreases |moves|
  {
    hide DispatchInv, Moved;
    if moves != [] {
      MoveKeepsInv(d, moves[0]);
      ShutStaysShut(d, moves[0]);
      StepReportsNothing(d, moves[0]);
      var next := Moved(d, moves[0]);
      if next.pc == AtRest {
        RestStays(next, moves[1..]);
      } else {
        RevokedTickReportsNoSubmission(next, moves[1..]);
      }
    }
  }

  lemma {:induction false} RestStays(d: Dispatch, moves: seq<Move>)
    requires d.pc == AtRest && forall i :: 0 <= i < |moves| ==> moves[i].Interrupt? || moves[i].Continue?
    ensures MovedAll(d, moves).pc == AtRest && MovedAll(d, moves).last == d.last
    decreases |moves|
  {
    if moves != [] {
      RestStays(Moved(d, moves[0]), moves[1..]);
    }
  }

  // Every path that invalidates the queue has stopped the gateway first.
  lemma InvalidatesOnlyOnceStopped(d: Dispatch, m: Move)
    requires DispatchInv(d) && m.Continue? && d.pc.Shutting?
    ensures Down(d.gw) && Moved(d, m).queue == Invalidated(d.queue) && Down(Moved(d, m).gw)
  {
  }

  lemma OnlyShuttingInvalidates(d: Dispatch, m: Move)
    requires DispatchInv(d) && !d.pc.Shutting? && d.queue.open && !Moved(d, m).queue.open
    ensures m.Interrupt? && (m.x.UserCancel? || (m.x.UserSubmit? && |d.queue.items| == QUEUE_CAPACITY))
  {
    hide Admitted, TickInv, NothingLost, PcInv;
  }

  // The loop has been told.
  predicate Told(d: Dispatch) {
    Silent(d.queue) && (BoundToStop(d) || (Down(d.gw) && (d.pc.Shutting? || d.pc == AtRest)))
  }

  lemma ToldStays(d: Dispatch, m: Move)
    requires DispatchInv(d) && Told(d) && m != Begin
    ensures Told(Moved(d, m))
  {
  }

  lemma {:induction false} ToldStaysAlways(d: Dispatch, moves: seq<Move>)
    requires DispatchInv(d) && Told(d) && NoBegin(moves)
    ensures Told(MovedAll(d, moves))
    decreases |moves|
  {
    hide DispatchInv, Told, Moved;
    if moves != [] {
      MoveKeepsInv(d, moves[0]);
      ToldStays(d, moves[0]);
      ToldStaysAlways(Moved(d, moves[0]), moves[1..]);
    }
  }

  lemma NextTickIsTold(d: Dispatch, generation: U64, now: U64, selected: Pointer)
    requires DispatchInv(d) && d.pc == AtRest && !d.queue.open && generation == d.queue.generation
    ensures Told(TickStarted(d, d.thread, generation, now, selected))
  {
  }

  // A cancel is never lost. From any reachable state in which the queue takes
  // it, even in the middle of a tick: let the current tick run on and anything
  // else happen, and then the next tick of that generation. Whenever that tick
  // is over, and ever after until a new generation begins, the gateway is down;
  // and since the cancel at most one submission was started. The gateway may
  // belong to any thread.
  lemma CancelIsNeverLost(loop: nat, gatewayThread: nat, before: seq<Move>, generation: U64, between: seq<Move>,
                          now: U64, selected: Pointer, later: seq<Move>)
    requires NoBegin(between) && NoBegin(later)
    requires var d := MovedAll(NewDispatch(loop, gatewayThread), before); Takes(d.queue, generation)
    requires var d := MovedAll(NewDispatch(loop, gatewayThread), before);
             MovedAll(Moved(d, Interrupt(UserCancel(generation))), between).pc == AtRest
    ensures var cancelled := Moved(MovedAll(NewDispatch(loop, gatewayThread), before), Interrupt(UserCancel(generation)));
            var ticked := Moved(MovedAll(cancelled, between), StartTick(loop, generation, now, selected));
            var end := MovedAll(ticked, later);
            && Submissions(cancelled, between) <= 1
            && Submissions(ticked, later) == 0
            && (end.pc == AtRest ==> Down(end.gw))
  {
    var d := MovedAll(NewDispatch(loop, gatewayThread), before);
    NewDispatchInv(loop, gatewayThread);
    RunKeepsInv(NewDispatch(loop, gatewayThread), before);
    ThreadStays(NewDispatch(loop, gatewayThread), before);
    var cancelled := Moved(d, Interrupt(UserCancel(generation)));
    assert !cancelled.queue.open && cancelled.queue.generation == generation && cancelled.thread == loop;
    hide Moved, TickStarted, DispatchInv, NewDispatch;
    MoveKeepsInv(d, Interrupt(UserCancel(generation)));
    AtMostOneSubmission(cancelled, between);
    AfterCancel(cancelled, between, now, selected, later);
  }

  lemma {:induction false} AfterCancel(cancelled: Dispatch, between: seq<Move>, now: U64, selected: Pointer, later: seq<Move>)
    requires DispatchInv(cancelled) && !cancelled.queue.open && NoBegin(between) && NoBegin(later)
    requires MovedAll(cancelled, between).pc == AtRest
    ensures var ticked := Moved(MovedAll(cancelled, between),
                                StartTick(cancelled.thread, cancelled.queue.generation, now, selected));
            && Submissions(ticked, later) == 0
            && (MovedAll(ticked, later).pc == AtRest ==> Down(MovedAll(ticked, later).gw))
  {
    hide DispatchInv, Submissions;
    RunKeepsInv(cancelled, between);
    ShutAlways(cancelled, between);
    ThreadStays(cancelled, between);
    var idle := MovedAll(cancelled, between);
    var tick := StartTick(cancelled.thread, cancelled.queue.generation, now, selected);
    NextTickIsTold(idle, cancelled.queue.generation, now, selected);
    MoveKeepsInv(idle, tick);
    ToldStaysAlways(Moved(idle, tick), later);
    AtMostOneSubmission(Moved(idle, tick), later);
  }

  lemma {:induction false} ShutAlways(d: Dispatch, moves: seq<Move>)
    requires DispatchInv(d) && !d.queue.open && NoBegin(moves)
    ensures !MovedAll(d, moves).queue.open && MovedAll(d, moves).queue.generation == d.queue.generation
    decreases |moves|
  {
    hide DispatchInv, Moved;
    if moves != [] {
      MoveKeepsInv(d, moves[0]);
      ShutStaysShut(d, moves[0]);
      ShutAlways(Moved(d, moves[0]), moves[1..]);
    }
  }

  lemma {:induction false} ThreadStays(d: Dispatch, moves: seq<Move>)
    ensures MovedAll(d, moves).thread == d.thread && MovedAll(d, moves).gw.thread == d.gw.thread
    decreases |moves|
  {
    if moves != [] {
      ThreadStays(Moved(d, moves[0]), moves[1..]);
    }
    hide TickStarted, Interrupted;
  }

  // Once told, the loop is at rest within three steps of its own.
  lemma ToldTickEnds(d: Dispatch, a: Answers, b: Answers, c: Answers)
    requires DispatchInv(d) && Told(d)
    ensures Step(Step(Step(d, a), b), c).pc == AtRest
  {
  }

  // A gateway that does not belong to the loop's thread turns every submission
  // away: it is down in every reachable state, so there is nothing to stop.
  lemma ForeignGatewayStaysDown(loop: nat, gatewayThread: nat, moves: seq<Move>)
    requires loop != gatewayThread
    ensures Down(MovedAll(NewDispatch(loop, gatewayThread), moves).gw)
  {
    NewDispatchInv(loop, gatewayThread);
    RunKeepsInv(NewDispatch(loop, gatewayThread), moves);
    ThreadStays(NewDispatch(loop, gatewayThread), moves);
    hide MovedAll;
  }
}
