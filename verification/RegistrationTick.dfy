// The tick as code: a loop over a batch that drives the queue and the gateway,
// while a schedule says what other threads and the SDK do before each step.
module RegistrationTick {
  import opened Common
  import opened EventAdapter
  import opened RegistrationQueue
  import opened RegistrationGateway
  import opened RegistrationDispatcher

  // What happens before a step, and what the native side answers to it.
  datatype Slot = Slot(interruptions: seq<Interruption>, answers: Answers)

  function InterruptedBy(d: Dispatch, xs: seq<Interruption>): Dispatch
    decreases |xs|
  {
    if xs == [] then d else InterruptedBy(Interrupted(d, xs[0]), xs[1..])
  }

  lemma {:induction false} InterruptionsTouchNoTick(d: Dispatch, xs: seq<Interruption>)
    ensures var e := InterruptedBy(d, xs);
            e.pc == d.pc && e.tick == d.tick && e.thread == d.thread && e.last == d.last
    decreases |xs|
  {
    if xs != [] {
      InterruptionsTouchNoTick(Interrupted(d, xs[0]), xs[1..]);
    }
  }

  function Next(d: Dispatch, slot: Slot): Dispatch {
    Step(InterruptedBy(d, slot.interruptions), slot.answers)
  }

  // --- Every tick ends -------------------------------------------------------

  function Left(d: Dispatch, i: nat): nat {
    if i < |d.tick.batch.commands| then 6 * (|d.tick.batch.commands| - i) else 6
  }

  function Rank(d: Dispatch): nat {
    match d.pc
    case AtRest => 0
    case Shutting(_) => 1
    case Stopping(_) => 2
    case Polling => 2
    case Looping(i) => if i < |d.tick.batch.commands| then 3 + Left(d, i) else 3
    case Calling(i) => 2 + Left(d, i)
    case Registering(i) => 1 + Left(d, i)
    case Checking(i, _) => Left(d, i)
    case Arming(i, _) => Left(d, i) - 1
    case LastCheck(i, _) => Left(d, i) - 2
  }

  lemma NextRanksLower(d: Dispatch, slot: Slot)
    requires d.pc != AtRest
    ensures Rank(Next(d, slot)) < Rank(d)
  {
    InterruptionsTouchNoTick(d, slot.interruptions);
    StepRanksLower(InterruptedBy(d, slot.interruptions), slot.answers);
    hide Step, InterruptedBy;
  }

  lemma StepRanksLower(d: Dispatch, a: Answers)
    requires d.pc != AtRest
    ensures Rank(Step(d, a)) < Rank(d)
  {
    hide Admitted, SubmitBegun, SubmitEnded, GatewayArmed, GatewayStopped, GatewayPolled, PollVerdict;
  }

  // Runs a tick to its end under a schedule, whatever the schedule says.
  function TickRun(d: Dispatch, env: nat -> Slot, k: nat): (r: Dispatch)
    ensures r.pc == AtRest
    decreases Rank(d)
  {
    if d.pc == AtRest then d
    else
      NextRanksLower(d, env(k));
      TickRun(Next(d, env(k)), env, k + 1)
  }

  lemma OneStep(d: Dispatch, env: nat -> Slot, k: nat)
    requires d.pc != AtRest
    ensures var mid := InterruptedBy(d, env(k).interruptions);
            TickRun(d, env, k) == TickRun(Step(mid, env(k).answers), env, k + 1)
  {
    hide Step, InterruptedBy, Rank;
  }

  lemma Rested(d: Dispatch, env: nat -> Slot, k: nat)
    requires d.pc == AtRest
    ensures TickRun(d, env, k) == d
  {
  }

  // --- A scheduled tick is one of the interleavings --------------------------

  function AsMoves(xs: seq<Interruption>): seq<Move> {
    if xs == [] then [] else [Interrupt(xs[0])] + AsMoves(xs[1..])
  }

  function TickMoves(d: Dispatch, env: nat -> Slot, k: nat): seq<Move>
    decreases Rank(d)
  {
    if d.pc == AtRest then []
    else
      NextRanksLower(d, env(k));
      AsMoves(env(k).interruptions) + [Continue(env(k).answers)] + TickMoves(Next(d, env(k)), env, k + 1)
  }

  lemma {:induction false} InterruptionMoves(d: Dispatch, xs: seq<Interruption>, rest: seq<Move>)
    ensures MovedAll(d, AsMoves(xs) + rest) == MovedAll(InterruptedBy(d, xs), rest)
    decreases |xs|
  {
    if xs == [] {
      assert AsMoves(xs) + rest == rest;
    } else {
      assert (AsMoves(xs) + rest)[1..] == AsMoves(xs[1..]) + rest;
      InterruptionMoves(Interrupted(d, xs[0]), xs[1..], rest);
    }
    hide Interrupted;
  }

  // So everything proved of all interleavings holds of the code below.
  lemma {:induction false} TickIsARun(d: Dispatch, env: nat -> Slot, k: nat)
    ensures TickRun(d, env, k) == MovedAll(d, TickMoves(d, env, k))
    decreases Rank(d)
  {
    hide Step, InterruptedBy;
    if d.pc != AtRest {
      NextRanksLower(d, env(k));
      var slot := env(k);
      var later := TickMoves(Next(d, slot), env, k + 1);
      TickIsARun(Next(d, slot), env, k + 1);
      InterruptionMoves(d, slot.interruptions, [Continue(slot.answers)] + later);
      var mid := InterruptedBy(d, slot.interruptions);
      assert ([Continue(slot.answers)] + later)[1..] == later;
      assert MovedAll(mid, [Continue(slot.answers)] + later) == MovedAll(Next(d, slot), later);
      assert TickMoves(d, env, k) == AsMoves(slot.interruptions) + ([Continue(slot.answers)] + later);
    }
  }

  // --- The code --------------------------------------------------------------

  class Dispatcher {
    const queue: CommandQueue
    const gateway: GatewayObject
    const owner: nat

    ghost const Repr: set<object> := {queue, queue.entries} + gateway.Repr

    ghost predicate Valid()
      reads queue, queue.entries
    {
      queue.Valid()
    }

    // The dispatcher at some point of a tick.
    ghost function At(pc: TickPc, tick: Tick): Dispatch
      requires Valid()
      reads Repr
    {
      Dispatch(queue.State(), gateway.State(), owner, pc, tick, NOTHING)
    }

    constructor (queue: CommandQueue, gateway: GatewayObject, owner: nat)
      requires queue.Valid()
      ensures Valid() && this.queue == queue && this.gateway == gateway && this.owner == owner
    {
      this.queue, this.gateway, this.owner := queue, gateway, owner;
    }

    method Suffer(x: Interruption, ghost pc: TickPc, ghost tick: Tick)
      requires Valid()
      modifies Repr
      ensures Valid() && At(pc, tick) == Interrupted(old(At(pc, tick)), x)
    {
      match x {
        case UserSubmit(generation, timeout) =>
          var _ := queue.Submit(generation, timeout);
        case UserCancel(generation) =>
          var _ := queue.Cancel(generation);
        case Native(m) => gateway.bridge.Move(m);
      }
    }

    method SufferAll(xs: seq<Interruption>, ghost pc: TickPc, ghost tick: Tick)
      requires Valid()
      modifies Repr
      ensures Valid() && At(pc, tick) == InterruptedBy(old(At(pc, tick)), xs)
    {
      hide Interrupted;
      ghost var whole := InterruptedBy(At(pc, tick), xs);
      assert xs[0..] == xs;
      for i := 0 to |xs|
        invariant Valid() && InterruptedBy(At(pc, tick), xs[i..]) == whole
      {
        assert xs[i..][0] == xs[i] && xs[i..][1..] == xs[i + 1..];
        Suffer(xs[i], pc, tick);
      }
    }

    // What others do before the next step.
    method Yield(env: nat -> Slot, k: nat, ghost pc: TickPc, ghost tick: Tick)
      requires Valid() && pc != AtRest
      modifies Repr
      ensures Valid()
      ensures TickRun(old(At(pc, tick)), env, k) == TickRun(Step(At(pc, tick), env(k).answers), env, k + 1)
    {
      ghost var d := At(pc, tick);
      SufferAll(env(k).interruptions, pc, tick);
      OneStep(d, env, k);
    }

    method StopAndInvalidate(env: nat -> Slot, k: nat, o: Outcome, ghost tick: Tick)
      requires Valid()
      modifies Repr
      ensures Valid() && At(AtRest, tick).(last := o) == TickRun(old(At(Stopping(o), tick)), env, k)
    {
      hide TickRun, GatewayStopped;
      Yield(env, k, Stopping(o), tick);
      ghost var before := At(Stopping(o), tick);
      var _ := gateway.Stop(owner);
      assert At(Shutting(o), tick) == Step(before, env(k).answers);
      ShutDown(env, k + 1, o, tick);
    }

    method ShutDown(env: nat -> Slot, k: nat, o: Outcome, ghost tick: Tick)
      requires Valid()
      modifies Repr
      ensures Valid() && At(AtRest, tick).(last := o) == TickRun(old(At(Shutting(o), tick)), env, k)
    {
      hide TickRun, Invalidated;
      Yield(env, k, Shutting(o), tick);
      ghost var before := At(Shutting(o), tick);
      queue.Invalidate();
      assert At(AtRest, tick).(last := o) == Step(before, env(k).answers);
      Rested(At(AtRest, tick).(last := o), env, k + 1);
    }

    // From the admission of command i to its submission's result.
    method Submit(env: nat -> Slot, k: nat, i: nat, selected: Pointer, ghost tick: Tick)
      returns (submitted: Submission, next: nat)
      requires Valid() && tick.selected == selected
      modifies Repr
      ensures Valid()
      ensures TickRun(old(At(Calling(i), tick)), env, k) == TickRun(At(Checking(i, submitted), tick), env, next)
    {
      hide TickRun, SubmitBegun, SubmitEnded;
      Yield(env, k, Calling(i), tick);
      ghost var before := At(Calling(i), tick);
      var r := gateway.BeginSubmit(owner, selected, env(k).answers.started);
      next := k + 1;
      if r.Some? {
        assert At(Checking(i, r.value), tick) == Step(before, env(k).answers);
        return r.value, next;
      }
      assert At(Registering(i), tick) == Step(before, env(k).answers);
      Yield(env, next, Registering(i), tick);
      ghost var within := At(Registering(i), tick);
      submitted := gateway.EndSubmit(selected, env(next).answers.error);
      assert At(Checking(i, submitted), tick) == Step(within, env(next).answers);
      next := next + 1;
    }

    // One command of the batch. None: go on with the next one.
    method RunCommand(env: nat -> Slot, k: nat, i: nat, batch: CommandBatch, generation: U64, now: U64, selected: Pointer,
                      ghost tick: Tick)
      returns (o: Option<Outcome>, next: nat, ghost after: Tick)
      requires Valid() && i < |batch.commands|
      requires tick.generation == generation && tick.now == now && tick.selected == selected && tick.batch == batch
      modifies Repr
      ensures Valid()
      ensures o.Some? ==> At(AtRest, tick).(last := o.value) == TickRun(old(At(Looping(i), tick)), env, k)
      ensures o.None? ==> after == tick.(result := Outcome(DispatchSubmitted, SubmittedNow)) &&
                          TickRun(old(At(Looping(i), tick)), env, k) == TickRun(At(Looping(i + 1), after), env, next)
    {
      hide TickRun, StillAdmitted;
      next, after := k + 1, tick;
      var command := batch.commands[i];
      Yield(env, k, Looping(i), tick);
      if command.generation != generation {
        StopAndInvalidate(env, next, Plain(DispatchFailed), tick);
        return Some(Plain(DispatchFailed)), next, after;
      }
      if command.kind == CancelRegistration {
        StopAndInvalidate(env, next, Plain(DispatchCancelled), tick);
        return Some(Plain(DispatchCancelled)), next, after;
      }
      var admitted := queue.IsStillAdmitted(batch);
      if !admitted {
        StopAndInvalidate(env, next, Plain(SupersededDuringDispatch), tick);
        return Some(Plain(SupersededDuringDispatch)), next, after;
      }
      var submitted, afterSubmit := Submit(env, next, i, selected, tick);
      o, next, after := AfterSubmit(env, afterSubmit, i, submitted, batch, now, tick);
    }

    method AfterSubmit(env: nat -> Slot, k: nat, i: nat, submitted: Submission, batch: CommandBatch, now: U64, ghost tick: Tick)
      returns (o: Option<Outcome>, next: nat, ghost after: Tick)
      requires Valid() && i < |batch.commands| && tick.now == now && tick.batch == batch
      modifies Repr
      ensures Valid()
      ensures o.Some? ==> At(AtRest, tick).(last := o.value) == TickRun(old(At(Checking(i, submitted), tick)), env, k)
      ensures o.None? ==> after == tick.(result := Outcome(DispatchSubmitted, SubmittedNow)) &&
                          TickRun(old(At(Checking(i, submitted), tick)), env, k) == TickRun(At(Looping(i + 1), after), env, next)
    {
      hide TickRun, StillAdmitted;
      next, after := k + 1, tick;
      Yield(env, k, Checking(i, submitted), tick);
      var admitted := queue.IsStillAdmitted(batch);
      if !admitted {
        o := Some(Outcome(SupersededDuringDispatch, submitted));
        StopAndInvalidate(env, next, o.value, tick);
        return;
      }
      if submitted != SubmittedNow {
        o := Some(Outcome(DispatchFailed, submitted));
        StopAndInvalidate(env, next, o.value, tick);
        return;
      }
      o, next, after := ArmAndCheck(env, next, i, submitted, batch, now, tick);
    }

    method ArmAndCheck(env: nat -> Slot, k: nat, i: nat, submitted: Submission, batch: CommandBatch, now: U64, ghost tick: Tick)
      returns (o: Option<Outcome>, next: nat, ghost after: Tick)
      requires Valid() && i < |batch.commands| && tick.now == now && tick.batch == batch && submitted == SubmittedNow
      modifies Repr
      ensures Valid()
      ensures o.Some? ==> At(AtRest, tick).(last := o.value) == TickRun(old(At(Arming(i, submitted), tick)), env, k)
      ensures o.None? ==> after == tick.(result := Outcome(DispatchSubmitted, SubmittedNow)) &&
                          TickRun(old(At(Arming(i, submitted), tick)), env, k) == TickRun(At(Looping(i + 1), after), env, next)
    {
      hide TickRun, CanArmGateway, Armed;
      next, after := k + 1, tick;
      Yield(env, k, Arming(i, submitted), tick);
      ghost var before := At(Arming(i, submitted), tick);
      var armed := gateway.ArmRegistrationDeadline(owner, now, batch.commands[i].timeout);
      if !armed {
        assert At(Stopping(Outcome(DispatchFailed, submitted)), tick) == Step(before, env(k).answers);
        o := Some(Outcome(DispatchFailed, submitted));
        StopAndInvalidate(env, next, o.value, tick);
        return;
      }
      assert At(LastCheck(i, submitted), tick) == Step(before, env(k).answers);
      o, next, after := CheckLast(env, next, i, submitted, batch, tick);
    }

    method CheckLast(env: nat -> Slot, k: nat, i: nat, submitted: Submission, batch: CommandBatch, ghost tick: Tick)
      returns (o: Option<Outcome>, next: nat, ghost after: Tick)
      requires Valid() && tick.batch == batch && submitted == SubmittedNow
      modifies Repr
      ensures Valid()
      ensures o.Some? ==> At(AtRest, tick).(last := o.value) == TickRun(old(At(LastCheck(i, submitted), tick)), env, k)
      ensures o.None? ==> after == tick.(result := Outcome(DispatchSubmitted, SubmittedNow)) &&
                          TickRun(old(At(LastCheck(i, submitted), tick)), env, k) == TickRun(At(Looping(i + 1), after), env, next)
    {
      hide TickRun, StillAdmitted;
      next, after := k + 1, tick;
      Yield(env, k, LastCheck(i, submitted), tick);
      var admitted := queue.IsStillAdmitted(batch);
      if !admitted {
        o := Some(Outcome(SupersededDuringDispatch, submitted));
        StopAndInvalidate(env, next, o.value, tick);
        return;
      }
      after := tick.(result := Outcome(DispatchSubmitted, submitted));
      o := None;
    }

    method PollDeadline(env: nat -> Slot, k: nat, batch: CommandBatch, result: Outcome, now: U64, ghost tick: Tick)
      returns (o: Outcome)
      requires Valid() && tick.now == now && tick.batch == batch && tick.result == result
      modifies Repr
      ensures Valid() && At(AtRest, tick).(last := o) == TickRun(old(At(Polling, tick)), env, k)
    {
      hide TickRun, GatewayPolled, PollVerdict;
      Yield(env, k, Polling, tick);
      ghost var before := At(Polling, tick);
      var deadline := gateway.PollRegistrationDeadline(owner, now);
      match deadline {
        case Expired | ClockRegressed | SessionRevoked =>
          o := Plain(DeadlineExpired);
          assert At(Shutting(o), tick) == Step(before, env(k).answers);
          ShutDown(env, k + 1, o, tick);
          return;
        case CallbackConfirmed => o := Plain(Confirmed);
        case Pending => o := if |batch.commands| != 0 then result else Plain(DispatchPending);
        case Unarmed | WrongThread => o := result;
      }
      assert At(AtRest, tick).(last := o) == Step(before, env(k).answers);
      Rested(At(AtRest, tick).(last := o), env, k + 1);
    }

    // The whole tick.
    method RunTick(env: nat -> Slot, caller: nat, generation: U64, now: U64, selected: Pointer)
      returns (o: Outcome, ghost tick: Tick)
      requires Valid()
      modifies Repr
      ensures Valid()
      ensures At(AtRest, tick).(last := o) ==
              TickRun(TickStarted(old(At(AtRest, NO_TICK)), caller, generation, now, selected), env, 0)
    {
      hide TickRun;
      tick := NO_TICK;
      ghost var idle := At(AtRest, NO_TICK);
      if caller != owner {
        Rested(TickStarted(idle, caller, generation, now, selected), env, 0);
        return Plain(WrongOwnerThread), tick;
      }
      var batch := queue.Drain(generation);
      tick := Tick(generation, now, selected, batch, NOTHING);
      if batch.generation != generation || generation == 0 {
        Rested(TickStarted(idle, caller, generation, now, selected), env, 0);
        return Plain(StaleGeneration), tick;
      }
      if batch.overflow {
        StopAndInvalidate(env, 0, Plain(OverflowStopped), tick);
        return Plain(OverflowStopped), tick;
      }
      ghost var whole := TickRun(At(Looping(0), tick), env, 0);
      var result, k := NOTHING, 0;
      for i := 0 to |batch.commands|
        invariant Valid()
        invariant tick == Tick(generation, now, selected, batch, result)
        invariant TickRun(At(Looping(i), tick), env, k) == whole
      {
        var answer;
        ghost var after;
        answer, k, after := RunCommand(env, k, i, batch, generation, now, selected, tick);
        if answer.Some? { return answer.value, tick; }
        result := Outcome(DispatchSubmitted, SubmittedNow);
        tick := after;
      }
      Yield(env, k, Looping(|batch.commands|), tick);
      o := PollDeadline(env, k + 1, batch, result, now, tick);
    }
  }
}
