// Commands to the native side: which are authorized, and that none is sent twice.
module SipCommandExecutor {
  import opened Common
  import opened SipRuntime
  import opened SipAddress

  // --- Authorization ---------------------------------------------------------

  datatype EngineKind = NoEngine | BaresipEngine
  // The engine that was selected, and what its status answers when asked.
  datatype EngineSelection = EngineSelection(kind: EngineKind, engine: Option<SipStatus>) {
    predicate Usable() { kind == BaresipEngine && engine.Some? }
  }

  datatype DialDenied = DialAllowed | EmptyDestination | BadDestination | UnverifiedDial | NoEngineToDial | EngineNotRegistered
  datatype DialAuthorization = DialAuthorization(reason: DialDenied, destination: Wide)

  function AuthorizeDial(loc: Locale, o: Observation, session: U64, selected: EngineSelection, typed: Wide): DialAuthorization {
    if typed == [] then DialAuthorization(EmptyDestination, [])
    else if !Address(loc, typed).Ok() then DialAuthorization(BadDestination, [])
    else if !MayUseCallControl(o, session, Dial) then DialAuthorization(UnverifiedDial, [])
    else if !selected.Usable() then DialAuthorization(NoEngineToDial, [])
    else if selected.engine.value != Registered then DialAuthorization(EngineNotRegistered, [])
    else DialAuthorization(DialAllowed, Address(loc, typed).normalized)
  }

  datatype Denial = Granted | UnverifiedSession | EngineUnavailable | InvalidDestination | UnsupportedState
                  | StaleCallId | EngineStateMismatch
  datatype Permit = Permit(reason: Denial, destination: Wide)

  function Authorize(loc: Locale, o: Observation, session: U64, selected: EngineSelection, action: CallAction,
                     callId: U64, destination: Wide): Permit
  {
    if action == Dial then
      if callId != 0 || o.callId != 0 then Permit(StaleCallId, [])
      else
        var dial := AuthorizeDial(loc, o, session, selected, destination);
        match dial.reason
        case DialAllowed => Permit(Granted, dial.destination)
        case EmptyDestination | BadDestination => Permit(InvalidDestination, [])
        case UnverifiedDial => Permit(UnverifiedSession, [])
        case NoEngineToDial => Permit(EngineUnavailable, [])
        case EngineNotRegistered => Permit(EngineStateMismatch, [])
    else if !ProofIsCurrent(o, session) then Permit(UnverifiedSession, [])
    else if !selected.Usable() then Permit(EngineUnavailable, [])
    else if !MayUseCallControl(o, session, action) then Permit(UnsupportedState, [])
    else if callId == 0 || o.callId == 0 || o.callId != callId || o.lastCallId != callId then Permit(StaleCallId, [])
    else if selected.engine.value != o.sip then Permit(EngineStateMismatch, [])
    else Permit(Granted, [])
  }

  lemma EmptyIsRefused(loc: Locale)
    ensures !Address(loc, []).Ok()
  {
  }

  // What a grant means: the session is verified, engine and session are in the
  // same state, that state has room for the action, and the call is this one.
  lemma GrantedExactlyWhen(loc: Locale, o: Observation, session: U64, selected: EngineSelection, action: CallAction,
                           callId: U64, destination: Wide)
    ensures Authorize(loc, o, session, selected, action, callId, destination).reason == Granted <==>
            && ProofIsCurrent(o, session) && selected == EngineSelection(BaresipEngine, Some(o.sip))
            && CanApply(o.sip, action)
            && o.callId == callId
            && (if action == Dial then callId == 0 && Address(loc, destination).Ok()
                else callId != 0 && o.lastCallId == callId)
    ensures var permit := Authorize(loc, o, session, selected, action, callId, destination);
            permit.reason == Granted && action == Dial ==> permit.destination == Address(loc, destination).normalized
  {
    EmptyIsRefused(loc);
    hide Address, AddressResult.Ok;
  }

  // A granted destination is in normal form: granting it again changes nothing.
  lemma {:induction false} GrantedDestinationIsNormal(loc: Locale, o: Observation, session: U64, selected: EngineSelection, destination: Wide)
    requires Authorize(loc, o, session, selected, Dial, 0, destination).reason == Granted
    ensures var normal := Authorize(loc, o, session, selected, Dial, 0, destination).destination;
            Authorize(loc, o, session, selected, Dial, 0, normal) == Permit(Granted, normal)
  {
    var normal := Authorize(loc, o, session, selected, Dial, 0, destination).destination;
    GrantedExactlyWhen(loc, o, session, selected, Dial, 0, destination);
    NormalizationIsIdempotent(loc, destination);
    GrantedExactlyWhen(loc, o, session, selected, Dial, 0, normal);
    hide Address, Authorize, CanApply, ProofIsCurrent;
  }

  // --- The executor: specification -------------------------------------------

  const PENDING_TIMEOUT_MS: nat := 10000

  datatype Request = Request(session: U64, sequence: U64, action: CallAction, callId: U64, destination: Wide)

  datatype Disposition =
    | IdleNow | ProgressObserved | Submitted | InvalidRequest | StaleRequest
    | DuplicateRequest | PendingTransition | DuplicateCallAction | Denied
    | NativeRejected | CommandTimedOut | ClockRollback | Fenced

  datatype NativeCall = Originate(destination: Wide) | AnswerCall(callId: U64) | HangupCall(callId: U64)

  // What a session looked like: a native success must change it.
  datatype Sight = Sight(status: SipStatus, callId: U64, lastCallId: U64)

  function Seen(o: Observation): Sight { Sight(o.sip, o.callId, o.lastCallId) }

  datatype Executor = Executor(
    session: U64, lastSequence: U64, lastAnswer: U64, lastHangup: U64,
    sentDial: bool, lastDialCall: U64,
    pending: bool, pendingSince: U64, pendingSight: Sight,
    lastNow: U64, fenced: bool)

  function NewSession(id: U64): Executor {
    Executor(id, 0, 0, 0, false, 0, false, 0, Sight(SipStatus.Unavailable, 0, 0), 0, false)
  }

  datatype Outcome = Outcome(e: Executor, d: Disposition, denial: Denial, sent: Option<NativeCall>)

  function Quit(e: Executor, d: Disposition): Outcome { Outcome(e, d, Granted, None) }

  predicate RolledBack(e: Executor, now: U64) { e.lastNow != 0 && now < e.lastNow }

  // The subtraction is the machine's.
  predicate Overdue(e: Executor, now: U64) { Sub64(now, e.pendingSince) >= PENDING_TIMEOUT_MS }

  function Watched(e: Executor, live: Observation, active: U64, now: U64): (Executor, Disposition) {
    if e.fenced then (e, Fenced)
    else if e.session == 0 || !e.pending then (e, IdleNow)
    else if now == 0 || !ProofIsCurrent(live, active) || active != e.session then (e.(fenced := true), StaleRequest)
    else if RolledBack(e, now) then (e.(fenced := true), ClockRollback)
    else
      var f := e.(lastNow := now);
      if Seen(live) != f.pendingSight then (f.(pending := false), ProgressObserved)
      else if Overdue(f, now) then (f.(fenced := true), CommandTimedOut)
      else (f, PendingTransition)
  }

  predicate Repeats(e: Executor, r: Request, live: Observation) {
    match r.action
    case Dial => e.sentDial && live.lastCallId <= e.lastDialCall
    case Answer => r.callId <= e.lastAnswer
    case Hangup => r.callId <= e.lastHangup
  }

  function CallFor(r: Request, destination: Wide): NativeCall {
    match r.action
    case Dial => Originate(destination)
    case Answer => AnswerCall(r.callId)
    case Hangup => HangupCall(r.callId)
  }

  // Everything before a native call: the executor is of the request's session,
  // its clock has advanced, and the request is new to it.
  function Prepared(e: Executor, r: Request, live: Observation, active: U64, now: U64): Outcome {
    if r.session == 0 || r.sequence == 0 || now == 0 then Quit(e, InvalidRequest)
    else if r.session < e.session then Quit(e, StaleRequest)
    else if e.session != 0 && r.session == e.session && e.fenced then Quit(e, Fenced)
    else if r.session != active || !ProofIsCurrent(live, active) then
      Quit(if r.session == e.session then e.(fenced := true) else e, StaleRequest)
    else
      var f := if r.session > e.session then NewSession(r.session) else e;
      if RolledBack(f, now) then Quit(f.(fenced := true), ClockRollback)
      else if r.sequence <= f.lastSequence then Quit(f.(lastNow := now), DuplicateRequest)
      else
        var g := f.(lastNow := now, lastSequence := r.sequence);
        if !g.pending || Seen(live) != g.pendingSight then Quit(g.(pending := false), Submitted)
        else if Overdue(g, now) then Quit(g.(fenced := true), CommandTimedOut)
        else Quit(g, PendingTransition)
  }

  // accepted is what the native side answers, a C++ exception counting as no.
  function Dispatched(loc: Locale, e: Executor, r: Request, live: Observation, active: U64,
                      selected: EngineSelection, now: U64, accepted: bool): Outcome
  {
    var p := Prepared(e, r, live, active, now);
    if p.d != Submitted then p
    else
      var permit := Authorize(loc, live, active, selected, r.action, r.callId, r.destination);
      if permit.reason != Granted then Outcome(p.e, Denied, permit.reason, None)
      else if Repeats(p.e, r, live) then Quit(p.e, DuplicateCallAction)
      else
        var call := CallFor(r, permit.destination);
        if !accepted then Outcome(p.e.(fenced := true), NativeRejected, Granted, Some(call))
        else Outcome(Recorded(p.e, r, live, now), Submitted, Granted, Some(call))
  }

  function Recorded(e: Executor, r: Request, live: Observation, now: U64): Executor {
    var f := e.(pending := true, pendingSince := now, pendingSight := Seen(live));
    match r.action
    case Dial => f.(sentDial := true, lastDialCall := live.lastCallId)
    case Answer => f.(lastAnswer := r.callId)
    case Hangup => f.(lastHangup := r.callId)
  }

  // --- The code --------------------------------------------------------------

  class CommandExecutor {
    var session: U64
    var lastSequence: U64
    var lastAnswer: U64
    var lastHangup: U64
    var lastDialCall: U64
    var pendingCall: U64
    var pendingLastCall: U64
    var pendingSince: U64
    var lastNow: U64
    var pendingStatus: SipStatus
    var pending: bool
    var sentDial: bool
    var fenced: bool

    ghost function State(): Executor
      reads this
    {
      Executor(session, lastSequence, lastAnswer, lastHangup, sentDial, lastDialCall,
               pending, pendingSince, Sight(pendingStatus, pendingCall, pendingLastCall), lastNow, fenced)
    }

    constructor ()
      ensures State() == NewSession(0)
    {
      session, lastSequence, lastAnswer, lastHangup, lastDialCall := 0, 0, 0, 0, 0;
      pendingCall, pendingLastCall, pendingSince, lastNow := 0, 0, 0, 0;
      pendingStatus, pending, sentDial, fenced := SipStatus.Unavailable, false, false, false;
    }

    method BeginNewSession(id: U64)
      modifies this
      ensures State() == NewSession(id)
    {
      session := id;
      lastSequence, lastAnswer, lastHangup, lastDialCall := 0, 0, 0, 0;
      pendingCall, pendingLastCall, pendingStatus, pendingSince, lastNow := 0, 0, SipStatus.Unavailable, 0, 0;
      pending, sentDial, fenced := false, false, false;
    }

    method Watchdog(live: Observation, active: U64, now: U64) returns (d: Disposition)
      modifies this
      ensures (State(), d) == Watched(old(State()), live, active, now)
    {
      if fenced { return Fenced; }
      if session == 0 || !pending { return IdleNow; }
      if now == 0 || !ProofIsCurrent(live, active) || active != session {
        fenced := true;
        return StaleRequest;
      }
      if lastNow != 0 && now < lastNow {
        fenced := true;
        return ClockRollback;
      }
      lastNow := now;
      if live.sip != pendingStatus || live.callId != pendingCall || live.lastCallId != pendingLastCall {
        pending := false;
        return ProgressObserved;
      }
      if Sub64(now, pendingSince) >= PENDING_TIMEOUT_MS {
        fenced := true;
        return CommandTimedOut;
      }
      return PendingTransition;
    }

    method Prepare(r: Request, live: Observation, active: U64, now: U64) returns (d: Disposition)
      modifies this
      ensures Quit(State(), d) == Prepared(old(State()), r, live, active, now)
    {
      if r.session == 0 || r.sequence == 0 || now == 0 { return InvalidRequest; }
      if r.session < session { return StaleRequest; }
      if session != 0 && r.session == session && fenced { return Fenced; }
      if r.session != active || !ProofIsCurrent(live, active) {
        if r.session == session { fenced := true; }
        return StaleRequest;
      }
      if r.session > session { BeginNewSession(r.session); }
      if lastNow != 0 && now < lastNow {
        fenced := true;
        return ClockRollback;
      }
      lastNow := now;
      if r.sequence <= lastSequence { return DuplicateRequest; }
      lastSequence := r.sequence;
      if pending {
        if live.sip == pendingStatus && live.callId == pendingCall && live.lastCallId == pendingLastCall {
          if Sub64(now, pendingSince) >= PENDING_TIMEOUT_MS {
            fenced := true;
            return CommandTimedOut;
          }
          return PendingTransition;
        }
        pending := false;
      }
      return Submitted;
    }

    method Record(r: Request, live: Observation, now: U64)
      modifies this
      ensures State() == Recorded(old(State()), r, live, now)
    {
      match r.action {
        case Dial => sentDial, lastDialCall := true, live.lastCallId;
        case Answer => lastAnswer := r.callId;
        case Hangup => lastHangup := r.callId;
      }
      pending, pendingSince := true, now;
      pendingStatus, pendingCall, pendingLastCall := live.sip, live.callId, live.lastCallId;
    }

    method Dispatch(loc: Locale, r: Request, live: Observation, active: U64, selected: EngineSelection, now: U64,
                    accepted: bool) returns (d: Disposition, denial: Denial, sent: Option<NativeCall>)
      modifies this
      ensures Outcome(State(), d, denial, sent) == Dispatched(loc, old(State()), r, live, active, selected, now, accepted)
    {
      denial, sent := Granted, None;
      d := Prepare(r, live, active, now);
      if d != Submitted { return; }
      var permission := Authorize(loc, live, active, selected, r.action, r.callId, r.destination);
      hide Prepared, Authorize;
      if permission.reason != Granted { return Denied, permission.reason, None; }
      match r.action {
        case Dial => if sentDial && live.lastCallId <= lastDialCall { return DuplicateCallAction, Granted, None; }
        case Answer => if r.callId <= lastAnswer { return DuplicateCallAction, Granted, None; }
        case Hangup => if r.callId <= lastHangup { return DuplicateCallAction, Granted, None; }
      }
      match r.action {
        case Dial => sent := Some(Originate(permission.destination));
        case Answer => sent := Some(AnswerCall(r.callId));
        case Hangup => sent := Some(HangupCall(r.callId));
      }
      if !accepted {
        fenced := true;
        return NativeRejected, Granted, sent;
      }
      Record(r, live, now);
      return Submitted, Granted, sent;
    }
  }

  // --- Runs ------------------------------------------------------------------

  datatype ExecutorOp =
    | Watch(live: Observation, active: U64, now: U64)
    | Command(r: Request, live: Observation, active: U64, selected: EngineSelection, now: U64, accepted: bool)

  function StepOn(loc: Locale, e: Executor, op: ExecutorOp): Executor {
    match op
    case Watch(live, active, now) => Watched(e, live, active, now).0
    case Command(r, live, active, selected, now, accepted) =>
      Dispatched(loc, e, r, live, active, selected, now, accepted).e
  }

  function RunOn(loc: Locale, e: Executor, ops: seq<ExecutorOp>): Executor
    decreases |ops|
  {
    if ops == [] then e else RunOn(loc, StepOn(loc, e, ops[0]), ops[1..])
  }

  // Whether the operation makes a native call, successful or not.
  predicate Sends(loc: Locale, e: Executor, op: ExecutorOp) {
    op.Command? && Dispatched(loc, e, op.r, op.live, op.active, op.selected, op.now, op.accepted).sent.Some?
  }

  // A clock that was read is never behind the start of the wait it measures.
  predicate ClockInv(e: Executor) {
    && (e.pending ==> 0 < e.pendingSince <= e.lastNow)
    && (e.session == 0 ==> e == NewSession(0))
  }

  // Wherever the code subtracts, the time has passed: nothing wraps around.
  lemma ElapsedNeverWraps(e: Executor, now: U64)
    requires ClockInv(e) && e.pending && !RolledBack(e, now) && now != 0
    ensures Sub64(now, e.pendingSince) == now - e.pendingSince
    ensures Overdue(e, now) <==> now - e.pendingSince >= PENDING_TIMEOUT_MS
  {
  }

  lemma StepKeepsClock(loc: Locale, e: Executor, op: ExecutorOp)
    requires ClockInv(e)
    ensures ClockInv(StepOn(loc, e, op)) && StepOn(loc, e, op).session >= e.session
  {
    hide Authorize, Overdue;
  }

  // What a later state remembers of a call that was made: its session is over,
  // or fenced, or the call was accepted and everything about it is behind.
  predicate Remembers(e: Executor, a: ExecutorOp)
    requires a.Command?
  {
    || e.session > a.r.session
    || (e.session == a.r.session && e.fenced)
    || (&& e.session == a.r.session && a.accepted && e.lastSequence >= a.r.sequence
        && (a.r.action == Answer ==> e.lastAnswer >= a.r.callId)
        && (a.r.action == Hangup ==> e.lastHangup >= a.r.callId)
        && (a.r.action == Dial ==> e.sentDial && e.lastDialCall >= a.live.lastCallId))
  }

  lemma SendIsRemembered(loc: Locale, e: Executor, a: ExecutorOp)
    requires ClockInv(e) && a.Command? && Sends(loc, e, a)
    ensures Remembers(StepOn(loc, e, a), a)
    ensures e.session <= a.r.session && a.r.session != 0
  {
    hide Authorize;
  }

  lemma {:induction false} StepRemembers(loc: Locale, e: Executor, op: ExecutorOp, a: ExecutorOp)
    requires a.Command? && Remembers(e, a) && a.r.session != 0
    ensures Remembers(StepOn(loc, e, op), a)
  {
    if op.Command? {
      PreparedRemembers(e, op.r, op.live, op.active, op.now, a);
      hide Prepared;
    }
    hide Authorize, Overdue, ProofIsCurrent;
  }

  lemma PreparedRemembers(e: Executor, r: Request, live: Observation, active: U64, now: U64, a: ExecutorOp)
    requires a.Command? && Remembers(e, a)
    ensures Remembers(Prepared(e, r, live, active, now).e, a)
  {
    hide Overdue, ProofIsCurrent;
  }

  // What a later call must look like.
  predicate Follows(a: ExecutorOp, b: ExecutorOp)
    requires a.Command? && b.Command?
  {
    || a.r.session < b.r.session
    || (&& a.r.session == b.r.session && a.accepted
        && a.r.sequence < b.r.sequence
        && (a.r.action == Answer && b.r.action == Answer ==> a.r.callId < b.r.callId)
        && (a.r.action == Hangup && b.r.action == Hangup ==> a.r.callId < b.r.callId)
        && (a.r.action == Dial && b.r.action == Dial ==> a.live.lastCallId < b.live.lastCallId))
  }

  lemma SendFollows(loc: Locale, e: Executor, a: ExecutorOp, b: ExecutorOp)
    requires a.Command? && b.Command? && Remembers(e, a) && a.r.session != 0 && Sends(loc, e, b)
    ensures Follows(a, b)
  {
    hide Authorize, Overdue;
  }

  // The state before operation k.
  function Before(loc: Locale, e: Executor, ops: seq<ExecutorOp>, k: nat): Executor
    requires k <= |ops|
  {
    RunOn(loc, e, ops[..k])
  }

  lemma {:induction false} BeforeNext(loc: Locale, e: Executor, ops: seq<ExecutorOp>, k: nat)
    requires k < |ops|
    ensures Before(loc, e, ops, k + 1) == StepOn(loc, Before(loc, e, ops, k), ops[k])
    decreases k
  {
    hide StepOn;
    if k == 0 {
      assert ops[..1] == [ops[0]] && ops[..0] == [] && [ops[0]][1..] == [];
      assert RunOn(loc, StepOn(loc, e, ops[0]), []) == StepOn(loc, e, ops[0]);
    } else {
      assert ops[..k + 1][1..] == ops[1..][..k] && ops[..k][1..] == ops[1..][..k - 1];
      BeforeNext(loc, StepOn(loc, e, ops[0]), ops[1..], k - 1);
    }
  }

  lemma {:induction false} AlwaysClocked(loc: Locale, e: Executor, ops: seq<ExecutorOp>, k: nat)
    requires ClockInv(e) && k <= |ops|
    ensures ClockInv(Before(loc, e, ops, k))
    decreases k
  {
    if k == 0 {
      assert ops[..0] == [];
    } else {
      AlwaysClocked(loc, e, ops, k - 1);
      BeforeNext(loc, e, ops, k - 1);
      StepKeepsClock(loc, Before(loc, e, ops, k - 1), ops[k - 1]);
    }
  }

  lemma {:induction false} StillRemembered(loc: Locale, e: Executor, ops: seq<ExecutorOp>, i: nat, j: nat)
    requires ClockInv(e) && i < j <= |ops| && Sends(loc, Before(loc, e, ops, i), ops[i])
    ensures Remembers(Before(loc, e, ops, j), ops[i]) && ops[i].r.session != 0
    decreases j
  {
    hide Remembers, ClockInv, StepOn, Before, Sends;
    BeforeNext(loc, e, ops, j - 1);
    AlwaysClocked(loc, e, ops, i);
    assert ops[i].Command? by { SendsIsCommand(loc, Before(loc, e, ops, i), ops[i]); }
    SendIsRemembered(loc, Before(loc, e, ops, i), ops[i]);
    if i + 1 < j {
      StillRemembered(loc, e, ops, i, j - 1);
      StepRemembers(loc, Before(loc, e, ops, j - 1), ops[j - 1], ops[i]);
    }
  }

  lemma SendsIsCommand(loc: Locale, e: Executor, op: ExecutorOp)
    requires Sends(loc, e, op)
    ensures op.Command?
  {
  }

  // In any run of commands and watchdog checks, of any two native calls: the
  // later one is of a later session, or the earlier one succeeded and the later
  // has a larger request number, answers or ends a later call, or dials after a
  // new call was seen. So no call is answered or ended twice, failures included,
  // and nothing is sent in a session after a failure.
  lemma NothingIsSentTwice(loc: Locale, ops: seq<ExecutorOp>, i: nat, j: nat)
    requires i < j < |ops|
    requires Sends(loc, Before(loc, NewSession(0), ops, i), ops[i])
    requires Sends(loc, Before(loc, NewSession(0), ops, j), ops[j])
    ensures Follows(ops[i], ops[j])
  {
    hide Sends, Before, Remembers;
    SendsIsCommand(loc, Before(loc, NewSession(0), ops, i), ops[i]);
    SendsIsCommand(loc, Before(loc, NewSession(0), ops, j), ops[j]);
    StillRemembered(loc, NewSession(0), ops, i, j);
    SendFollows(loc, Before(loc, NewSession(0), ops, j), ops[i], ops[j]);
  }

  // --- Once fenced -----------------------------------------------------------

  lemma StepStaysFenced(loc: Locale, e: Executor, op: ExecutorOp)
    requires e.fenced && e.session != 0
    ensures var after := StepOn(loc, e, op);
            after.session > e.session || (after.session == e.session && after.fenced)
    ensures Sends(loc, e, op) ==> op.r.session > e.session
  {
    hide Authorize, Overdue;
  }

  lemma {:induction false} StaysFenced(loc: Locale, e: Executor, ops: seq<ExecutorOp>, k: nat)
    requires ClockInv(e) && e.fenced && e.session != 0 && k <= |ops|
    ensures var after := Before(loc, e, ops, k);
            after.session > e.session || (after.session == e.session && after.fenced)
    decreases k
  {
    hide StepOn, Sends, ClockInv, Before;
    if k == 0 {
      NothingRun(loc, e, ops);
    } else {
      StaysFenced(loc, e, ops, k - 1);
      AlwaysClocked(loc, e, ops, k - 1);
      BeforeNext(loc, e, ops, k - 1);
      var before := Before(loc, e, ops, k - 1);
      StepKeepsClock(loc, before, ops[k - 1]);
      if before.fenced && before.session != 0 {
        StepStaysFenced(loc, before, ops[k - 1]);
      }
    }
  }

  lemma NothingRun(loc: Locale, e: Executor, ops: seq<ExecutorOp>)
    ensures Before(loc, e, ops, 0) == e
  {
    assert ops[..0] == [];
  }

  lemma SendsForward(loc: Locale, e: Executor, op: ExecutorOp)
    requires ClockInv(e) && Sends(loc, e, op)
    ensures op.Command? && op.r.session >= e.session
  {
    hide Authorize, Overdue;
  }

  // Once fenced, for whatever reason, over any run: nothing is sent until a
  // larger session, and the fence holds until then.
  lemma FencedSendsNothing(loc: Locale, e: Executor, ops: seq<ExecutorOp>, k: nat)
    requires ClockInv(e) && e.fenced && e.session != 0 && k < |ops|
    ensures var before := Before(loc, e, ops, k);
            && (before.session > e.session || (before.session == e.session && before.fenced))
            && (Sends(loc, before, ops[k]) ==> ops[k].r.session > e.session)
  {
    hide StepOn, Sends, ClockInv, Before;
    StaysFenced(loc, e, ops, k);
    AlwaysClocked(loc, e, ops, k);
    var before := Before(loc, e, ops, k);
    if Sends(loc, before, ops[k]) {
      SendsForward(loc, before, ops[k]);
      if before.session == e.session {
        StepStaysFenced(loc, before, ops[k]);
      }
    }
  }

  // What an operation returns to its caller.
  function Returned(loc: Locale, e: Executor, op: ExecutorOp): Disposition {
    match op
    case Watch(live, active, now) => Watched(e, live, active, now).1
    case Command(r, live, active, selected, now, accepted) =>
      Dispatched(loc, e, r, live, active, selected, now, accepted).d
  }

  // The answers that report a broken session: the deadline, the clock, a failed
  // native call; and a lost session, when a check or a request of it found that.
  predicate ReportsFence(e: Executor, op: ExecutorOp, d: Disposition) {
    || d == CommandTimedOut || d == ClockRollback || d == NativeRejected
    || (d == StaleRequest && (op.Watch? || (op.r.session == e.session && e.session != 0)))
  }

  lemma ReportedFenceIsUp(loc: Locale, e: Executor, op: ExecutorOp)
    requires ClockInv(e) && ReportsFence(e, op, Returned(loc, e, op))
    ensures StepOn(loc, e, op).fenced && StepOn(loc, e, op).session != 0
  {
    hide Authorize, Overdue;
  }

  lemma {:induction false} RunSplits(loc: Locale, e: Executor, ops: seq<ExecutorOp>, i: nat, j: nat)
    requires i <= j <= |ops|
    ensures Before(loc, e, ops, j) == Before(loc, Before(loc, e, ops, i), ops[i..], j - i)
    decreases j
  {
    hide StepOn;
    if i == j {
      assert ops[i..][..0] == [];
    } else {
      RunSplits(loc, e, ops, i, j - 1);
      BeforeNext(loc, e, ops, j - 1);
      BeforeNext(loc, Before(loc, e, ops, i), ops[i..], j - 1 - i);
    }
  }

  // After any operation that reported a broken session, whatever broke it,
  // every later native call of the run is of a larger session.
  lemma NothingAfterAFence(loc: Locale, ops: seq<ExecutorOp>, i: nat, j: nat)
    requires i < j < |ops|
    requires var e := Before(loc, NewSession(0), ops, i); ReportsFence(e, ops[i], Returned(loc, e, ops[i]))
    requires Sends(loc, Before(loc, NewSession(0), ops, j), ops[j])
    ensures ops[j].r.session > Before(loc, NewSession(0), ops, i + 1).session
    ensures Before(loc, NewSession(0), ops, i + 1).fenced
  {
    hide StepOn, Sends, Before, ReportsFence, Returned, ClockInv;
    var start := NewSession(0);
    assert ClockInv(start) by { FreshIsClocked(); }
    AlwaysClocked(loc, start, ops, i);
    AlwaysClocked(loc, start, ops, i + 1);
    BeforeNext(loc, start, ops, i);
    ReportedFenceIsUp(loc, Before(loc, start, ops, i), ops[i]);
    RunSplits(loc, start, ops, i + 1, j);
    assert ops[i + 1..][j - i - 1] == ops[j];
    FencedSendsNothing(loc, Before(loc, start, ops, i + 1), ops[i + 1..], j - i - 1);
  }

  lemma FreshIsClocked()
    ensures ClockInv(NewSession(0))
  {
  }

  // --- Something must change between two calls -------------------------------

  // Still waiting for the session to look different from what the call saw.
  predicate Awaits(e: Executor, a: ExecutorOp)
    requires a.Command?
  {
    e.session > a.r.session || e.fenced || (e.pending && e.pendingSight == Seen(a.live))
  }

  lemma StepAwaits(loc: Locale, e: Executor, op: ExecutorOp, a: ExecutorOp)
    requires a.Command? && Awaits(e, a) && e.session >= a.r.session && a.r.session != 0
    requires Seen(op.live) == Seen(a.live)
    ensures Awaits(StepOn(loc, e, op), a)
    ensures op.Command? && Sends(loc, e, op) ==> op.r.session > a.r.session
  {
    hide Authorize, Overdue;
  }

  lemma SendAwaits(loc: Locale, e: Executor, a: ExecutorOp)
    requires a.Command? && Sends(loc, e, a)
    ensures Awaits(StepOn(loc, e, a), a)
  {
    hide Authorize;
  }

  lemma {:induction false} StillAwaited(loc: Locale, e: Executor, ops: seq<ExecutorOp>, i: nat, j: nat)
    requires ClockInv(e) && i < j <= |ops| && Sends(loc, Before(loc, e, ops, i), ops[i])
    requires forall k :: i < k < j ==> Seen(ops[k].live) == Seen(ops[i].live)
    ensures ops[i].Command? && Awaits(Before(loc, e, ops, j), ops[i])
    decreases j
  {
    hide Awaits, ClockInv, StepOn, Before, Sends, Remembers;
    BeforeNext(loc, e, ops, j - 1);
    SendsIsCommand(loc, Before(loc, e, ops, i), ops[i]);
    SendAwaits(loc, Before(loc, e, ops, i), ops[i]);
    if i + 1 < j {
      StillAwaited(loc, e, ops, i, j - 1);
      StillRemembered(loc, e, ops, i, j - 1);
      RemembersSession(Before(loc, e, ops, j - 1), ops[i]);
      StepAwaits(loc, Before(loc, e, ops, j - 1), ops[j - 1], ops[i]);
    }
  }

  lemma RemembersSession(e: Executor, a: ExecutorOp)
    requires a.Command? && Remembers(e, a)
    ensures e.session >= a.r.session
  {
  }

  // Between any two native calls of one session, the later one's own sight
  // included, the session was seen in a state other than the first one's.
  lemma ChangeBetweenCalls(loc: Locale, ops: seq<ExecutorOp>, i: nat, j: nat) returns (k: nat)
    requires i < j < |ops|
    requires Sends(loc, Before(loc, NewSession(0), ops, i), ops[i])
    requires Sends(loc, Before(loc, NewSession(0), ops, j), ops[j])
    requires ops[i].r.session == ops[j].r.session
    ensures i < k <= j && Seen(ops[k].live) != Seen(ops[i].live)
  {
    hide Awaits, StepOn, Before, Sends, Remembers;
    var start := NewSession(0);
    k := i + 1;
    while k < j && Seen(ops[k].live) == Seen(ops[i].live)
      invariant i < k <= j
      invariant forall m :: i < m < k ==> Seen(ops[m].live) == Seen(ops[i].live)
    {
      k := k + 1;
    }
    if Seen(ops[k].live) == Seen(ops[i].live) {
      StillAwaited(loc, start, ops, i, j);
      StillRemembered(loc, start, ops, i, j);
      RemembersSession(Before(loc, start, ops, j), ops[i]);
      SendsIsCommand(loc, Before(loc, start, ops, j), ops[j]);
      StepAwaits(loc, Before(loc, start, ops, j), ops[j], ops[i]);
    }
  }
}
