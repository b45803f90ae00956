// Which native call a command makes and when, told from the command, what is
// seen of the session and what was done before; and how long a call is awaited.
module SipCommandCalls {
  import opened Common
  import opened SipRuntime
  import opened SipAddress
  import opened SipCommandExecutor

  // --- Which call ------------------------------------------------------------

  // An answer answers and a hang-up ends the very call that is on, in a state
  // that has room for it; a dial goes to the normal form of what was typed.
  lemma CallIsTheOneAsked(loc: Locale, e: Executor, r: Request, live: Observation, active: U64,
                          selected: EngineSelection, now: U64, accepted: bool)
    ensures var sent := Dispatched(loc, e, r, live, active, selected, now, accepted).sent;
            && (forall n :: sent == Some(AnswerCall(n)) ==>
                  r.action == Answer && n == r.callId == live.callId == live.lastCallId && n != 0 && live.sip == Ringing)
            && (forall n :: sent == Some(HangupCall(n)) ==>
                  r.action == Hangup && n == r.callId == live.callId == live.lastCallId && n != 0 &&
                  (live.sip == Calling || live.sip == Ringing || live.sip == InCall))
            && (forall d :: sent == Some(Originate(d)) ==>
                  r.action == Dial && r.callId == live.callId == 0 && live.sip == Registered &&
                  Address(loc, r.destination) == AddressResult(NoError, d))
  {
    GrantedExactlyWhen(loc, live, active, selected, r.action, r.callId, r.destination);
    hide Authorize, Repeats, Address, Overdue;
  }

  // --- Whether a call is made ------------------------------------------------

  // The session is verified and its own engine agrees with it; the call named is
  // the one that is on, and its state has room for the action.
  predicate Fitting(loc: Locale, r: Request, live: Observation, active: U64, selected: EngineSelection) {
    && r.session == active && ProofIsCurrent(live, active)
    && selected == EngineSelection(BaresipEngine, Some(live.sip))
    && match r.action
       case Dial => live.sip == Registered && r.callId == 0 && live.callId == 0 && Address(loc, r.destination).Ok()
       case Answer => live.sip == Ringing && r.callId != 0 && live.callId == r.callId && live.lastCallId == r.callId
       case Hangup =>
         && (live.sip == Calling || live.sip == Ringing || live.sip == InCall)
         && r.callId != 0 && live.callId == r.callId && live.lastCallId == r.callId
  }

  // Nothing that was done before in this session stands against it: no fence, no
  // clock that ran back, a request number not used yet, no call still awaited,
  // and no earlier answer, hang-up or dial of the same call.
  predicate Unspent(e: Executor, r: Request, live: Observation, now: U64) {
    && !e.fenced && e.lastNow <= now && e.lastSequence < r.sequence
    && (e.pending ==> live.sip != e.pendingSight.status || live.callId != e.pendingSight.callId ||
                      live.lastCallId != e.pendingSight.lastCallId)
    && match r.action
       case Dial => e.sentDial ==> e.lastDialCall < live.lastCallId
       case Answer => e.lastAnswer < r.callId
       case Hangup => e.lastHangup < r.callId
  }

  // A native call is made exactly for a well-formed, fitting command, of a newer
  // session or unspent in the executor's own.
  lemma CallIsMadeExactlyWhen(loc: Locale, e: Executor, r: Request, live: Observation, active: U64,
                              selected: EngineSelection, now: U64, accepted: bool)
    ensures Dispatched(loc, e, r, live, active, selected, now, accepted).sent.Some? <==>
            && r.session != 0 && r.sequence != 0 && now != 0
            && Fitting(loc, r, live, active, selected)
            && (e.session < r.session || (e.session == r.session && Unspent(e, r, live, now)))
  {
    GrantedExactlyWhen(loc, live, active, selected, r.action, r.callId, r.destination);
    hide Authorize, Address, Overdue;
  }

  // --- Why a command is denied -----------------------------------------------

  // On a verified session a denial says what does not fit.
  lemma DenialsTell(loc: Locale, o: Observation, session: U64, selected: EngineSelection, action: CallAction,
                    callId: U64, destination: Wide)
    ensures var reason := Authorize(loc, o, session, selected, action, callId, destination).reason;
            var verified := ProofIsCurrent(o, session);
            var usable := selected.kind == BaresipEngine && selected.engine.Some?;
            var fits := if action == Answer then o.sip == Ringing
                        else o.sip == Calling || o.sip == Ringing || o.sip == InCall;
            var named := callId != 0 && o.callId == callId && o.lastCallId == callId;
            && (action != Dial ==>
                  && (reason == UnverifiedSession <==> !verified)
                  && (reason == EngineUnavailable <==> verified && !usable)
                  && (reason == UnsupportedState <==> verified && usable && !fits)
                  && (reason == StaleCallId <==> verified && usable && fits && !named)
                  && (reason == EngineStateMismatch <==>
                        verified && usable && fits && named && selected.engine.value != o.sip))
            && (action == Dial ==>
                  var free := callId == 0 && o.callId == 0;
                  var formed := Address(loc, destination).Ok();
                  var registered := verified && o.sip == Registered;
                  && (reason == StaleCallId <==> !free)
                  && (reason == InvalidDestination <==> free && !formed)
                  && (reason == UnverifiedSession <==> free && formed && !registered)
                  && (reason == EngineUnavailable <==> free && formed && registered && !usable)
                  && (reason == EngineStateMismatch <==>
                        free && formed && registered && usable && selected.engine.value != Registered))
  {
    EmptyIsRefused(loc);
    hide Address;
  }

  // --- What is answered instead ----------------------------------------------

  predicate SameSight(e: Executor, live: Observation) {
    live.sip == e.pendingSight.status && live.callId == e.pendingSight.callId && live.lastCallId == e.pendingSight.lastCallId
  }

  // A well-formed request of the executor's own verified session, that makes no
  // call: why, in this order, and whether the session is fenced from then on.
  lemma OwnRequestsAreAnswered(loc: Locale, e: Executor, r: Request, live: Observation, active: U64,
                               selected: EngineSelection, now: U64, accepted: bool)
    requires ClockInv(e) && r.session == e.session == active != 0 && r.sequence != 0 && now != 0 && ProofIsCurrent(live, active)
    ensures var out := Dispatched(loc, e, r, live, active, selected, now, accepted);
            var waits := e.pending && SameSight(e, live);
            if e.fenced then out.d == Fenced && out.e == e
            else if now < e.lastNow then out.d == ClockRollback && out.e.fenced
            else if r.sequence <= e.lastSequence then out.d == DuplicateRequest && !out.e.fenced
            else if waits && now - e.pendingSince >= 10000 then out.d == CommandTimedOut && out.e.fenced
            else if waits then out.d == PendingTransition && !out.e.fenced
            else if !Fitting(loc, r, live, active, selected) then out.d == Denied && out.denial != Granted && !out.e.fenced
            else if !Unspent(e, r, live, now) then out.d == DuplicateCallAction && !out.e.fenced
            else out.d == (if accepted then Submitted else NativeRejected) && (out.e.fenced <==> !accepted)
  {
    GrantedExactlyWhen(loc, live, active, selected, r.action, r.callId, r.destination);
    if e.pending && now >= e.lastNow {
      ElapsedNeverWraps(e, now);
    }
    hide Authorize, Address;
  }

  // Any other request: malformed, or stale; a lost session of its own is fenced.
  lemma OtherRequestsAreRefused(loc: Locale, e: Executor, r: Request, live: Observation, active: U64,
                                selected: EngineSelection, now: U64, accepted: bool)
    ensures var out := Dispatched(loc, e, r, live, active, selected, now, accepted);
            var formed := r.session != 0 && r.sequence != 0 && now != 0;
            && (out.d == InvalidRequest <==> !formed)
            && (formed && (r.session < e.session || (r.session != active || !ProofIsCurrent(live, active))) &&
                  !(r.session == e.session && e.fenced) ==>
                  out.d == StaleRequest && (out.e.fenced <==> e.fenced || r.session == e.session))
  {
    hide Authorize, Address, Overdue;
  }

  // What a check answers, and whether it fences the session.
  lemma ChecksAreAnswered(e: Executor, live: Observation, active: U64, now: U64)
    requires ClockInv(e)
    ensures var (after, d) := Watched(e, live, active, now);
            if e.fenced then d == Fenced && after == e
            else if !e.pending then d == IdleNow && after == e
            else if now == 0 || active != e.session || !ProofIsCurrent(live, e.session) then d == StaleRequest && after.fenced
            else if now < e.lastNow then d == ClockRollback && after.fenced
            else if !SameSight(e, live) then d == ProgressObserved && !after.fenced && !after.pending
            else if now - e.pendingSince >= 10000 then d == CommandTimedOut && after.fenced
            else d == PendingTransition && !after.fenced && after.pending
  {
    if e.pending && now >= e.lastNow && now != 0 {
      ElapsedNeverWraps(e, now);
    }
  }

  // --- How long a call is awaited --------------------------------------------

  // The accepted call a still awaits its effect.
  predicate Awaiting(e: Executor, a: ExecutorOp)
    requires a.Command?
  {
    && e.session == a.r.session && e.session != 0 && !e.fenced
    && e.pending && e.pendingSince == a.now && e.pendingSight == Seen(a.live) && a.now <= e.lastNow
  }

  // The session is still verified and looks as it did when the call was made.
  predicate Uneventful(op: ExecutorOp, a: ExecutorOp)
    requires a.Command?
  {
    && op.active == a.r.session && ProofIsCurrent(op.live, op.active) && Seen(op.live) == Seen(a.live)
    && (op.Command? ==> op.r.session == a.r.session && op.r.sequence != 0)
  }

  lemma CallIsAwaited(loc: Locale, e: Executor, a: ExecutorOp)
    requires a.Command? && a.accepted && Sends(loc, e, a)
    ensures Awaiting(StepOn(loc, e, a), a) && StepOn(loc, e, a).lastNow == a.now != 0
  {
    hide Authorize, Overdue;
  }

  lemma AwaitsOn(loc: Locale, e: Executor, op: ExecutorOp, a: ExecutorOp)
    requires ClockInv(e) && a.Command? && Awaiting(e, a) && Uneventful(op, a) && e.lastNow <= op.now
    ensures op.now < a.now + 10000 ==>
              Awaiting(StepOn(loc, e, op), a) && StepOn(loc, e, op).lastNow == op.now && !Sends(loc, e, op)
    ensures op.Watch? ==>
              Returned(loc, e, op) == (if op.now < a.now + 10000 then PendingTransition else CommandTimedOut) &&
              (StepOn(loc, e, op).fenced <==> op.now >= a.now + 10000)
  {
    ElapsedNeverWraps(e, op.now);
    hide Authorize;
  }

  // From the call on, nothing happens, and the clock does not run back.
  predicate NothingHappens(ops: seq<ExecutorOp>, i: nat, j: nat)
    requires i < j <= |ops| && ops[i].Command?
  {
    forall k :: i < k < j ==> Uneventful(ops[k], ops[i]) && ops[k - 1].now <= ops[k].now
  }

  lemma {:induction false} StillAwaiting(loc: Locale, e: Executor, ops: seq<ExecutorOp>, i: nat, j: nat)
    requires ClockInv(e) && i < j <= |ops| && ops[i].Command? && ops[i].accepted && Sends(loc, Before(loc, e, ops, i), ops[i])
    requires NothingHappens(ops, i, j) && forall k :: i < k < j ==> ops[k].now < ops[i].now + 10000
    ensures Awaiting(Before(loc, e, ops, j), ops[i]) && Before(loc, e, ops, j).lastNow == ops[j - 1].now
    decreases j
  {
    hide Awaiting, ClockInv, StepOn, Before, Sends, Uneventful;
    BeforeNext(loc, e, ops, j - 1);
    if i + 1 == j {
      CallIsAwaited(loc, Before(loc, e, ops, i), ops[i]);
    } else {
      StillAwaiting(loc, e, ops, i, j - 1);
      AlwaysClocked(loc, e, ops, j - 1);
      AwaitsOn(loc, Before(loc, e, ops, j - 1), ops[j - 1], ops[i]);
    }
  }

  // After an accepted call that nothing follows, every check within ten seconds
  // finds it pending, and the first one after that reports it timed out and
  // fences the session.
  lemma UnansweredCallTimesOut(loc: Locale, ops: seq<ExecutorOp>, i: nat, j: nat)
    requires i < j < |ops| && ops[i].Command? && ops[i].accepted && Sends(loc, Before(loc, NewSession(0), ops, i), ops[i])
    requires NothingHappens(ops, i, j + 1) && ops[j].Watch?
    requires forall k :: i < k < j ==> ops[k].now < ops[i].now + 10000
    ensures var before := Before(loc, NewSession(0), ops, j);
            && Returned(loc, before, ops[j]) ==
               (if ops[j].now < ops[i].now + 10000 then PendingTransition else CommandTimedOut)
            && (Before(loc, NewSession(0), ops, j + 1).fenced <==> ops[j].now >= ops[i].now + 10000)
  {
    hide Awaiting, ClockInv, StepOn, Before, Sends, Uneventful, Returned;
    FreshIsClocked();
    StillAwaiting(loc, NewSession(0), ops, i, j);
    AlwaysClocked(loc, NewSession(0), ops, j);
    BeforeNext(loc, NewSession(0), ops, j);
    assert Uneventful(ops[j], ops[i]) && ops[j - 1].now <= ops[j].now;
    AwaitsOn(loc, Before(loc, NewSession(0), ops, j), ops[j], ops[i]);
  }

  // --- Request numbers -------------------------------------------------------

  // The request got as far as its number: it was judged, or it was sent.
  predicate Judged(d: Disposition) {
    d == Denied || d == DuplicateCallAction || d == PendingTransition || d == Submitted || d == NativeRejected || d == CommandTimedOut
  }

  // Numbers up to this one are spent in this session, or the session is over.
  predicate SpentUpTo(e: Executor, session: U64, sequence: U64) {
    e.session > session || (e.session == session && e.lastSequence >= sequence)
  }

  lemma JudgedIsSpent(loc: Locale, e: Executor, op: ExecutorOp)
    requires op.Command? && Judged(Returned(loc, e, op))
    ensures SpentUpTo(StepOn(loc, e, op), op.r.session, op.r.sequence) && op.r.session != 0
  {
    hide Authorize, Overdue;
  }

  lemma StaysSpent(loc: Locale, e: Executor, op: ExecutorOp, session: U64, sequence: U64)
    requires SpentUpTo(e, session, sequence) && session != 0
    ensures SpentUpTo(StepOn(loc, e, op), session, sequence)
    ensures Sends(loc, e, op) ==> op.r.session > session || (op.r.session == session && op.r.sequence > sequence)
  {
    hide Authorize, Overdue;
  }

  lemma {:induction false} SpentFromThenOn(loc: Locale, ops: seq<ExecutorOp>, i: nat, j: nat)
    requires i < j <= |ops| && ops[i].Command? && Judged(Returned(loc, Before(loc, NewSession(0), ops, i), ops[i]))
    ensures SpentUpTo(Before(loc, NewSession(0), ops, j), ops[i].r.session, ops[i].r.sequence) && ops[i].r.session != 0
    decreases j
  {
    hide SpentUpTo, StepOn, Before, Sends, Returned, Judged;
    BeforeNext(loc, NewSession(0), ops, j - 1);
    JudgedIsSpent(loc, Before(loc, NewSession(0), ops, i), ops[i]);
    if i + 1 < j {
      SpentFromThenOn(loc, ops, i, j - 1);
      StaysSpent(loc, Before(loc, NewSession(0), ops, j - 1), ops[j - 1], ops[i].r.session, ops[i].r.sequence);
    }
  }

  // A request that was judged, even if it was denied, uses up its number: every
  // native call after it is of a larger number or a larger session.
  lemma NumbersAreUsedOnce(loc: Locale, ops: seq<ExecutorOp>, i: nat, j: nat)
    requires i < j < |ops| && ops[i].Command? && Judged(Returned(loc, Before(loc, NewSession(0), ops, i), ops[i]))
    requires Sends(loc, Before(loc, NewSession(0), ops, j), ops[j])
    ensures ops[j].r.session > ops[i].r.session ||
            (ops[j].r.session == ops[i].r.session && ops[j].r.sequence > ops[i].r.sequence)
  {
    hide SpentUpTo, StepOn, Before, Sends, Returned, Judged;
    SendsIsCommand(loc, Before(loc, NewSession(0), ops, j), ops[j]);
    SpentFromThenOn(loc, ops, i, j);
    StaysSpent(loc, Before(loc, NewSession(0), ops, j), ops[j], ops[i].r.session, ops[i].r.sequence);
  }
}
