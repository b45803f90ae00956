// Submitting one account to the native side, its deadline, and stopping it.
// Everything here belongs to the thread of the native event loop.
module RegistrationGateway {
  import opened Common
  import opened CallbackLifecycle
  import opened EventAdapter

  // --- The deadline ----------------------------------------------------------

  datatype Verdict = Unarmed | Pending | CallbackConfirmed | Expired | ClockRegressed | SessionRevoked | WrongThread

  datatype Deadline = Deadline(armed: bool, session: U64, started: U64, wait: U64)

  const NO_DEADLINE := Deadline(false, 0, 0, 0)

  predicate CanArm(d: Deadline, session: U64, wait: U64) { session != 0 && wait != 0 && !d.armed }

  function Armed(d: Deadline, session: U64, now: U64, wait: U64): Deadline {
    if CanArm(d, session, wait) then Deadline(true, session, now, wait) else d
  }

  function Check(d: Deadline, session: U64, now: U64, confirmed: bool): Verdict {
    if !d.armed then Unarmed
    else if session != d.session || session == 0 then SessionRevoked
    else if now < d.started then ClockRegressed
    else if Sub64(now, d.started) >= d.wait then Expired
    else if confirmed then CallbackConfirmed
    else Pending
  }

  class DeadlineObject {
    var armed: bool
    var session: U64
    var started: U64
    var wait: U64

    ghost function State(): Deadline
      reads this
    {
      Deadline(armed, session, started, wait)
    }

    constructor ()
      ensures State() == NO_DEADLINE
    {
      armed, session, started, wait := false, 0, 0, 0;
    }

    method Arm(forSession: U64, now: U64, maxWait: U64) returns (ok: bool)
      modifies this
      ensures State() == Armed(old(State()), forSession, now, maxWait) && ok == CanArm(old(State()), forSession, maxWait)
    {
      if forSession == 0 || maxWait == 0 || armed { return false; }
      session, started, wait, armed := forSession, now, maxWait, true;
      return true;
    }

    method Clear()
      modifies this
      ensures State() == NO_DEADLINE
    {
      armed, session, started, wait := false, 0, 0, 0;
    }
  }

  // An armed deadline of a live session expires after exactly its wait, however
  // close to the end of the clock it was armed; no sum can overflow.
  lemma ExpiresExactlyAfterWait(session: U64, armedAt: U64, wait: U64, now: U64, confirmed: bool)
    requires session != 0 && wait != 0
    ensures var v := Check(Armed(NO_DEADLINE, session, armedAt, wait), session, now, confirmed);
            && (v == ClockRegressed <==> now < armedAt)
            && (v == Expired <==> now >= armedAt + wait)
            && (v == CallbackConfirmed <==> armedAt <= now < armedAt + wait && confirmed)
            && (v == Pending <==> armedAt <= now < armedAt + wait && !confirmed)
  {
  }

  // --- The bridge ------------------------------------------------------------

  // What the gateway can tell about the SDK event adapter: whether its epoch is
  // live, under which session, and whether that registration was confirmed.
  datatype Bridge = Bridge(active: bool, session: U64, confirmed: bool, issued: U64) {
    function Session(): U64 { if active then session else 0 }
  }

  const IDLE_BRIDGE := Bridge(false, 0, false, 0)

  function BridgeStarted(b: Bridge): Bridge
    requires b.issued < MAX64
  {
    Bridge(true, b.issued + 1, false, b.issued + 1)
  }

  function BridgeStopped(b: Bridge): Bridge { Bridge(false, 0, false, b.issued) }

  // SDK callbacks can end the epoch at any time, or say it is registered or not.
  datatype BridgeMove = EpochRevoked | Confirm(confirmed: bool)

  function BridgeMoved(b: Bridge, m: BridgeMove): Bridge {
    match m
    case EpochRevoked => b.(active := false)
    case Confirm(c) => b.(confirmed := c)
  }

  // The adapter as the gateway sees it; up is what the SDK says of its agent.
  function BridgeOf(a: Adapter, up: bool): Bridge
    requires |a.contexts| <= MAX_CONTEXTS
  {
    Bridge(Active(a), a.captured.session, a.sipRegistered && a.owner != 0 && up, |a.contexts|)
  }

  // The adapter is such a bridge: a start makes it live under a session never
  // used before, a stop ends it, and no event brings a dead epoch back.
  lemma AdapterIsABridge(a: Adapter, ua: Pointer, cb: Captured, e: SdkEvent, up: bool, upLater: bool)
    requires Agree(a) && cb in a.contexts
    ensures var r := Started(a, ua, true, false);
            r.1 ==> |r.0.contexts| <= MAX_CONTEXTS && BridgeOf(r.0, upLater) == BridgeStarted(BridgeOf(a, up))
    ensures BridgeOf(StoppedAdapter(a), upLater) == BridgeStopped(BridgeOf(a, up))
    ensures var b := CalledBack(a, cb, e);
            && |b.contexts| <= MAX_CONTEXTS && BridgeOf(b, upLater).issued == BridgeOf(a, up).issued
            && (BridgeOf(b, upLater).active ==>
                  BridgeOf(a, up).active && BridgeOf(b, upLater).session == BridgeOf(a, up).session)
  {
    StartKeepsAgree(a, ua, true, false);
    AliveAsBefore(a, cb, e);
    hide CalledBack;
  }

  lemma AliveAsBefore(a: Adapter, cb: Captured, e: SdkEvent)
    ensures Active(CalledBack(a, cb, e)) ==> Active(a) && CalledBack(a, cb, e).captured == a.captured
    ensures CalledBack(a, cb, e).contexts == a.contexts
  {
    hide IsLive, PublishedRegistration, PublishedStart, PublishedChange, Rejected, MayOpen;
  }

  // --- The gateway: specification --------------------------------------------

  datatype Submission =
    | InvalidAccount | BridgeUnavailable | SubmissionRejected
    | SubmittedNow | AlreadySubmitted | NativeSessionRevoked | WrongEventLoopThread

  datatype Gateway = Gateway(thread: nat, owner: Pointer, deadline: Deadline, bridge: Bridge)

  // The part before the SDK's register call. None means that call is running,
  // and events may arrive. started is what starting the bridge answers.
  function SubmitBegun(g: Gateway, caller: nat, selected: Pointer, started: bool): (Gateway, Option<Submission>) {
    if caller != g.thread then (g, Some(WrongEventLoopThread))
    else if g.owner != 0 then (g, Some(if g.bridge.active then AlreadySubmitted else NativeSessionRevoked))
    else if selected == 0 then (g, Some(InvalidAccount))
    else if !started || g.bridge.issued == MAX64 then (g, Some(BridgeUnavailable))
    else (g.(bridge := BridgeStarted(g.bridge)), None)
  }

  // The part after it. error is what the register call answers.
  function SubmitEnded(g: Gateway, selected: Pointer, error: bool): (Gateway, Submission) {
    if error then (g.(bridge := BridgeStopped(g.bridge)), SubmissionRejected)
    else if !g.bridge.active then (g.(bridge := BridgeStopped(g.bridge)), NativeSessionRevoked)
    else (g.(owner := selected, deadline := NO_DEADLINE), SubmittedNow)
  }

  predicate IsSubmitted(g: Gateway, caller: nat) { caller == g.thread && g.owner != 0 && g.bridge.active }

  predicate CanArmGateway(g: Gateway, caller: nat, wait: U64) {
    IsSubmitted(g, caller) && CanArm(g.deadline, g.bridge.session, wait)
  }

  function GatewayArmed(g: Gateway, caller: nat, now: U64, wait: U64): Gateway {
    if CanArmGateway(g, caller, wait) then g.(deadline := Armed(g.deadline, g.bridge.session, now, wait)) else g
  }

  function GatewayStopped(g: Gateway, caller: nat): Gateway {
    if caller != g.thread then g else g.(owner := 0, deadline := NO_DEADLINE, bridge := BridgeStopped(g.bridge))
  }

  function PollVerdict(g: Gateway, caller: nat, now: U64): Verdict {
    if caller != g.thread then WrongThread
    else Check(g.deadline, g.bridge.Session(), now, g.bridge.active && g.bridge.confirmed)
  }

  predicate Fatal(v: Verdict) { v == Expired || v == ClockRegressed || v == SessionRevoked }

  function GatewayPolled(g: Gateway, caller: nat, now: U64): Gateway {
    var v := PollVerdict(g, caller, now);
    if v == CallbackConfirmed then g.(deadline := NO_DEADLINE)
    else if Fatal(v) then GatewayStopped(g, caller)
    else g
  }

  // --- The code --------------------------------------------------------------

  class BridgeObject {
    var active: bool
    var session: U64
    var confirmed: bool
    var issued: U64

    ghost function State(): Bridge
      reads this
    {
      Bridge(active, session, confirmed, issued)
    }

    constructor ()
      ensures State() == IDLE_BRIDGE
    {
      active, session, confirmed, issued := false, 0, false, 0;
    }

    method Start(answer: bool) returns (ok: bool)
      modifies this
      ensures ok == (answer && old(issued) != MAX64)
      ensures State() == if ok then BridgeStarted(old(State())) else old(State())
    {
      if !answer || issued == MAX64 { return false; }
      issued := issued + 1;
      active, session, confirmed := true, issued, false;
      return true;
    }

    method Stop()
      modifies this
      ensures State() == BridgeStopped(old(State()))
    {
      active, session, confirmed := false, 0, false;
    }

    method Move(m: BridgeMove)
      modifies this
      ensures State() == BridgeMoved(old(State()), m)
    {
      match m {
        case EpochRevoked => active := false;
        case Confirm(c) => confirmed := c;
      }
    }
  }

  class GatewayObject {
    const bridge: BridgeObject
    const deadline: DeadlineObject
    const thread: nat
    var owner: Pointer

    ghost const Repr: set<object> := {this, bridge, deadline}

    ghost function State(): Gateway
      reads Repr
    {
      Gateway(thread, owner, deadline.State(), bridge.State())
    }

    constructor (bridge: BridgeObject, thread: nat)
      ensures this.bridge == bridge && fresh(deadline)
      ensures State() == Gateway(thread, 0, NO_DEADLINE, bridge.State())
    {
      this.bridge, this.thread := bridge, thread;
      deadline := new DeadlineObject();
      owner := 0;
    }

    method BeginSubmit(caller: nat, selected: Pointer, answer: bool) returns (r: Option<Submission>)
      modifies Repr
      ensures (State(), r) == SubmitBegun(old(State()), caller, selected, answer)
    {
      if caller != thread { return Some(WrongEventLoopThread); }
      if owner != 0 { return Some(if bridge.active then AlreadySubmitted else NativeSessionRevoked); }
      if selected == 0 { return Some(InvalidAccount); }
      var ok := bridge.Start(answer);
      if !ok { return Some(BridgeUnavailable); }
      return None;
    }

    method EndSubmit(selected: Pointer, error: bool) returns (r: Submission)
      modifies Repr
      ensures (State(), r) == SubmitEnded(old(State()), selected, error)
    {
      if error {
        bridge.Stop();
        return SubmissionRejected;
      }
      if !bridge.active {
        bridge.Stop();
        return NativeSessionRevoked;
      }
      owner := selected;
      deadline.Clear();
      return SubmittedNow;
    }

    method ArmRegistrationDeadline(caller: nat, now: U64, wait: U64) returns (ok: bool)
      modifies Repr
      ensures State() == GatewayArmed(old(State()), caller, now, wait) && ok == CanArmGateway(old(State()), caller, wait)
    {
      if caller != thread || owner == 0 || !bridge.active { return false; }
      ok := deadline.Arm(bridge.session, now, wait);
    }

    method Stop(caller: nat) returns (ok: bool)
      modifies Repr
      ensures State() == GatewayStopped(old(State()), caller) && ok == (caller == thread)
    {
      if caller != thread { return false; }
      deadline.Clear();
      owner := 0;
      bridge.Stop();
      return true;
    }

    method PollRegistrationDeadline(caller: nat, now: U64) returns (v: Verdict)
      modifies Repr
      ensures v == PollVerdict(old(State()), caller, now) && State() == GatewayPolled(old(State()), caller, now)
    {
      if caller != thread { return WrongThread; }
      v := Check(Deadline(deadline.armed, deadline.session, deadline.started, deadline.wait),
                 if bridge.active then bridge.session else 0, now, bridge.active && bridge.confirmed);
      match v {
        case CallbackConfirmed => deadline.Clear();
        case Expired | ClockRegressed | SessionRevoked =>
          var _ := Stop(caller);
        case Unarmed | Pending | WrongThread =>
      }
    }
  }
}
