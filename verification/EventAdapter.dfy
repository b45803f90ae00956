// From SDK events of one user agent to the tokens of the ingress: at most one
// call at a time, no call pointer twice, and closed for good on any surprise.
module EventAdapter {
  import opened Common
  import opened SipRuntime
  import opened EventReducer
  import opened EventMailbox
  import opened CallbackIngress
  import opened CallbackLifecycle

  const MAX_CONTEXTS: nat := 512
  const MAX_CALLS: nat := 4096

  // Pointers of the SDK; 0 is null.
  type Pointer = U64

  datatype SdkKind =
    | SdkExit | SdkRegistering | SdkRegisterOk | SdkRegisterFail | SdkUnregistering | SdkShutdown | SdkAudioError
    | SdkIncoming | SdkOutgoing | SdkEstablished | SdkClosed | SdkTransferFailed | SdkOther

  // An event as its callback sees it: whether there is an event object, the
  // user agent and call it names, and what the two questions whether that agent
  // is registered answer while the event is handled.
  datatype SdkEvent = SdkEvent(kind: SdkKind, present: bool, ua: Pointer, call: Pointer, up: bool, stillUp: bool)

  datatype CallFlags = CallFlags(incoming: bool, established: bool, hangupSent: bool, answerSent: bool,
                                 transferAttempted: bool, transferFailed: bool)

  const NO_FLAGS := CallFlags(false, false, false, false, false, false)

  datatype Adapter = Adapter(
    registered: bool, owner: Pointer, captured: Captured,
    nativeKey: U64, activeCall: Pointer, activeToken: U64,
    sipRegistered: bool, flags: CallFlags, seen: set<Pointer>, contexts: seq<Captured>,
    l: Lifecycle)

  const NEW_ADAPTER := Adapter(false, 0, NOBODY, 0, 0, 0, false, NO_FLAGS, {}, [], NEW_LIFECYCLE)

  // --- Specification ---------------------------------------------------------

  predicate Active(a: Adapter) {
    a.registered && a.captured.Real() && IsLive(a.l, a.captured)
  }

  predicate SameEpoch(a: Adapter, cb: Captured) {
    cb.generation == a.captured.generation && cb.session == a.captured.session
  }

  function FailedClosed(a: Adapter): Adapter {
    a.(l := Rejected(a.l), captured := NOBODY, activeCall := 0, activeToken := 0, sipRegistered := false, flags := NO_FLAGS)
  }

  function RegistrationSeen(a: Adapter, cb: Captured, kind: EventKind): Adapter {
    var r := PublishedRegistration(a.l, cb, kind);
    if r.1 then a.(l := r.0, sipRegistered := kind == RegisterOk) else FailedClosed(a.(l := r.0))
  }

  // The adapter's own conditions for a new call.
  predicate MayOpen(a: Adapter, e: SdkEvent) {
    && Active(a) && a.sipRegistered && a.owner != 0 && e.up && e.stillUp
    && e.call != 0 && a.activeCall == 0 && e.call !in a.seen && |a.seen| < MAX_CALLS && a.nativeKey != MAX64
  }

  function CallOpened(a: Adapter, cb: Captured, e: SdkEvent): Adapter {
    if !MayOpen(a, e) then FailedClosed(a)
    else
      var r := PublishedStart(a.l, cb, a.nativeKey + 1, if e.kind == SdkIncoming then CallIncoming else CallOutgoing);
      if !r.1 || r.0.ingress.activeToken == 0 then FailedClosed(a.(l := r.0))
      else
        a.(l := r.0, nativeKey := a.nativeKey + 1, activeCall := e.call, activeToken := r.0.ingress.activeToken,
           flags := NO_FLAGS.(incoming := e.kind == SdkIncoming), seen := a.seen + {e.call})
  }

  function CallMoved(a: Adapter, cb: Captured, e: SdkEvent): Adapter {
    if e.call == 0 || e.call != a.activeCall then FailedClosed(a)
    else
      var r := PublishedChange(a.l, cb, a.nativeKey, if e.kind == SdkEstablished then CallEstablished else CallClosed);
      if !r.1 then FailedClosed(a.(l := r.0))
      else if e.kind == SdkClosed then a.(l := r.0, activeCall := 0, activeToken := 0, flags := NO_FLAGS)
      else a.(l := r.0, flags := a.flags.(established := true))
  }

  function OwnEvent(a: Adapter, cb: Captured, e: SdkEvent): Adapter {
    match e.kind
    case SdkShutdown | SdkAudioError => FailedClosed(a)
    case SdkRegistering =>
      if a.activeCall == 0 then RegistrationSeen(a, cb, RegisterStarted)
      else if a.sipRegistered && e.up then a else FailedClosed(a)
    case SdkRegisterOk =>
      if !e.up then FailedClosed(a)
      else if a.activeCall != 0 && a.sipRegistered then a
      else RegistrationSeen(a, cb, RegisterOk)
    case SdkRegisterFail => RegistrationSeen(a, cb, RegisterFail)
    case SdkUnregistering => RegistrationSeen(a, cb, EventKind.Unregistering)
    case SdkTransferFailed =>
      if a.flags.transferAttempted && a.activeCall != 0 && e.call == a.activeCall
      then a.(flags := a.flags.(transferFailed := true)) else a
    case SdkIncoming | SdkOutgoing => CallOpened(a, cb, e)
    case SdkEstablished | SdkClosed => CallMoved(a, cb, e)
    case SdkExit | SdkOther => a
  }

  function Handled(a: Adapter, cb: Captured, e: SdkEvent): Adapter {
    if !SameEpoch(a, cb) || !Active(a) then a
    else if e.kind == SdkExit then FailedClosed(a)
    else if e.kind == SdkOther || !e.present || e.ua != a.owner then a
    else OwnEvent(a, cb, e)
  }

  // The lease a callback holds while it runs changes nothing else.
  function Leased(a: Adapter): Adapter {
    a.(l := a.l.(fence := a.l.fence.(inFlight := a.l.fence.inFlight + 1)))
  }

  lemma FailUnderLease(a: Adapter)
    ensures FailedClosed(Leased(a)) == Leased(FailedClosed(a))
  {
  }

  lemma RegistrationUnderLease(a: Adapter, cb: Captured, kind: EventKind)
    ensures RegistrationSeen(Leased(a), cb, kind) == Leased(RegistrationSeen(a, cb, kind))
  {
    hide Registration, Revoked;
  }

  lemma OpenUnderLease(a: Adapter, cb: Captured, e: SdkEvent)
    ensures CallOpened(Leased(a), cb, e) == Leased(CallOpened(a, cb, e))
  {
    hide CallStarted, Revoked;
  }

  lemma MoveUnderLease(a: Adapter, cb: Captured, e: SdkEvent)
    ensures CallMoved(Leased(a), cb, e) == Leased(CallMoved(a, cb, e))
  {
    hide CallChanged, Revoked;
  }

  lemma {:induction false} HandledUnderLease(a: Adapter, cb: Captured, e: SdkEvent)
    ensures Handled(Leased(a), cb, e) == Leased(Handled(a, cb, e))
  {
    FailUnderLease(a);
    RegistrationUnderLease(a, cb, RegisterStarted);
    RegistrationUnderLease(a, cb, RegisterOk);
    RegistrationUnderLease(a, cb, RegisterFail);
    RegistrationUnderLease(a, cb, EventKind.Unregistering);
    OpenUnderLease(a, cb, e);
    MoveUnderLease(a, cb, e);
    hide FailedClosed, RegistrationSeen, CallOpened, CallMoved;
  }

  // The static callback: nothing happens without a lease.
  function CalledBack(a: Adapter, cb: Captured, e: SdkEvent): Adapter {
    if IsLive(a.l, cb) then Handled(a, cb, e) else a
  }

  function Started(a: Adapter, ua: Pointer, free: bool, error: bool): (Adapter, bool) {
    if a.registered || ua == 0 || |a.contexts| >= MAX_CONTEXTS || !free then (a, false)
    else
      var r := Opened(a.l, ua);
      if !r.1.Real() then (a.(l := r.0), false)
      else
        var b := Adapter(true, ua, r.1, 0, 0, 0, false, NO_FLAGS, {}, a.contexts + [r.1], r.0);
        if error then (b.(registered := false, owner := 0, captured := NOBODY, l := RevokedQuiet(b.l)), false)
        else (b, true)
  }

  function StoppedAdapter(a: Adapter): Adapter {
    Adapter(false, 0, NOBODY, 0, 0, 0, false, NO_FLAGS, {}, a.contexts, RevokedQuiet(a.l))
  }

  // --- The code --------------------------------------------------------------

  class AdapterObject {
    const lifecycle: LifecycleObject
    var registered: bool
    var owner: Pointer
    var captured: Captured
    var nativeKey: U64
    var activeCall: Pointer
    var activeToken: U64
    var sipRegistered: bool
    var flags: CallFlags
    var seen: set<Pointer>
    var contexts: seq<Captured>

    ghost predicate Valid()
      reads this, lifecycle.Repr
    {
      this !in lifecycle.Repr && lifecycle.Valid()
    }

    ghost function State(): Adapter
      requires Valid()
      reads this, lifecycle.Repr
    {
      Adapter(registered, owner, captured, nativeKey, activeCall, activeToken, sipRegistered, flags, seen, contexts,
              lifecycle.State())
    }

    constructor (lifecycle: LifecycleObject)
      requires lifecycle.Valid()
      ensures Valid() && this.lifecycle == lifecycle
      ensures State() == NEW_ADAPTER.(l := lifecycle.State())
    {
      this.lifecycle := lifecycle;
      registered, owner, captured := false, 0, NOBODY;
      nativeKey, activeCall, activeToken, sipRegistered, flags, seen, contexts := 0, 0, 0, false, NO_FLAGS, {}, [];
    }

    // The fields of an epoch that has seen nothing yet.
    method Reset(nowRegistered: bool, ua: Pointer, session: Captured, nowContexts: seq<Captured>)
      requires Valid()
      modifies this
      ensures Valid()
      ensures State() == Adapter(nowRegistered, ua, session, 0, 0, 0, false, NO_FLAGS, {}, nowContexts, old(lifecycle.State()))
    {
      registered, owner, captured, contexts := nowRegistered, ua, session, nowContexts;
      nativeKey, activeCall, activeToken, sipRegistered, flags, seen := 0, 0, 0, false, NO_FLAGS, {};
    }

    // free: no adapter owns the process-wide event handler. error: what the
    // SDK's event registration answers.
    method Start(ua: Pointer, free: bool, error: bool) returns (ok: bool)
      requires Valid()
      modifies this, lifecycle.Repr
      ensures Valid() && (State(), ok) == Started(old(State()), ua, free, error)
    {
      hide Opened, RevokedQuiet, CanOpen;
      if registered || ua == 0 || |contexts| >= MAX_CONTEXTS { return false; }
      if !free { return false; }
      var session := lifecycle.Begin(ua);
      if !session.Real() { return false; }
      Reset(true, ua, session, contexts + [session]);
      if error {
        lifecycle.RevokeAndWait();
        Reset(false, 0, NOBODY, contexts);
        return false;
      }
      return true;
    }

    method Stop()
      requires Valid()
      modifies this, lifecycle.Repr
      ensures Valid() && State() == StoppedAdapter(old(State()))
    {
      hide RevokedQuiet;
      lifecycle.RevokeAndWait();
      Reset(false, 0, NOBODY, contexts);
    }

    method IsActive() returns (active: bool)
      requires Valid()
      modifies lifecycle.Repr
      ensures Valid() && State() == old(State()) && active == Active(State())
    {
      if !registered || !captured.Real() { return false; }
      active := lifecycle.Probe(captured);
    }

    method NativeRegisterOkSeen(up: bool) returns (seenOk: bool)
      requires Valid()
      modifies lifecycle.Repr
      ensures Valid() && State() == old(State())
      ensures seenOk == (Active(State()) && sipRegistered && owner != 0 && up)
    {
      var active := IsActive();
      return active && sipRegistered && owner != 0 && up;
    }

    method FailClosed()
      requires Valid()
      modifies this, lifecycle.Repr
      ensures Valid() && State() == FailedClosed(old(State()))
    {
      lifecycle.RejectCurrent();
      captured := NOBODY;
      activeCall, activeToken, sipRegistered, flags := 0, 0, false, NO_FLAGS;
    }

    method PublishOrFail(cb: Captured, kind: EventKind)
      requires Valid()
      modifies this, lifecycle.Repr
      ensures Valid() && State() == RegistrationSeen(old(State()), cb, kind)
    {
      var ok := lifecycle.PublishRegistration(cb, kind);
      if !ok { FailClosed(); } else { sipRegistered := kind == RegisterOk; }
    }

    method OpenCall(cb: Captured, e: SdkEvent)
      requires Valid()
      modifies this, lifecycle.Repr
      ensures Valid() && State() == CallOpened(old(State()), cb, e)
    {
      hide IsLive, PublishedStart, Rejected;
      var seenOk := NativeRegisterOkSeen(e.up);
      if !seenOk { FailClosed(); return; }
      if !e.stillUp { FailClosed(); return; }
      if e.call == 0 || activeCall != 0 || e.call in seen || |seen| >= MAX_CALLS || nativeKey == MAX64 {
        FailClosed();
        return;
      }
      var newKey := nativeKey + 1;
      var ok, minted := lifecycle.PublishStart(cb, newKey, if e.kind == SdkIncoming then CallIncoming else CallOutgoing);
      if !ok || minted == 0 { FailClosed(); return; }
      Track(e, minted);
    }

    method Track(e: SdkEvent, minted: U64)
      requires Valid() && nativeKey != MAX64
      modifies this
      ensures Valid()
      ensures var a := old(State());
              State() == a.(nativeKey := a.nativeKey + 1, activeCall := e.call, activeToken := minted,
                            flags := NO_FLAGS.(incoming := e.kind == SdkIncoming), seen := a.seen + {e.call})
    {
      nativeKey, activeCall, activeToken := nativeKey + 1, e.call, minted;
      flags := NO_FLAGS.(incoming := e.kind == SdkIncoming);
      seen := seen + {e.call};
    }

    method MoveCall(cb: Captured, e: SdkEvent)
      requires Valid()
      modifies this, lifecycle.Repr
      ensures Valid() && State() == CallMoved(old(State()), cb, e)
    {
      hide PublishedChange, Rejected;
      if e.call == 0 || e.call != activeCall { FailClosed(); return; }
      var ok := lifecycle.PublishChange(cb, nativeKey, if e.kind == SdkEstablished then CallEstablished else CallClosed);
      if !ok { FailClosed(); return; }
      if e.kind == SdkClosed {
        activeCall, activeToken, flags := 0, 0, NO_FLAGS;
      } else {
        flags := flags.(established := true);
      }
    }

    method OnEvent(cb: Captured, e: SdkEvent)
      requires Valid()
      modifies this, lifecycle.Repr
      ensures Valid() && State() == Handled(old(State()), cb, e)
    {
      hide IsLive, RegistrationSeen, CallOpened, CallMoved, FailedClosed;
      if cb.generation != captured.generation || cb.session != captured.session { return; }
      var active := IsActive();
      if !active { return; }
      if e.kind == SdkExit { FailClosed(); return; }
      if e.kind == SdkOther { return; }
      if !e.present || e.ua != owner { return; }
      match e.kind {
        case SdkExit | SdkOther =>
        case SdkShutdown | SdkAudioError => FailClosed();
        case SdkRegistering =>
          if activeCall != 0 {
            if !sipRegistered || !e.up { FailClosed(); }
            return;
          }
          PublishOrFail(cb, RegisterStarted);
        case SdkRegisterOk =>
          if !e.up { FailClosed(); return; }
          if activeCall != 0 && sipRegistered { return; }
          PublishOrFail(cb, RegisterOk);
        case SdkRegisterFail => PublishOrFail(cb, RegisterFail);
        case SdkUnregistering => PublishOrFail(cb, EventKind.Unregistering);
        case SdkTransferFailed =>
          if flags.transferAttempted && activeCall != 0 && e.call == activeCall {
            flags := flags.(transferFailed := true);
          }
        case SdkIncoming | SdkOutgoing => OpenCall(cb, e);
        case SdkEstablished | SdkClosed => MoveCall(cb, e);
      }
    }

    method Callback(cb: Captured, e: SdkEvent)
      requires Valid()
      modifies this, lifecycle.Repr
      ensures Valid() && State() == CalledBack(old(State()), cb, e)
    {
      hide IsLive, Handled;
      ghost var a := State();
      var lease := lifecycle.HoldNativeCallback(cb);
      if lease {
        assert State() == Leased(a);
        HandledUnderLease(a, cb, e);
        OnEvent(cb, e);
        lifecycle.fence.ReleaseOne();
      }
    }
  }

  // --- Adapter and ingress agree ---------------------------------------------

  // Nobody but the adapter uses the lifecycle and the ingress.
  predicate LiveAgree(a: Adapter) {
    var s, f := a.l.ingress, a.l.fence;
    && a.registered && a.l.current == a.captured
    && f.accepting && !f.closing && f.generation == a.captured.generation
    && s.session == a.captured.session && s.account == a.captured.account == a.owner
    && (a.activeCall != 0 <==> a.activeToken != 0)
    && a.activeToken == s.activeToken
    && a.nativeKey == s.lastKey == s.lastToken == |a.seen| <= MAX_CALLS
    && (a.activeCall != 0 ==> a.activeCall in a.seen)
    && (a.activeCall == 0 ==> a.flags == NO_FLAGS)
  }

  predicate DeadAgree(a: Adapter) {
    && a.captured == NOBODY && !a.l.fence.accepting && a.l.ingress.session == 0
    && a.activeCall == 0 && a.activeToken == 0 && a.flags == NO_FLAGS
    && (!a.registered ==> a.l.current == NOBODY && !a.l.fence.closing)
  }

  // Every epoch has its own context, numbered by its generation and session.
  predicate EpochsAgree(a: Adapter) {
    && |a.contexts| <= MAX_CONTEXTS
    && a.l.fence.generation == a.l.ingress.mailbox.generation == |a.contexts|
    && (forall i :: 0 <= i < |a.contexts| ==> a.contexts[i].generation == a.contexts[i].session == i + 1)
    && (a.captured.Real() ==> |a.contexts| > 0 && a.captured == a.contexts[|a.contexts| - 1])
  }

  predicate Agree(a: Adapter) {
    && IngressInv(a.l.ingress)
    && EpochsAgree(a)
    && a.l.fence.inFlight == 0
    && if a.captured.Real() then LiveAgree(a) else DeadAgree(a)
  }

  lemma FailKeeps(a: Adapter)
    requires IngressInv(a.l.ingress) && EpochsAgree(a) && a.l.fence.inFlight == 0 && a.registered
    ensures Agree(FailedClosed(a)) && !FailedClosed(a).captured.Real()
  {
  }

  predicate Room(a: Adapter) {
    |a.l.ingress.mailbox.queue| < MAILBOX_CAPACITY
  }

  // While the adapter is live, the ingress turns an event of the adapter away
  // only when the box is full.
  lemma OnlyOverflowRefuses(a: Adapter, e: SdkEvent, kind: EventKind)
    requires Agree(a) && a.captured.Real()
    ensures RegistrationKind(kind) ==> (PublishedRegistration(a.l, a.captured, kind).1 <==> Room(a))
    ensures Opens(kind) && MayOpen(a, e) ==> (PublishedStart(a.l, a.captured, a.nativeKey + 1, kind).1 <==> Room(a))
    ensures Continues(kind) && e.call != 0 && e.call == a.activeCall ==>
              (PublishedChange(a.l, a.captured, a.nativeKey, kind).1 <==> Room(a))
  {
  }

  lemma RegistrationKeeps(a: Adapter, kind: EventKind)
    requires Agree(a) && a.captured.Real() && RegistrationKind(kind) && kind != TransportLost
    ensures Agree(RegistrationSeen(a, a.captured, kind))
  {
    var r := PublishedRegistration(a.l, a.captured, kind);
    if !r.1 {
      FailKeeps(a.(l := r.0));
    }
  }

  lemma OpenKeeps(a: Adapter, e: SdkEvent)
    requires Agree(a) && a.captured.Real()
    ensures Agree(CallOpened(a, a.captured, e))
  {
    var r := PublishedStart(a.l, a.captured, a.nativeKey + 1, if e.kind == SdkIncoming then CallIncoming else CallOutgoing);
    if !MayOpen(a, e) {
      FailKeeps(a);
    } else if !r.1 || r.0.ingress.activeToken == 0 {
      FailKeeps(a.(l := r.0));
    }
  }

  lemma MoveKeeps(a: Adapter, e: SdkEvent)
    requires Agree(a) && a.captured.Real() && (e.kind == SdkEstablished || e.kind == SdkClosed)
    ensures Agree(CallMoved(a, a.captured, e))
  {
    var r := PublishedChange(a.l, a.captured, a.nativeKey, if e.kind == SdkEstablished then CallEstablished else CallClosed);
    if e.call == 0 || e.call != a.activeCall {
      FailKeeps(a);
    } else if !r.1 {
      FailKeeps(a.(l := r.0));
    }
  }

  // Only the live epoch's own context can match the adapter's.
  lemma EpochIsCaptured(a: Adapter, cb: Captured)
    requires Agree(a) && cb in a.contexts && SameEpoch(a, cb) && Active(a)
    ensures cb == a.captured && a.captured.Real() && a.registered
  {
    hide IngressInv, LiveAgree, DeadAgree, IsLive;
    var i :| 0 <= i < |a.contexts| && a.contexts[i] == cb;
    assert a.contexts[|a.contexts| - 1].generation == |a.contexts|;
  }

  lemma {:induction false} OwnEventKeepsAgree(a: Adapter, e: SdkEvent)
    requires Agree(a) && a.captured.Real()
    ensures Agree(OwnEvent(a, a.captured, e))
  {
    match e.kind
    case SdkShutdown | SdkAudioError => FailsClosed(a);
    case SdkRegistering => FailsClosed(a); RegistrationKeeps(a, RegisterStarted);
    case SdkRegisterOk => FailsClosed(a); RegistrationKeeps(a, RegisterOk);
    case SdkRegisterFail => RegistrationKeeps(a, RegisterFail);
    case SdkUnregistering => RegistrationKeeps(a, EventKind.Unregistering);
    case SdkTransferFailed => TransferFailureKeeps(a);
    case SdkIncoming | SdkOutgoing => OpenKeeps(a, e);
    case SdkEstablished | SdkClosed => MoveKeeps(a, e);
    case SdkExit | SdkOther =>
    hide Agree, FailedClosed, RegistrationSeen, CallOpened, CallMoved;
  }

  lemma FailsClosed(a: Adapter)
    requires Agree(a) && a.captured.Real()
    ensures Agree(FailedClosed(a))
  {
    FailKeeps(a);
  }

  lemma TransferFailureKeeps(a: Adapter)
    requires Agree(a)
    ensures a.activeCall != 0 ==> Agree(a.(flags := a.flags.(transferFailed := true)))
  {
  }

  lemma {:induction false} CallbackKeepsAgree(a: Adapter, cb: Captured, e: SdkEvent)
    requires Agree(a) && cb in a.contexts
    ensures Agree(CalledBack(a, cb, e))
  {
    hide Agree, IsLive, FailedClosed, OwnEvent;
    if SameEpoch(a, cb) && Active(a) {
      EpochIsCaptured(a, cb);
      FailsClosed(a);
      OwnEventKeepsAgree(a, e);
    }
  }

  // With the previous epoch stopped, a start fails for the caller's reasons or
  // not at all.
  lemma StartKeepsAgree(a: Adapter, ua: Pointer, free: bool, error: bool)
    requires Agree(a)
    ensures Agree(Started(a, ua, free, error).0)
    ensures Started(a, ua, free, error).1 <==>
            !a.registered && ua != 0 && |a.contexts| < MAX_CONTEXTS && free && !error
  {
  }

  lemma StopKeepsAgree(a: Adapter)
    requires Agree(a)
    ensures Agree(StoppedAdapter(a))
  {
  }

  // --- Runs ------------------------------------------------------------------

  datatype AdapterOp =
    | StartOp(ua: Pointer, free: bool, error: bool)
    | StopOp
    | EventOp(cb: Captured, e: SdkEvent)
    | TakeOp

  function Taken(a: Adapter): Adapter {
    a.(l := a.l.(ingress := a.l.ingress.(mailbox := Drained(a.l.ingress.mailbox))))
  }

  function AdapterStep(a: Adapter, op: AdapterOp): Adapter {
    match op
    case StartOp(ua, free, error) => Started(a, ua, free, error).0
    case StopOp => StoppedAdapter(a)
    case EventOp(cb, e) => CalledBack(a, cb, e)
    case TakeOp => Taken(a)
  }

  function AdapterRun(a: Adapter, ops: seq<AdapterOp>): Adapter
    decreases |ops|
  {
    if ops == [] then a else AdapterRun(AdapterStep(a, ops[0]), ops[1..])
  }

  // Callbacks hold what a start captured for them, however long ago.
  predicate Genuine(a: Adapter, ops: seq<AdapterOp>)
    decreases |ops|
  {
    ops == [] ||
    ((ops[0].EventOp? ==> ops[0].cb in a.contexts) && Genuine(AdapterStep(a, ops[0]), ops[1..]))
  }

  lemma {:induction false} StepKeepsAgree(a: Adapter, op: AdapterOp)
    requires Agree(a) && (op.EventOp? ==> op.cb in a.contexts)
    ensures Agree(AdapterStep(a, op))
  {
    match op
    case StartOp(ua, free, error) => StartKeepsAgree(a, ua, free, error);
    case StopOp => StopKeepsAgree(a);
    case EventOp(cb, e) => CallbackKeepsAgree(a, cb, e);
    case TakeOp => TakeKeepsAgree(a);
    hide Agree, AdapterStep;
  }

  lemma TakeKeepsAgree(a: Adapter)
    requires Agree(a)
    ensures Agree(Taken(a))
  {
  }

  // Whatever the SDK says, in whatever order, adapter and ingress hold the same
  // active call and have issued the same number of keys, tokens and pointers.
  lemma {:induction false} RunKeepsAgree(a: Adapter, ops: seq<AdapterOp>)
    requires Agree(a) && Genuine(a, ops)
    ensures Agree(AdapterRun(a, ops))
    decreases |ops|
  {
    hide Agree, AdapterStep;
    if ops != [] {
      StepKeepsAgree(a, ops[0]);
      RunKeepsAgree(AdapterStep(a, ops[0]), ops[1..]);
    }
  }

  lemma NewAdapterAgrees()
    ensures Agree(NEW_ADAPTER)
  {
  }

  // --- No call pointer twice -------------------------------------------------

  // The pointers admitted as new calls, in order.
  function CallsAdmitted(a: Adapter, ops: seq<AdapterOp>): seq<Pointer>
    decreases |ops|
  {
    if ops == [] then []
    else
      var next := AdapterStep(a, ops[0]);
      var later := CallsAdmitted(next, ops[1..]);
      if ops[0].EventOp? && next.nativeKey != a.nativeKey then [ops[0].e.call] + later else later
  }

  predicate OneEpoch(ops: seq<AdapterOp>) {
    forall i :: 0 <= i < |ops| ==> ops[i].EventOp? || ops[i].TakeOp?
  }

  lemma SeenGrows(a: Adapter, op: AdapterOp)
    requires op.EventOp? || op.TakeOp?
    ensures var b := AdapterStep(a, op);
            && a.seen <= b.seen
            && (b.nativeKey != a.nativeKey ==> op.EventOp? && op.e.call !in a.seen && op.e.call in b.seen)
  {
    hide IsLive, PublishedRegistration, PublishedStart, PublishedChange, Rejected;
  }

  // Within an epoch every admitted call has its own pointer: a pointer reused
  // by the SDK for a later call is never taken for that call.
  lemma {:induction false} NoPointerTwice(a: Adapter, ops: seq<AdapterOp>, i: nat, j: nat)
    requires OneEpoch(ops) && i < j < |CallsAdmitted(a, ops)|
    ensures CallsAdmitted(a, ops)[i] != CallsAdmitted(a, ops)[j]
    decreases |ops|
  {
    hide AdapterStep;
    var next := AdapterStep(a, ops[0]);
    SeenGrows(a, ops[0]);
    if ops[0].EventOp? && next.nativeKey != a.nativeKey {
      if i > 0 {
        NoPointerTwice(next, ops[1..], i - 1, j - 1);
      } else {
        AdmittedIsUnseen(next, ops[1..], j - 1);
      }
    } else {
      NoPointerTwice(next, ops[1..], i, j);
    }
  }

  lemma {:induction false} AdmittedIsUnseen(a: Adapter, ops: seq<AdapterOp>, j: nat)
    requires OneEpoch(ops) && j < |CallsAdmitted(a, ops)|
    ensures CallsAdmitted(a, ops)[j] !in a.seen
    decreases |ops|
  {
    hide AdapterStep;
    var next := AdapterStep(a, ops[0]);
    SeenGrows(a, ops[0]);
    if ops[0].EventOp? && next.nativeKey != a.nativeKey {
      if j > 0 {
        AdmittedIsUnseen(next, ops[1..], j - 1);
      }
    } else {
      AdmittedIsUnseen(next, ops[1..], j);
    }
  }
}
