// From SDK events to what the user sees: adapter, ingress, mailbox, reducer and
// projection together, and the commands given on what they show.
module EventPipeline {
  import opened Common
  import opened SipRuntime
  import opened EventReducer
  import opened EventIdentity
  import opened EventMailbox
  import opened EventProjection
  import opened NativeSessionControl
  import opened CallbackIngress
  import opened CallbackLifecycle
  import opened EventAdapter

  datatype Pipe = Pipe(a: Adapter, owner: Owner)

  const NEW_PIPE := Pipe(NEW_ADAPTER, Owner(NEW_PROJECTION, 0, NOTHING_GRANTED))

  datatype PipeOp =
    | Sdk(op: AdapterOp)        // a start, a stop or an event
    | Show(up: bool)            // the owner drains the box and projects it
    | Command(c: NativeCommand)

  // Whether the owner may assert the registration.
  predicate RegisterOkSeen(a: Adapter, up: bool) {
    Active(a) && a.sipRegistered && a.owner != 0 && up
  }

  function Shown(x: Pipe, up: bool): Pipe {
    Pipe(Taken(x.a), Serve(x.owner, DrainSdk(Waiting(x.a.l.ingress.mailbox), RegisterOkSeen(x.a, up))))
  }

  function PipeStep(x: Pipe, op: PipeOp): Pipe {
    match op
    case Sdk(o) => x.(a := AdapterStep(x.a, o))
    case Show(up) => Shown(x, up)
    case Command(c) => x.(owner := Serve(x.owner, Ask(c)))
  }

  function PipeRun(x: Pipe, ops: seq<PipeOp>): Pipe
    decreases |ops|
  {
    if ops == [] then x else PipeRun(PipeStep(x, ops[0]), ops[1..])
  }

  // Only the owner drains, and callbacks hold what a start captured for them.
  predicate Plausible(x: Pipe, ops: seq<PipeOp>)
    decreases |ops|
  {
    ops == [] || (PlausibleOp(x, ops[0]) && Plausible(PipeStep(x, ops[0]), ops[1..]))
  }

  predicate PlausibleOp(x: Pipe, op: PipeOp) {
    op.Sdk? ==> !op.op.TakeOp? && (op.op.EventOp? ==> op.op.cb in x.a.contexts)
  }

  function Session(x: Pipe): U64 { x.a.captured.session }

  // Where the projection stands with the adapter's session.
  function Standing(x: Pipe): Observation {
    LegacyStart(x.owner.p.legacy, Running, Session(x))
  }

  // As long as the session is not rejected, what is shown and what is queued
  // add up to what the adapter has done.
  predicate Tracks(x: Pipe) {
    x.a.captured.Real() && x.owner.p.legacy.rejected != Session(x) ==> Simulates(x.a.l.ingress, Standing(x))
  }

  predicate PipeInv(x: Pipe) {
    && Agree(x.a) && OwnerInv(x.owner) && !x.owner.p.identityMode
    && x.owner.floor <= x.a.l.ingress.mailbox.generation
    && Tracks(x)
  }

  lemma NewPipeInv()
    ensures PipeInv(NEW_PIPE)
  {
    NewOwnerInv();
    NewAdapterAgrees();
  }

  // --- The adapter's side ----------------------------------------------------

  lemma RegistrationTracks(a: Adapter, kind: EventKind, o: Observation)
    requires Agree(a) && a.captured.Real() && Simulates(a.l.ingress, o) && CallConsistent(o)
    requires RegistrationKind(kind)
    ensures var b := RegistrationSeen(a, a.captured, kind);
            b.captured.Real() ==> b.captured == a.captured && Simulates(b.l.ingress, o)
  {
    ActKeepsInv(Channel(a.l.ingress, o, true), Register(a.captured.session, a.captured.account, kind));
    hide Simulates, Registration, CallConsistent;
  }

  lemma OpenTracks(a: Adapter, e: SdkEvent, o: Observation)
    requires Agree(a) && a.captured.Real() && Simulates(a.l.ingress, o) && CallConsistent(o)
    ensures var b := CallOpened(a, a.captured, e);
            b.captured.Real() ==> b.captured == a.captured && Simulates(b.l.ingress, o)
  {
    if MayOpen(a, e) {
      ActKeepsInv(Channel(a.l.ingress, o, true),
                  Start(a.captured.session, a.captured.account, a.nativeKey + 1,
                        if e.kind == SdkIncoming then CallIncoming else CallOutgoing));
    }
    hide Simulates, CallStarted, CallConsistent, IsLive;
  }

  lemma MoveTracks(a: Adapter, e: SdkEvent, o: Observation)
    requires Agree(a) && a.captured.Real() && Simulates(a.l.ingress, o) && CallConsistent(o)
    ensures var b := CallMoved(a, a.captured, e);
            b.captured.Real() ==> b.captured == a.captured && Simulates(b.l.ingress, o)
  {
    ActKeepsInv(Channel(a.l.ingress, o, true),
                Change(a.captured.session, a.captured.account, a.nativeKey,
                       if e.kind == SdkEstablished then CallEstablished else CallClosed));
    hide Simulates, CallChanged, CallConsistent;
  }

  lemma {:induction false} CallbackTracks(a: Adapter, cb: Captured, e: SdkEvent, o: Observation)
    requires Agree(a) && cb in a.contexts && Simulates(a.l.ingress, o) && CallConsistent(o) && a.captured.Real()
    ensures var b := CalledBack(a, cb, e);
            b.captured.Real() ==> b.captured == a.captured && Simulates(b.l.ingress, o)
  {
    hide Agree, IsLive, RegistrationSeen, CallOpened, CallMoved, Simulates;
    if SameEpoch(a, cb) && Active(a) {
      EpochIsCaptured(a, cb);
      match e.kind
      case SdkRegistering => RegistrationTracks(a, RegisterStarted, o);
      case SdkRegisterOk => RegistrationTracks(a, RegisterOk, o);
      case SdkRegisterFail => RegistrationTracks(a, RegisterFail, o);
      case SdkUnregistering => RegistrationTracks(a, EventKind.Unregistering, o);
      case SdkIncoming | SdkOutgoing => OpenTracks(a, e, o);
      case SdkEstablished | SdkClosed => MoveTracks(a, e, o);
      case _ =>
    }
  }

  lemma {:induction false} NeverBegins(a: Adapter, cb: Captured, e: SdkEvent)
    requires Agree(a) && cb in a.contexts
    ensures var b := CalledBack(a, cb, e);
            && (b.captured.Real() ==> b.captured == a.captured)
            && b.l.ingress.mailbox.generation == a.l.ingress.mailbox.generation
  {
    CallbackKeepsAgree(a, cb, e);
    SameEpochs(a, cb, e);
    hide IsLive, CalledBack, LiveAgree, DeadAgree, IngressInv;
  }

  lemma SameEpochs(a: Adapter, cb: Captured, e: SdkEvent)
    ensures var b := CalledBack(a, cb, e);
            b.contexts == a.contexts && (b.captured == a.captured || b.captured == NOBODY)
  {
    hide IsLive, PublishedRegistration, PublishedStart, PublishedChange, Rejected, MayOpen;
  }

  // A new epoch is one no projection has seen.
  lemma StartTracks(x: Pipe, ua: Pointer, free: bool, error: bool)
    requires PipeInv(x)
    ensures PipeInv(x.(a := Started(x.a, ua, free, error).0))
  {
    StartKeepsAgree(x.a, ua, free, error);
    var b := Started(x.a, ua, free, error).0;
    if b.captured.Real() && b != x.a {
      assert b.captured.session == x.a.l.ingress.mailbox.generation + 1;
      assert LegacyStart(x.owner.p.legacy, Running, b.captured.session) == Fresh(Running, b.captured.session);
      FreshSimulates(b.l.ingress);
    }
    hide OwnerInv, Simulates;
  }

  lemma {:induction false} SdkKeepsInv(x: Pipe, op: AdapterOp)
    requires PipeInv(x) && PlausibleOp(x, Sdk(op))
    ensures PipeInv(PipeStep(x, Sdk(op)))
  {
    StepKeepsAgree(x.a, op);
    match op
    case StartOp(ua, free, error) => StartTracks(x, ua, free, error);
    case StopOp => StopTracks(x);
    case EventOp(cb, e) =>
      NeverBegins(x.a, cb, e);
      StandingIsConsistent(x);
      if x.a.captured.Real() && x.owner.p.legacy.rejected != Session(x) {
        CallbackTracks(x.a, cb, e, Standing(x));
      }
    hide Agree, OwnerInv, Simulates, CalledBack, Started, LegacyStart, CallConsistent;
  }

  lemma StopTracks(x: Pipe)
    requires PipeInv(x)
    ensures !StoppedAdapter(x.a).captured.Real()
    ensures StoppedAdapter(x.a).l.ingress.mailbox.generation == x.a.l.ingress.mailbox.generation
  {
  }

  lemma StandingIsConsistent(x: Pipe)
    requires PipeInv(x)
    ensures CallConsistent(Standing(x))
  {
  }

  // --- The owner's side ------------------------------------------------------

  // Leaving out refreshes leaves the call history as it was.
  lemma {:induction false} KeptFits(p: Projection, b: Batch, confirmed: bool, events: seq<NativeEvent>, c: Calls)
    requires QueueFits(c, events) && forall i :: 0 <= i < |events| ==> events[i].session == b.session
    ensures var kept := Kept(p, b, confirmed, events);
            && QueueFits(c, kept) && CallsAfterAll(c, kept) == CallsAfterAll(c, events)
            && forall i :: 0 <= i < |kept| ==> kept[i].session == b.session
    decreases |events|
  {
    if events != [] {
      var e := events[0];
      var later := Kept(AfterOne(p, b, confirmed, e), b, confirmed, events[1..]);
      KeptFits(AfterOne(p, b, confirmed, e), b, confirmed, events[1..], CallsAfter(c, e));
      assert ([e] + later)[1..] == later;
      hide AfterOne;
    }
  }

  // A drain of a live session, before confirmation is considered.
  lemma DrainFollows(p: Projection, b: Batch, confirmed: bool, o: Observation)
    requires ProjectionInv(p) && !p.identityMode && o == LegacyStart(p.legacy, Running, b.session)
    requires b.session != 0 && !b.overflow && |b.events| <= MAILBOX_CAPACITY && p.legacy.rejected != b.session
    ensures var kept := Kept(Next(p, b, []), b, confirmed, b.events);
            var r := ReduceAll(o, b.session, kept);
            var q := AfterEach(Next(p, b, []), b, confirmed, b.events);
            && !q.identityMode
            && q.legacy == if r.1 then Legacy(r.0, p.legacy.rejected) else Legacy(Untrusted(Running), b.session)
  {
    var start := Next(p, b, []);
    StartIsSettled(p, b);
    EmptyReduces(o, b.session);
    assert start.legacy == Legacy(o, p.legacy.rejected) && !start.identityMode by { hide ReduceAll; }
    RefreshesAreInvisible(start, b, confirmed, b.events);
    hide ReduceAll, Kept, AfterEach;
  }

  // What the drain leaves on show is the adapter's own call, or nothing.
  lemma DrainShows(x: Pipe, up: bool)
    requires PipeInv(x) && x.a.captured.Real() && x.owner.p.legacy.rejected != Session(x)
    ensures var s := x.a.l.ingress;
            var b := Waiting(s.mailbox);
            var why := FirstRefusal(Standing(x), Session(x), Kept(Next(x.owner.p, b, []), b, RegisterOkSeen(x.a, up), b.events));
            var q := Shown(x, up).owner.p.legacy;
            && (why == None || why == Some(InvalidOrder))
            && (q.rejected != Session(x) ==>
                  (why == None && ProofIsCurrent(q.state, Session(x)) && CallsOf(q.state) == TokensOf(s)))
  {
    var s := x.a.l.ingress;
    var b := Waiting(s.mailbox);
    var confirmed := RegisterOkSeen(x.a, up);
    var start := Next(x.owner.p, b, []);
    var kept := Kept(start, b, confirmed, b.events);
    KeptFits(start, b, confirmed, b.events, CallsOf(Standing(x)));
    QueueIsCurrent(Standing(x), Session(x), kept);
    DrainFollows(x.owner.p, b, confirmed, Standing(x));
    hide Kept, AfterEach, ReduceAll, QueueFits, CallsAfterAll, FirstRefusal, Next, LegacyStart;
  }

  lemma ShowKeepsInv(x: Pipe, up: bool)
    requires PipeInv(x)
    ensures PipeInv(Shown(x, up))
  {
    var b := Waiting(x.a.l.ingress.mailbox);
    TakeKeepsAgree(x.a);
    assert b.session == 0 || x.owner.floor <= b.session by { hide OwnerInv, Tracks; }
    ServeKeepsInv(x.owner, DrainSdk(b, RegisterOkSeen(x.a, up)));
    ModeStays(x.owner.p, b, RegisterOkSeen(x.a, up));
    if x.a.captured.Real() && Shown(x, up).owner.p.legacy.rejected != Session(x) {
      ShowTracks(x, up);
    }
    hide OwnerInv, ProjectSdk, Simulates, IngressInv, LegacyStart;
  }

  lemma ModeStays(p: Projection, b: Batch, confirmed: bool)
    requires !p.identityMode
    ensures !ProjectSdk(p, b, confirmed).identityMode
  {
    KeepsMode(Next(p, b, []), b, confirmed, b.events);
    hide LegacyObserve, AfterEach;
  }

  lemma ShowTracks(x: Pipe, up: bool)
    requires PipeInv(x) && x.a.captured.Real() && Shown(x, up).owner.p.legacy.rejected != Session(x)
    ensures Tracks(Shown(x, up))
  {
    if x.owner.p.legacy.rejected != Session(x) {
      DrainShows(x, up);
      hide ProjectSdk;
    } else {
      RejectionStays(x, up);
    }
  }

  lemma RejectionStays(x: Pipe, up: bool)
    requires PipeInv(x) && x.a.captured.Real() && x.owner.p.legacy.rejected == Session(x)
    ensures Shown(x, up).owner.p.legacy.rejected == Session(x)
  {
    var b := Waiting(x.a.l.ingress.mailbox);
    StaysRejected(Next(x.owner.p, b, []), b, RegisterOkSeen(x.a, up), b.events);
    hide AfterEach, ReduceAll;
  }

  // --- Runs ------------------------------------------------------------------

  lemma PipeStepKeepsInv(x: Pipe, op: PipeOp)
    requires PipeInv(x) && PlausibleOp(x, op)
    ensures PipeInv(PipeStep(x, op))
  {
    match op
    case Sdk(o) => SdkKeepsInv(x, o);
    case Show(up) => ShowKeepsInv(x, up);
    case Command(c) =>
      ServeKeepsInv(x.owner, Ask(c));
      hide Agree, OwnerInv, Simulates;
  }

  lemma {:induction false} PipeRunKeepsInv(x: Pipe, ops: seq<PipeOp>)
    requires PipeInv(x) && Plausible(x, ops)
    ensures PipeInv(PipeRun(x, ops))
    decreases |ops|
  {
    hide PipeInv, PipeStep, PlausibleOp;
    if ops != [] {
      PipeStepKeepsInv(x, ops[0]);
      PipeRunKeepsInv(PipeStep(x, ops[0]), ops[1..]);
    }
  }

  // After any run of SDK events, drains and commands, right after a drain: if
  // the live session is shown as verified, the call on show is the adapter's
  // active call, and the newest call shown is the last one the adapter admitted.
  lemma ShownCallIsTheAdapters(ops: seq<PipeOp>, up: bool)
    requires Plausible(NEW_PIPE, ops)
    ensures var x := Shown(PipeRun(NEW_PIPE, ops), up);
            var o := x.owner.p.Snapshot();
            x.a.captured.Real() && ProofIsCurrent(o, x.a.captured.session) ==>
              && o.callId == x.a.activeToken && o.lastCallId == x.a.nativeKey == |x.a.seen|
              && (HasCall(o.sip) <==> x.a.activeCall != 0)
  {
    NewPipeInv();
    PipeRunKeepsInv(NEW_PIPE, ops);
    ShowKeepsInv(PipeRun(NEW_PIPE, ops), up);
    ShownAgrees(PipeRun(NEW_PIPE, ops), up);
  }

  lemma ShownAgrees(before: Pipe, up: bool)
    requires PipeInv(Shown(before, up))
    ensures var x := Shown(before, up);
            var o := x.owner.p.Snapshot();
            x.a.captured.Real() && ProofIsCurrent(o, x.a.captured.session) ==>
              && o.callId == x.a.activeToken && o.lastCallId == x.a.nativeKey == |x.a.seen|
              && (HasCall(o.sip) <==> x.a.activeCall != 0)
  {
    hide ProjectSdk;
  }

  // A drain that rejects a session does so because its events came in an order
  // the reducer refuses, or because registration was not confirmed.
  lemma OnlyOrderRejects(ops: seq<PipeOp>, up: bool)
    requires Plausible(NEW_PIPE, ops)
    ensures var x := PipeRun(NEW_PIPE, ops);
            var b := Waiting(x.a.l.ingress.mailbox);
            x.a.captured.Real() && x.owner.p.legacy.rejected != Session(x) ==>
              var why := FirstRefusal(Standing(x), Session(x), Kept(Next(x.owner.p, b, []), b, RegisterOkSeen(x.a, up), b.events));
              why == None || why == Some(InvalidOrder)
  {
    NewPipeInv();
    PipeRunKeepsInv(NEW_PIPE, ops);
    var x := PipeRun(NEW_PIPE, ops);
    if x.a.captured.Real() && x.owner.p.legacy.rejected != Session(x) {
      DrainShows(x, up);
    }
  }
}
