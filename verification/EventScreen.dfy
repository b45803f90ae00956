// What the screen shows is what the SDK said: the status of a session told from
// the events of its own callbacks alone, and that every drain shows that status.
module EventScreen {
  import opened Common
  import opened SipRuntime
  import opened EventReducer
  import opened EventIdentity
  import opened EventMailbox
  import opened EventProjection
  import opened NativeSessionControl
  import opened CallbackIngress
  import opened CallbackLifecycle
  import opened EventAdapter
  import opened EventPipeline

  // --- What the SDK said -----------------------------------------------------

  // The status, and the call it is about: its pointer, how it began, and whether
  // it was answered. Without a call, 0 and two noes. And whether the SDK last
  // said that the agent is registered.
  datatype Story = Story(status: SipStatus, call: Pointer, incoming: bool, established: bool, registered: bool)

  const NO_STORY := Story(SipStatus.Unavailable, 0, false, false, false)

  function Told(s: Story, e: SdkEvent): Story {
    match e.kind
    case SdkIncoming => s.(status := Ringing, call := e.call, incoming := true, established := false)
    case SdkOutgoing => s.(status := Calling, call := e.call, incoming := false, established := false)
    case SdkEstablished => s.(status := InCall, established := true)
    case SdkClosed => s.(status := Registered, call := 0, incoming := false, established := false)
    // During a call these only refresh the registration.
    case SdkRegistering => if s.call != 0 then s else s.(status := Registering, registered := false)
    case SdkRegisterOk => s.(status := if s.call != 0 then s.status else Registered, registered := true)
    case SdkRegisterFail => s.(status := Failed, registered := false)
    case SdkUnregistering => s.(status := Disconnected, registered := false)
    case SdkExit | SdkShutdown | SdkAudioError | SdkTransferFailed | SdkOther => s
  }

  // An event of this session's own callbacks that names its user agent.
  predicate Speaks(op: PipeOp, session: Captured) {
    op.Sdk? && op.op.EventOp? && op.op.cb == session && op.op.e.present && op.op.e.ua == session.account
  }

  // The story of a session, told from the run's SDK events.
  function Said(ops: seq<PipeOp>, session: Captured): Story {
    if ops == [] then NO_STORY
    else
      var before, last := Said(ops[..|ops| - 1], session), ops[|ops| - 1];
      if Speaks(last, session) then Told(before, last.op.e) else before
  }

  lemma SaidAppend(ops: seq<PipeOp>, op: PipeOp, session: Captured)
    ensures Said(ops + [op], session) ==
            if Speaks(op, session) then Told(Said(ops, session), op.op.e) else Said(ops, session)
  {
    assert (ops + [op])[..|ops|] == ops;
  }

  lemma {:induction false} UnheardOf(ops: seq<PipeOp>, session: Captured)
    requires forall i :: 0 <= i < |ops| ==> !Speaks(ops[i], session)
    ensures Said(ops, session) == NO_STORY
  {
    if ops != [] {
      UnheardOf(ops[..|ops| - 1], session);
    }
  }

  // --- The same, of events in the box ----------------------------------------

  // Status, and whether there is a call.
  datatype Line = Line(status: SipStatus, call: bool)

  function LineOf(o: Observation): Line { Line(o.sip, o.callId != 0) }

  function Heard(l: Line, k: EventKind): Line {
    match k
    case CallIncoming => Line(Ringing, true)
    case CallOutgoing => Line(Calling, true)
    case CallEstablished => l.(status := InCall)
    case CallClosed => Line(Registered, false)
    case RegisterStarted => if l.call then l else l.(status := Registering)
    case RegisterOk => if l.call then l else l.(status := Registered)
    case RegisterFail => l.(status := Failed)
    case Unregistering => l.(status := Disconnected)
    case TransportLost => Line(Disconnected, false)
  }

  function HeardAll(l: Line, events: seq<NativeEvent>): Line {
    if events == [] then l else Heard(HeardAll(l, events[..|events| - 1]), events[|events| - 1].kind)
  }

  lemma HeardAppend(l: Line, events: seq<NativeEvent>, e: NativeEvent)
    ensures HeardAll(l, events + [e]) == Heard(HeardAll(l, events), e.kind)
  {
    assert (events + [e])[..|events|] == events;
  }

  lemma {:induction false} HeardFirst(l: Line, events: seq<NativeEvent>)
    requires events != []
    ensures HeardAll(l, events) == HeardAll(Heard(l, events[0].kind), events[1..])
    decreases |events|
  {
    hide Heard;
    var init, last := events[..|events| - 1], events[|events| - 1];
    if init == [] {
      assert HeardAll(l, init) == l;
    } else {
      HeardFirst(l, init);
      assert events[1..][..|events| - 2] == init[1..];
    }
  }

  lemma AppliedIsHeard(o: Observation, session: U64, e: NativeEvent)
    requires CallConsistent(o) && Verdict(o, session, e) == Applied
    ensures LineOf(AfterEvent(o, e)) == Heard(LineOf(o), e.kind) && CallConsistent(AfterEvent(o, e))
  {
  }

  // The reducer's status after a stream it applied is what the stream says.
  lemma {:induction false} AppliedStreamIsHeard(o: Observation, session: U64, events: seq<NativeEvent>)
    requires CallConsistent(o) && ReduceAll(o, session, events).1
    ensures LineOf(ReduceAll(o, session, events).0) == HeardAll(LineOf(o), events)
    decreases |events|
  {
    if events != [] {
      HeardFirst(LineOf(o), events);
      AppliedIsHeard(o, session, events[0]);
      AppliedStreamIsHeard(AfterEvent(o, events[0]), session, events[1..]);
    }
  }

  // --- Drains ----------------------------------------------------------------

  // Where the projection stands once a drain of the session has begun: the
  // session is rejected, or its observation is on show.
  predicate Settles(p: Projection, session: U64) {
    && !p.identityMode && session != 0 && CallConsistent(p.legacy.state)
    && (p.legacy.rejected != session <==> ProofIsCurrent(p.legacy.state, session))
  }

  lemma OneEventIsHeard(p: Projection, b: Batch, confirmed: bool, e: NativeEvent)
    requires Settles(p, b.session) && !b.overflow
    ensures var q := AfterOne(p, b, confirmed, e);
            && Settles(q, b.session)
            && (ProofIsCurrent(q.legacy.state, b.session) ==>
                  ProofIsCurrent(p.legacy.state, b.session) &&
                  LineOf(q.legacy.state) == Heard(LineOf(p.legacy.state), e.kind))
  {
    var o := p.legacy.state;
    if IsRefresh(o, b.session, confirmed, e) {
    } else if p.legacy.rejected == b.session {
      assert AfterOne(p, b, confirmed, e).legacy == Legacy(Untrusted(Running), b.session);
    } else {
      OneEvent(o, b.session, e);
      hide ReduceAll, Verdict, AfterEvent, Heard;
      assert AfterOne(p, b, confirmed, e).legacy ==
        if Verdict(o, b.session, e) == Applied then Legacy(AfterEvent(o, e), p.legacy.rejected)
        else Legacy(Untrusted(Running), b.session);
      if Verdict(o, b.session, e) == Applied {
        AppliedIsHeard(o, b.session, e);
      }
    }
  }

  lemma OneEvent(o: Observation, session: U64, e: NativeEvent)
    ensures ReduceAll(o, session, [e]) == if Verdict(o, session, e) == Applied then (AfterEvent(o, e), true) else (o, false)
    ensures Verdict(o, session, e) == Applied ==> ProofIsCurrent(AfterEvent(o, e), session)
  {
    assert [e][1..] == [];
  }

  lemma {:induction false} EachEventIsHeard(p: Projection, b: Batch, confirmed: bool, events: seq<NativeEvent>)
    requires Settles(p, b.session) && !b.overflow
    ensures var q := AfterEach(p, b, confirmed, events);
            && Settles(q, b.session)
            && (ProofIsCurrent(q.legacy.state, b.session) ==>
                  ProofIsCurrent(p.legacy.state, b.session) &&
                  LineOf(q.legacy.state) == HeardAll(LineOf(p.legacy.state), events))
    decreases |events|
  {
    hide AfterOne, Heard, ProofIsCurrent, CallConsistent;
    if events != [] {
      OneEventIsHeard(p, b, confirmed, events[0]);
      HeardFirst(LineOf(p.legacy.state), events);
      EachEventIsHeard(AfterOne(p, b, confirmed, events[0]), b, confirmed, events[1..]);
    }
  }

  lemma DrainBegins(p: Projection, floor: U64, b: Batch)
    requires !p.identityMode && b.session != 0 && !b.overflow && GateInv(LegacyGate(p.legacy), floor)
    ensures var q := Next(p, b, []);
            && Settles(q, b.session)
            && (q.legacy.rejected != b.session ==>
                  p.legacy.rejected != b.session && q.legacy.state == LegacyStart(p.legacy, Running, b.session))
            && (p.legacy.rejected != b.session ==> q.legacy.rejected != b.session)
  {
    EmptyReduces(LegacyStart(p.legacy, Running, b.session), b.session);
    hide ReduceAll;
  }

  // The line of the live session as the projection will start from it.
  function Start(x: Pipe): Line { LineOf(Standing(x)) }

  // What a drain leaves on show, if it is verified, is what the queue says.
  lemma DrainIsHeard(x: Pipe, up: bool)
    requires PipeInv(x) && x.a.captured.Real()
    ensures var o := Shown(x, up).owner.p.Snapshot();
            ProofIsCurrent(o, Session(x)) ==>
              && x.owner.p.legacy.rejected != Session(x)
              && LineOf(o) == HeardAll(Start(x), x.a.l.ingress.mailbox.queue)
  {
    var b := Waiting(x.a.l.ingress.mailbox);
    LiveBox(x);
    DrainBegins(x.owner.p, x.owner.floor, b);
    hide AfterEach, Next, PipeInv, HeardAll, LegacyStart;
    EachEventIsHeard(Next(x.owner.p, b, []), b, RegisterOkSeen(x.a, up), b.events);
    ModeStays(x.owner.p, b, RegisterOkSeen(x.a, up));
  }

  lemma LiveBox(x: Pipe)
    requires PipeInv(x) && x.a.captured.Real()
    ensures var b := Waiting(x.a.l.ingress.mailbox);
            b.session == Session(x) != 0 && !b.overflow && |b.events| <= MAILBOX_CAPACITY
    ensures !x.owner.p.identityMode && GateInv(LegacyGate(x.owner.p.legacy), x.owner.floor)
  {
  }

  // --- The adapter tells the story -------------------------------------------

  // The adapter's call and flags are the story's.
  predicate CallMatches(a: Adapter, s: Story) {
    && a.activeCall == s.call && a.flags.incoming == s.incoming && a.flags.established == s.established
    && a.sipRegistered == s.registered
  }

  // And so is the line that the queued events add up to.
  predicate LineMatches(a: Adapter, start: Line, s: Story) {
    HeardAll(start, a.l.ingress.mailbox.queue) == Line(s.status, s.call != 0)
  }

  // From one adapter and story to the next.
  predicate GoesOn(a: Adapter, s: Story, b: Adapter, t: Story, start: Line) {
    b.captured.Real() ==>
      && b.captured == a.captured && CallMatches(b, t)
      && (LineMatches(a, start, s) ==> LineMatches(b, start, t))
  }

  lemma RegistrationMatches(a: Adapter, kind: EventKind, start: Line, s: Story, e: SdkEvent)
    requires Agree(a) && a.captured.Real() && CallMatches(a, s)
    requires match e.kind
             case SdkRegistering => kind == RegisterStarted && a.activeCall == 0
             case SdkRegisterOk => kind == RegisterOk
             case SdkRegisterFail => kind == RegisterFail
             case SdkUnregistering => kind == EventKind.Unregistering
             case _ => false
    ensures var b := RegistrationSeen(a, a.captured, kind);
            GoesOn(a, s, b, Told(s, e), start)
  {
    HeardAppend(start, a.l.ingress.mailbox.queue, Message(a.l.ingress, kind, 0));
    hide HeardAll;
  }

  lemma OpeningMatches(a: Adapter, start: Line, s: Story, e: SdkEvent)
    requires Agree(a) && a.captured.Real() && CallMatches(a, s)
    requires e.kind == SdkIncoming || e.kind == SdkOutgoing
    ensures var b := CallOpened(a, a.captured, e);
            GoesOn(a, s, b, Told(s, e), start)
  {
    var kind := if e.kind == SdkIncoming then CallIncoming else CallOutgoing;
    HeardAppend(start, a.l.ingress.mailbox.queue, Message(a.l.ingress, kind, a.l.ingress.lastToken + 1));
    hide HeardAll;
  }

  lemma MoveMatches(a: Adapter, start: Line, s: Story, e: SdkEvent)
    requires Agree(a) && a.captured.Real() && CallMatches(a, s)
    requires e.kind == SdkEstablished || e.kind == SdkClosed
    ensures var b := CallMoved(a, a.captured, e);
            GoesOn(a, s, b, Told(s, e), start)
  {
    var kind := if e.kind == SdkEstablished then CallEstablished else CallClosed;
    HeardAppend(start, a.l.ingress.mailbox.queue, Message(a.l.ingress, kind, a.l.ingress.activeToken));
    hide HeardAll;
  }

  lemma {:induction false} OwnEventMatches(a: Adapter, start: Line, s: Story, e: SdkEvent)
    requires Agree(a) && a.captured.Real() && CallMatches(a, s)
    ensures var b := OwnEvent(a, a.captured, e);
            GoesOn(a, s, b, Told(s, e), start)
  {
    match e.kind
    case SdkRegistering => if a.activeCall == 0 { RegistrationMatches(a, RegisterStarted, start, s, e); }
    case SdkRegisterOk => RegistrationMatches(a, RegisterOk, start, s, e);
    case SdkRegisterFail => RegistrationMatches(a, RegisterFail, start, s, e);
    case SdkUnregistering => RegistrationMatches(a, EventKind.Unregistering, start, s, e);
    case SdkIncoming | SdkOutgoing => OpeningMatches(a, start, s, e);
    case SdkEstablished | SdkClosed => MoveMatches(a, start, s, e);
    case SdkTransferFailed =>
    case SdkShutdown | SdkAudioError | SdkExit | SdkOther =>
    hide Agree, RegistrationSeen, CallOpened, CallMoved, HeardAll;
  }

  lemma {:induction false} CallbackMatches(a: Adapter, cb: Captured, start: Line, s: Story, e: SdkEvent)
    requires Agree(a) && a.captured.Real() && cb in a.contexts && CallMatches(a, s)
    ensures var b := CalledBack(a, cb, e);
            GoesOn(a, s, b, if cb == a.captured && e.present && e.ua == a.captured.account then Told(s, e) else s, start)
  {
    OwnerIsAccount(a);
    hide Agree, IsLive, OwnEvent, CallMatches, LineMatches;
    if SameEpoch(a, cb) && Active(a) {
      EpochIsCaptured(a, cb);
      OwnEventMatches(a, start, s, e);
    }
  }

  lemma OwnerIsAccount(a: Adapter)
    requires Agree(a) && a.captured.Real()
    ensures a.owner == a.captured.account && IsLive(a.l, a.captured) && Active(a)
  {
  }

  // --- Runs ------------------------------------------------------------------

  // Only contexts that a start handed out were ever heard from.
  predicate Known(x: Pipe, done: seq<PipeOp>) {
    forall i :: 0 <= i < |done| && done[i].Sdk? && done[i].op.EventOp? ==> done[i].op.cb in x.a.contexts
  }

  predicate StoryHolds(x: Pipe, done: seq<PipeOp>) {
    x.a.captured.Real() ==>
      && CallMatches(x.a, Said(done, x.a.captured))
      && (x.owner.p.legacy.rejected != Session(x) ==> LineMatches(x.a, Start(x), Said(done, x.a.captured)))
  }

  predicate StoryInv(x: Pipe, done: seq<PipeOp>) {
    PipeInv(x) && Known(x, done) && StoryHolds(x, done)
  }

  lemma NewStoryInv()
    ensures StoryInv(NEW_PIPE, [])
  {
    NewPipeInv();
  }

  lemma ContextsGrow(a: Adapter, op: AdapterOp)
    ensures forall c :: c in a.contexts ==> c in AdapterStep(a, op).contexts
    ensures op.EventOp? ==> AdapterStep(a, op).contexts == a.contexts
  {
    if op.EventOp? { SameEpochs(a, op.cb, op.e); }
    hide Opened, RevokedQuiet, CalledBack;
  }

  lemma {:induction false} StaysKnown(x: Pipe, done: seq<PipeOp>, op: PipeOp)
    requires Known(x, done) && PlausibleOp(x, op)
    ensures Known(PipeStep(x, op), done + [op])
  {
    if op.Sdk? { ContextsGrow(x.a, op.op); }
    hide AdapterStep, Shown;
  }

  // A new session is one that nothing was heard of.
  lemma StartBeginsStory(x: Pipe, done: seq<PipeOp>, ua: Pointer, free: bool, error: bool)
    requires StoryInv(x, done)
    ensures var op := Sdk(StartOp(ua, free, error)); StoryHolds(PipeStep(x, op), done + [op])
  {
    var op := Sdk(StartOp(ua, free, error));
    var y := PipeStep(x, op);
    SaidAppend(done, op, y.a.captured);
    if y.a != x.a && y.a.captured.Real() {
      StartedAfresh(x, ua, free, error);
      UnheardOf(done, y.a.captured);
      assert HeardAll(Start(y), []) == Start(y);
    }
    hide PipeInv, Started, Said, LegacyStart;
  }

  lemma StartedAfresh(x: Pipe, ua: Pointer, free: bool, error: bool)
    requires PipeInv(x) && Started(x.a, ua, free, error).0 != x.a && Started(x.a, ua, free, error).0.captured.Real()
    ensures var b := Started(x.a, ua, free, error).0;
            && b.captured !in x.a.contexts && b.l.ingress.mailbox.queue == []
            && b.activeCall == 0 && b.flags == NO_FLAGS && !b.sipRegistered
            && Start(x.(a := b)) == Line(SipStatus.Unavailable, false)
  {
    StartTracks(x, ua, free, error);
    var b := Started(x.a, ua, free, error).0;
    assert b.captured.session == x.a.l.ingress.mailbox.generation + 1;
    assert LegacyStart(x.owner.p.legacy, Running, b.captured.session) == Fresh(Running, b.captured.session);
  }

  lemma {:induction false} EventGoesOn(x: Pipe, done: seq<PipeOp>, cb: Captured, e: SdkEvent)
    requires StoryInv(x, done) && PlausibleOp(x, Sdk(EventOp(cb, e)))
    ensures var op := Sdk(EventOp(cb, e)); StoryHolds(PipeStep(x, op), done + [op])
  {
    var op := Sdk(EventOp(cb, e));
    var y := PipeStep(x, op);
    NeverBegins(x.a, cb, e);
    if y.a.captured.Real() {
      SaidAppend(done, op, x.a.captured);
      CallbackMatches(x.a, cb, Start(x), Said(done, x.a.captured), e);
    }
    hide PipeInv, CalledBack, Said, LineMatches, CallMatches, Told, LegacyStart;
  }

  lemma {:induction false} DrainGoesOn(x: Pipe, done: seq<PipeOp>, up: bool)
    requires StoryInv(x, done)
    ensures StoryHolds(Shown(x, up), done + [Show(up)])
  {
    var y := Shown(x, up);
    SaidAppend(done, Show(up), x.a.captured);
    if x.a.captured.Real() && y.owner.p.legacy.rejected != Session(x) {
      if x.owner.p.legacy.rejected == Session(x) {
        RejectionStays(x, up);
      } else {
        DrainShows(x, up);
        DrainIsHeard(x, up);
        ShowKeepsInv(x, up);
        StartsWhereShown(y);
        assert HeardAll(Start(y), []) == Start(y);
      }
    }
    hide PipeInv, ProjectSdk, Said, LegacyStart, Kept, FirstRefusal;
  }

  lemma StartsWhereShown(y: Pipe)
    requires PipeInv(y) && y.a.captured.Real() && ProofIsCurrent(y.owner.p.legacy.state, Session(y))
    ensures Start(y) == LineOf(y.owner.p.Snapshot()) && y.owner.p.Snapshot() == y.owner.p.legacy.state
  {
  }

  lemma {:induction false} StepKeepsStory(x: Pipe, done: seq<PipeOp>, op: PipeOp)
    requires StoryInv(x, done) && PlausibleOp(x, op)
    ensures StoryInv(PipeStep(x, op), done + [op])
  {
    PipeStepKeepsInv(x, op);
    StaysKnown(x, done, op);
    match op
    case Sdk(StartOp(ua, free, error)) => StartBeginsStory(x, done, ua, free, error);
    case Sdk(StopOp) => StopTracks(x);
    case Sdk(EventOp(cb, e)) => EventGoesOn(x, done, cb, e);
    case Sdk(TakeOp) =>
    case Show(up) => DrainGoesOn(x, done, up);
    case Command(c) => SaidAppend(done, op, x.a.captured);
    hide PipeInv, Said, Known, CallMatches, LineMatches, Serve, CalledBack, Started, Shown;
  }

  lemma {:induction false} RunKeepsStory(x: Pipe, done: seq<PipeOp>, ops: seq<PipeOp>)
    requires StoryInv(x, done) && Plausible(x, ops)
    ensures StoryInv(PipeRun(x, ops), done + ops)
    decreases |ops|
  {
    hide StoryInv, PipeStep, PlausibleOp;
    if ops == [] {
      assert done + [] == done;
    } else {
      StepKeepsStory(x, done, ops[0]);
      RunKeepsStory(PipeStep(x, ops[0]), done + [ops[0]], ops[1..]);
      assert done + [ops[0]] + ops[1..] == done + ops;
    }
  }

  // --- What is shown is what was said ----------------------------------------

  // After any run of SDK events, drains and commands, right after a drain: if
  // the live session is shown as verified, its status is the one its own events
  // tell. An incoming call rings, an outgoing one is calling, an answered one is
  // a call; and without a call the last registration event decides.
  lemma ShownStatusIsWhatWasSaid(ops: seq<PipeOp>, up: bool)
    requires Plausible(NEW_PIPE, ops)
    ensures var x := Shown(PipeRun(NEW_PIPE, ops), up);
            var o := x.owner.p.Snapshot();
            x.a.captured.Real() && ProofIsCurrent(o, x.a.captured.session) ==>
              var said := Said(ops, x.a.captured);
              o.sip == said.status && (o.callId != 0 <==> said.call != 0)
  {
    NewStoryInv();
    RunKeepsStory(NEW_PIPE, [], ops);
    assert [] + ops == ops;
    var x := PipeRun(NEW_PIPE, ops);
    if x.a.captured.Real() {
      DrainIsHeard(x, up);
    }
    hide PipeInv, Said, ProjectSdk, LegacyStart;
  }

  // While a session is live, the adapter's active call is the one its events
  // tell of, with its direction and whether it was answered; and the owner may
  // assert the registration exactly while the SDK said so last and says so now.
  lemma ActiveCallIsWhatWasSaid(ops: seq<PipeOp>, up: bool)
    requires Plausible(NEW_PIPE, ops)
    ensures var a := PipeRun(NEW_PIPE, ops).a;
            a.captured.Real() ==>
              var said := Said(ops, a.captured);
              && a.activeCall == said.call && a.flags.incoming == said.incoming && a.flags.established == said.established
              && (RegisterOkSeen(a, up) <==> said.registered && up)
  {
    NewStoryInv();
    RunKeepsStory(NEW_PIPE, [], ops);
    assert [] + ops == ops;
    var x := PipeRun(NEW_PIPE, ops);
    if x.a.captured.Real() {
      OwnerIsAccount(x.a);
    }
    hide OwnerInv, Tracks, Said, PipeRun, Plausible;
  }

  // --- When it is shown at all -----------------------------------------------

  // What may be said next. A confirmed registration may be refreshed by a mere
  // REGISTER_OK, even during a call.
  predicate MayHear(l: Line, k: EventKind, confirmed: bool) {
    match k
    case RegisterStarted => !l.call && l.status != Registering
    case RegisterOk => l.status == Registering || (confirmed && Live(l.status))
    case RegisterFail => l.status == Registering
    case Unregistering => l.status == Registering || l.status == Registered
    case CallIncoming | CallOutgoing => l.status == Registered
    case CallEstablished => l.status == Ringing || l.status == Calling
    case CallClosed => l.call
    case TransportLost => true
  }

  predicate InOrder(l: Line, events: seq<NativeEvent>, confirmed: bool)
    decreases |events|
  {
    events == [] ||
    (MayHear(l, events[0].kind, confirmed) && InOrder(Heard(l, events[0].kind), events[1..], confirmed))
  }

  lemma OneEventInOrder(p: Projection, b: Batch, confirmed: bool, e: NativeEvent)
    requires Settles(p, b.session) && !b.overflow && p.legacy.rejected != b.session
    requires Fits(CallsOf(p.legacy.state), e) && e.session == b.session
    ensures var q := AfterOne(p, b, confirmed, e);
            && Settles(q, b.session)
            && (q.legacy.rejected != b.session <==> MayHear(LineOf(p.legacy.state), e.kind, confirmed))
            && (q.legacy.rejected != b.session ==>
                  LineOf(q.legacy.state) == Heard(LineOf(p.legacy.state), e.kind) &&
                  CallsOf(q.legacy.state) == CallsAfter(CallsOf(p.legacy.state), e))
  {
    var o := p.legacy.state;
    OneEventIsHeard(p, b, confirmed, e);
    if !IsRefresh(o, b.session, confirmed, e) {
      OneEvent(o, b.session, e);
      assert AfterOne(p, b, confirmed, e).legacy ==
        if Verdict(o, b.session, e) == Applied then Legacy(AfterEvent(o, e), p.legacy.rejected)
        else Legacy(Untrusted(Running), b.session) by { hide ReduceAll, Verdict, AfterEvent; }
      hide AfterOne, ReduceAll;
    }
  }

  lemma {:induction false} EachEventInOrder(p: Projection, b: Batch, confirmed: bool, events: seq<NativeEvent>)
    requires Settles(p, b.session) && !b.overflow && p.legacy.rejected != b.session
    requires QueueFits(CallsOf(p.legacy.state), events)
    requires forall i :: 0 <= i < |events| ==> events[i].session == b.session
    ensures var q := AfterEach(p, b, confirmed, events);
            && Settles(q, b.session)
            && (q.legacy.rejected != b.session <==> InOrder(LineOf(p.legacy.state), events, confirmed))
    decreases |events|
  {
    hide AfterOne, MayHear, Heard, ProofIsCurrent, CallConsistent, Fits, CallsAfter;
    if events != [] {
      OneEventInOrder(p, b, confirmed, events[0]);
      var next := AfterOne(p, b, confirmed, events[0]);
      if next.legacy.rejected != b.session {
        EachEventInOrder(next, b, confirmed, events[1..]);
      } else {
        EachEventIsHeard(next, b, confirmed, events[1..]);
      }
    }
  }

  // A drain shows the live session, unless it was rejected before, exactly when
  // what is queued comes in order and, if that leaves it registered, the owner
  // may assert the registration.
  lemma DrainShowsExactlyWhen(x: Pipe, up: bool)
    requires PipeInv(x) && x.a.captured.Real() && x.owner.p.legacy.rejected != Session(x)
    ensures var confirmed := RegisterOkSeen(x.a, up);
            var queue := x.a.l.ingress.mailbox.queue;
            ProofIsCurrent(Shown(x, up).owner.p.Snapshot(), Session(x)) <==>
            InOrder(Start(x), queue, confirmed) && (confirmed || !Live(HeardAll(Start(x), queue).status))
  {
    var b := Waiting(x.a.l.ingress.mailbox);
    var confirmed := RegisterOkSeen(x.a, up);
    var begun := Next(x.owner.p, b, []);
    LiveBox(x);
    QueueFitsStanding(x);
    DrainBegins(x.owner.p, x.owner.floor, b);
    EachEventInOrder(begun, b, confirmed, b.events);
    EachEventIsHeard(begun, b, confirmed, b.events);
    KeepsMode(begun, b, confirmed, b.events);
    hide AfterEach, Next, PipeInv, HeardAll, InOrder, LegacyStart, QueueFits, Live;
    ConfirmationDecides(AfterEach(begun, b, confirmed, b.events), Session(x), confirmed);
  }

  lemma ConfirmationDecides(q: Projection, session: U64, confirmed: bool)
    requires Settles(q, session)
    ensures ProofIsCurrent(Confirmed(q, confirmed).Snapshot(), session) <==>
            q.legacy.rejected != session && (confirmed || !Live(q.legacy.state.sip))
  {
  }

  lemma QueueFitsStanding(x: Pipe)
    requires PipeInv(x) && x.a.captured.Real() && x.owner.p.legacy.rejected != Session(x)
    ensures var queue := x.a.l.ingress.mailbox.queue;
            && QueueFits(CallsOf(Standing(x)), queue)
            && forall i :: 0 <= i < |queue| ==> queue[i].session == Session(x)
  {
  }

  // The same of any run, with the status that was said.
  lemma ShownExactlyWhen(ops: seq<PipeOp>, up: bool)
    requires Plausible(NEW_PIPE, ops)
    ensures var x := PipeRun(NEW_PIPE, ops);
            x.a.captured.Real() && x.owner.p.legacy.rejected != Session(x) ==>
              var said := Said(ops, x.a.captured);
              var confirmed := said.registered && up;
              (ProofIsCurrent(Shown(x, up).owner.p.Snapshot(), Session(x)) <==>
               InOrder(Start(x), x.a.l.ingress.mailbox.queue, confirmed) && (confirmed || !Live(said.status)))
  {
    NewStoryInv();
    RunKeepsStory(NEW_PIPE, [], ops);
    assert [] + ops == ops;
    var x := PipeRun(NEW_PIPE, ops);
    if x.a.captured.Real() && x.owner.p.legacy.rejected != Session(x) {
      DrainShowsExactlyWhen(x, up);
      ActiveCallIsWhatWasSaid(ops, up);
    }
    hide PipeInv, Said, ProjectSdk, LegacyStart, InOrder;
  }

  // --- What a session survives -----------------------------------------------

  // The events after which the session lives on.
  predicate Harmless(a: Adapter, e: SdkEvent) {
    && e.kind != SdkExit
    && (e.kind == SdkOther || !e.present || e.ua != a.owner ||
        match e.kind
        case SdkShutdown | SdkAudioError => false
        case SdkRegistering => if a.activeCall == 0 then Room(a) else a.sipRegistered && e.up
        case SdkRegisterOk => e.up && (Room(a) || (a.activeCall != 0 && a.sipRegistered))
        case SdkRegisterFail | SdkUnregistering => Room(a)
        case SdkIncoming | SdkOutgoing =>
          && a.sipRegistered && e.up && e.stillUp
          && e.call != 0 && a.activeCall == 0 && e.call !in a.seen && |a.seen| < MAX_CALLS && Room(a)
        case SdkEstablished | SdkClosed => e.call != 0 && e.call == a.activeCall && Room(a)
        case SdkTransferFailed | SdkExit | SdkOther => true)
  }

  lemma RegistrationLives(a: Adapter, e: SdkEvent, kind: EventKind)
    requires Agree(a) && a.captured.Real() && RegistrationKind(kind)
    ensures RegistrationSeen(a, a.captured, kind).captured.Real() <==> Room(a)
  {
    OnlyOverflowRefuses(a, e, kind);
    hide PublishedRegistration, Rejected, Agree, Room;
  }

  lemma OpenLives(a: Adapter, e: SdkEvent)
    requires Agree(a) && a.captured.Real() && (e.kind == SdkIncoming || e.kind == SdkOutgoing)
    ensures CallOpened(a, a.captured, e).captured.Real() <==>
            && a.sipRegistered && e.up && e.stillUp
            && e.call != 0 && a.activeCall == 0 && e.call !in a.seen && |a.seen| < MAX_CALLS && Room(a)
  {
    var kind := if e.kind == SdkIncoming then CallIncoming else CallOutgoing;
    OwnerIsAccount(a);
    OnlyOverflowRefuses(a, e, kind);
    StartMints(a, kind);
    hide PublishedStart, Rejected, Agree, Room, Active;
  }

  lemma MoveLives(a: Adapter, e: SdkEvent)
    requires Agree(a) && a.captured.Real() && (e.kind == SdkEstablished || e.kind == SdkClosed)
    ensures CallMoved(a, a.captured, e).captured.Real() <==> e.call != 0 && e.call == a.activeCall && Room(a)
  {
    OnlyOverflowRefuses(a, e, if e.kind == SdkEstablished then CallEstablished else CallClosed);
    hide PublishedChange, Rejected, Agree, Room;
  }

  // Any other event ends the session.
  lemma {:induction false} LivesOnExactlyWhen(a: Adapter, e: SdkEvent)
    requires Agree(a) && a.captured.Real()
    ensures CalledBack(a, a.captured, e).captured.Real() <==> Harmless(a, e)
    ensures !Harmless(a, e) ==> CalledBack(a, a.captured, e).captured == NOBODY
  {
    SameEpochs(a, a.captured, e);
    OwnerIsAccount(a);
    hide IsLive, RegistrationSeen, CallOpened, CallMoved, Agree, Room, Active;
    match e.kind
    case SdkRegistering => RegistrationLives(a, e, RegisterStarted);
    case SdkRegisterOk => RegistrationLives(a, e, RegisterOk);
    case SdkRegisterFail => RegistrationLives(a, e, RegisterFail);
    case SdkUnregistering => RegistrationLives(a, e, EventKind.Unregistering);
    case SdkIncoming | SdkOutgoing => OpenLives(a, e);
    case SdkEstablished | SdkClosed => MoveLives(a, e);
    case _ =>
  }

  // The one event that only leaves a mark: the call it is about was transferred
  // in vain.
  lemma TransferFailureTells(a: Adapter, e: SdkEvent)
    requires Agree(a) && a.captured.Real() && e.kind == SdkTransferFailed && e.present && e.ua == a.owner
    ensures var vain := a.flags.transferAttempted && a.activeCall != 0 && e.call == a.activeCall;
            CalledBack(a, a.captured, e) == a.(flags := a.flags.(transferFailed := vain || a.flags.transferFailed))
  {
    OwnerIsAccount(a);
    hide IsLive, Agree;
  }

  lemma StartMints(a: Adapter, kind: EventKind)
    requires Agree(a) && a.captured.Real() && Opens(kind)
    ensures a.owner != 0 && a.nativeKey <= MAX_CALLS
    ensures var r := PublishedStart(a.l, a.captured, a.nativeKey + 1, kind);
            r.1 ==> r.0.ingress.activeToken != 0
  {
  }

  // --- Commands on what is shown ---------------------------------------------

  // What the story so far has room for.
  predicate RoomFor(s: Story, c: NativeCommand) {
    match c.action
    case DialAction => s.status == Registered && s.call == 0
    case AnswerAction => s.status == Ringing && s.call != 0
    case HangupAction => s.call != 0
    case SetMute | SetHold | TransferAction => s.status == InCall && s.call != 0
    // One of the twelve keys of a telephone.
    case Dtmf => s.status == InCall && s.call != 0 && c.destination in
        {[48], [49], [50], [51], [52], [53], [54], [55], [56], [57], [42], [35]}
    case NoAction => false
  }

  lemma OneKey(d: Bytes)
    ensures (|d| == 1 && DtmfKey(d[0])) <==>
            d in {[48], [49], [50], [51], [52], [53], [54], [55], [56], [57], [42], [35]}
  {
    if |d| == 1 {
      assert d == [d[0]];
    }
  }

  // After any run, on a screen that shows the live session as verified, a command
  // is current exactly when it names this session and this call, and what the SDK
  // said has room for it.
  lemma CommandsFollowTheStory(ops: seq<PipeOp>, up: bool, c: NativeCommand)
    requires Plausible(NEW_PIPE, ops)
    ensures var x := Shown(PipeRun(NEW_PIPE, ops), up);
            var o := x.owner.p.Snapshot();
            x.a.captured.Real() && ProofIsCurrent(o, x.a.captured.session) ==>
              (IsCurrent(c, o) <==>
               c.session == x.a.captured.session && c.callId == x.a.activeToken && RoomFor(Said(ops, x.a.captured), c))
  {
    ShownStatusIsWhatWasSaid(ops, up);
    ShownCallIsTheAdapters(ops, up);
    var x := Shown(PipeRun(NEW_PIPE, ops), up);
    ShownIsConsistent(ops, up);
    OneKey(c.destination);
    hide Said, Shown, PipeRun, Plausible, DtmfKey;
  }

  lemma ShownIsConsistent(ops: seq<PipeOp>, up: bool)
    requires Plausible(NEW_PIPE, ops)
    ensures CallConsistent(Shown(PipeRun(NEW_PIPE, ops), up).owner.p.Snapshot())
  {
    NewPipeInv();
    PipeRunKeepsInv(NEW_PIPE, ops);
    ShowKeepsInv(PipeRun(NEW_PIPE, ops), up);
    hide PipeRun, Plausible, Shown, Agree, Tracks;
  }
}
