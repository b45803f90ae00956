// The owner's view of native events, and the commands it still lets through.
module NativeSessionControl {
  import opened Common
  import opened SipRuntime
  import opened EventReducer
  import opened EventIdentity
  import opened EventMailbox
  import opened EventProjection

  // --- Registration refreshes ------------------------------------------------

  // A confirmed registration is refreshed without a new REGISTERING.
  predicate IsRefresh(o: Observation, session: U64, confirmed: bool, e: NativeEvent) {
    && confirmed && Live(o.sip) && ProofIsCurrent(o, session)
    && e.kind == RegisterOk && e.session == session && e.callId == 0
  }

  function Next(p: Projection, b: Batch, events: seq<NativeEvent>): Projection {
    Observe(p, Running, VerifiedNativeApi, Cut(b, events))
  }

  function AfterOne(p: Projection, b: Batch, confirmed: bool, e: NativeEvent): Projection {
    if IsRefresh(p.Snapshot(), b.session, confirmed, e) then p else Next(p, b, [e])
  }

  function AfterEach(p: Projection, b: Batch, confirmed: bool, events: seq<NativeEvent>): Projection
    decreases |events|
  {
    if events == [] then p
    else AfterEach(AfterOne(p, b, confirmed, events[0]), b, confirmed, events[1..])
  }

  const REVOKED_BATCH := Batch([], 0, false)

  // Without confirmation nothing may look registered.
  function Confirmed(p: Projection, confirmed: bool): Projection {
    if Live(p.Snapshot().sip) && !confirmed then Observe(p, ProcessFailed, NoEvidence, REVOKED_BATCH) else p
  }

  function ProjectSdk(p: Projection, b: Batch, confirmed: bool): Projection {
    if Sized(b).overflow then Observe(Next(p, b, []), Running, VerifiedNativeApi, b)
    else Confirmed(AfterEach(Next(p, b, []), b, confirmed, b.events), confirmed)
  }

  method ProjectNativeSdkBatch(projection: SipProjection, batch: Batch, confirmed: bool) returns (shown: Observation)
    modifies projection, projection.legacy
    ensures projection.State() == ProjectSdk(old(projection.State()), batch, confirmed)
    ensures shown == projection.State().Snapshot()
  {
    shown := projection.ObserveBatch(Running, VerifiedNativeApi, Cut(batch, []));
    if batch.overflow || |batch.events| > MAILBOX_CAPACITY {
      shown := projection.ObserveBatch(Running, VerifiedNativeApi, batch);
      return;
    }
    ghost var whole := AfterEach(projection.State(), batch, confirmed, batch.events);
    assert batch.events[0..] == batch.events;
    for i := 0 to |batch.events|
      invariant shown == projection.State().Snapshot()
      invariant whole == AfterEach(projection.State(), batch, confirmed, batch.events[i..])
    {
      hide Observe;
      var e := batch.events[i];
      assert batch.events[i..][0] == e && batch.events[i..][1..] == batch.events[i + 1..];
      var live := shown.sip == Registered || shown.sip == Calling || shown.sip == Ringing || shown.sip == InCall;
      if confirmed && live && ProofIsCurrent(shown, batch.session) && e.kind == RegisterOk &&
         e.session == batch.session && e.callId == 0 {
        continue;
      }
      shown := projection.ObserveBatch(Running, VerifiedNativeApi, Cut(batch, [e]));
    }
    var live := shown.sip == Registered || shown.sip == Calling || shown.sip == Ringing || shown.sip == InCall;
    if live && !confirmed {
      shown := projection.ObserveBatch(ProcessFailed, NoEvidence, REVOKED_BATCH);
    }
  }

  // --- Cuts do not matter here either ----------------------------------------

  ghost predicate ProjectionInv(p: Projection) {
    BoundInv(p.identity.bound)
  }

  lemma NextCut(p: Projection, b: Batch, x: seq<NativeEvent>, y: seq<NativeEvent>)
    requires ProjectionInv(p) && |x + y| <= MAILBOX_CAPACITY
    ensures ProjectionInv(Next(p, b, x))
    ensures Next(p, b, x + y) == Next(Next(p, b, x), b, y)
  {
    assert Sized(Cut(b, x)) == Cut(b, x) && Sized(Cut(b, y)) == Cut(b, y) && Sized(Cut(b, x + y)) == Cut(b, x + y);
    if p.identityMode {
      var account := p.identity.bound.expectedAccountToken;
      IdentCut(p.identity, Running, VerifiedNativeApi, b, account, x, y);
      IdentKeepsBoundInv(p.identity, Running, VerifiedNativeApi, Cut(b, x), account);
      ForgottenAccount(p.identity, Cut(b, x), Cut(b, y), account);
    } else {
      LegacyCut(p.legacy, Running, VerifiedNativeApi, b, x, y);
    }
    hide LegacyFollow, IdentFollow;
  }

  // Once the bound account was dropped, not even naming it again would help.
  lemma ForgottenAccount(p: Ident, x: Batch, y: Batch, account: U64)
    requires BoundInv(p.bound) && x.session == y.session && x.overflow == y.overflow
    requires account == p.bound.expectedAccountToken
    ensures var next := IdentFollow(p, Running, VerifiedNativeApi, x, account);
            IdentFollow(next, Running, VerifiedNativeApi, y, account) ==
            IdentFollow(next, Running, VerifiedNativeApi, y, next.bound.expectedAccountToken)
  {
    RunKeepsBoundInv(IdentStart(p, x.session, account), x.session, x.events);
    hide IdentifiedAll;
  }

  // The events that are not refreshes of a confirmed registration.
  function Kept(p: Projection, b: Batch, confirmed: bool, events: seq<NativeEvent>): (r: seq<NativeEvent>)
    ensures |r| <= |events|
    decreases |events|
  {
    if events == [] then []
    else
      var later := Kept(AfterOne(p, b, confirmed, events[0]), b, confirmed, events[1..]);
      if IsRefresh(p.Snapshot(), b.session, confirmed, events[0]) then later else [events[0]] + later
  }

  predicate Settled(p: Projection, b: Batch) {
    Next(p, b, []) == p
  }

  // Dropping the refreshes and observing the rest one by one is observing the
  // rest in one batch.
  lemma {:induction false} RefreshesAreInvisible(p: Projection, b: Batch, confirmed: bool, events: seq<NativeEvent>)
    requires ProjectionInv(p) && Settled(p, b) && |events| <= MAILBOX_CAPACITY
    ensures AfterEach(p, b, confirmed, events) == Next(p, b, Kept(p, b, confirmed, events))
    ensures ProjectionInv(AfterEach(p, b, confirmed, events)) && Settled(AfterEach(p, b, confirmed, events), b)
    decreases |events|
  {
    hide Next;
    if events != [] {
      var e, rest := events[0], events[1..];
      var one := AfterOne(p, b, confirmed, e);
      if !IsRefresh(p.Snapshot(), b.session, confirmed, e) {
        NextCut(p, b, [e], []);
        assert [e] + [] == [e];
        NextCut(p, b, [e], Kept(one, b, confirmed, rest));
      }
      RefreshesAreInvisible(one, b, confirmed, rest);
    }
  }

  lemma {:induction false} AfterEachConcat(p: Projection, b: Batch, confirmed: bool, x: seq<NativeEvent>, y: seq<NativeEvent>)
    ensures AfterEach(p, b, confirmed, x + y) == AfterEach(AfterEach(p, b, confirmed, x), b, confirmed, y)
    decreases |x|
  {
    hide AfterOne;
    if x == [] {
      assert x + y == y;
    } else {
      assert (x + y)[1..] == x[1..] + y;
      AfterEachConcat(AfterOne(p, b, confirmed, x[0]), b, confirmed, x[1..], y);
    }
  }

  lemma StartIsSettled(p: Projection, b: Batch)
    requires ProjectionInv(p)
    ensures ProjectionInv(Next(p, b, [])) && Settled(Next(p, b, []), b)
  {
    var none: seq<NativeEvent> := [];
    NextCut(p, b, none, none);
    assert none + none == none;
    hide Next;
  }

  // What the owner sees before confirmation is decided, over a whole stretch
  // and over the stretch cut in two.
  lemma CutsBeforeConfirmation(p: Projection, b: Batch, confirmed: bool, x: seq<NativeEvent>, y: seq<NativeEvent>)
    requires ProjectionInv(p) && |x + y| <= MAILBOX_CAPACITY
    ensures var mid := AfterEach(Next(p, b, []), b, confirmed, x);
            && ProjectionInv(mid) && Settled(mid, b)
            && AfterEach(Next(p, b, []), b, confirmed, x + y) == AfterEach(mid, b, confirmed, y)
  {
    hide Next, AfterEach;
    StartIsSettled(p, b);
    RefreshesAreInvisible(Next(p, b, []), b, confirmed, x);
    AfterEachConcat(Next(p, b, []), b, confirmed, x, y);
  }

  // A confirmed registration is shown the same however its events were drained.
  lemma ConfirmedCutsAgree(p: Projection, b: Batch, x: seq<NativeEvent>, y: seq<NativeEvent>)
    requires ProjectionInv(p) && !b.overflow && |x + y| <= MAILBOX_CAPACITY
    ensures ProjectSdk(p, Cut(b, x + y), true) == ProjectSdk(ProjectSdk(p, Cut(b, x), true), Cut(b, y), true)
  {
    CutsBeforeConfirmation(p, b, true, x, y);
    SameCut(p, b, x + y, true);
    SameCut(p, b, x, true);
    SameCut(ProjectSdk(p, Cut(b, x), true), b, y, true);
    hide Next, AfterEach;
  }

  // Only the session and the overflow flag of a batch matter beside its events.
  lemma {:induction false} SameEach(p: Projection, b: Batch, c: Batch, confirmed: bool, events: seq<NativeEvent>)
    requires Cut(b, []) == Cut(c, [])
    ensures AfterEach(p, b, confirmed, events) == AfterEach(p, c, confirmed, events)
    decreases |events|
  {
    hide Observe;
    if events != [] {
      assert Cut(b, [events[0]]) == Cut(c, [events[0]]);
      SameEach(AfterOne(p, b, confirmed, events[0]), b, c, confirmed, events[1..]);
    }
  }

  lemma SameCut(p: Projection, b: Batch, events: seq<NativeEvent>, confirmed: bool)
    requires !b.overflow && |events| <= MAILBOX_CAPACITY
    ensures ProjectSdk(p, Cut(b, events), confirmed) ==
            Confirmed(AfterEach(Next(p, b, []), b, confirmed, events), confirmed)
  {
    SameEach(Next(p, b, []), Cut(b, events), b, confirmed, events);
    hide Observe, AfterEach, Confirmed;
  }

  // Nothing looks registered, or in a call, unless registration was confirmed.
  lemma UnconfirmedIsNeverLive(p: Projection, b: Batch)
    requires ProjectionInv(p)
    ensures !Live(ProjectSdk(p, b, false).Snapshot().sip)
  {
    hide AfterEach, ReduceAll, IdentifiedAll;
  }

  // --- What an unconfirmed cut shows ------------------------------------------

  // The projection that has lost the session.
  function Lost(p: Projection, process: RuntimeProcess, session: U64): Projection {
    if p.identityMode then p.(identity := Ident(Invalidated(process), session))
    else p.(legacy := Legacy(Untrusted(process), session))
  }

  // The registration looks live where the stream is cut.
  predicate LiveAtCut(mid: Projection) { Live(mid.Snapshot().sip) }

  // The rest of the stream is applied to its last event.
  predicate RestApplies(mid: Projection, session: U64, rest: seq<NativeEvent>) {
    if mid.identityMode then IdentifiedAll(mid.identity.bound, session, rest).1
    else ReduceAll(mid.legacy.state, session, rest).1
  }

  // Without confirmation no event is taken for a refresh.
  lemma {:induction false} NothingSkipped(p: Projection, b: Batch, events: seq<NativeEvent>)
    ensures Kept(p, b, false, events) == events
    decreases |events|
  {
    hide AfterOne;
    if events != [] {
      NothingSkipped(AfterOne(p, b, false, events[0]), b, events[1..]);
      assert [events[0]] + events[1..] == events;
    }
  }

  lemma SettledLiveIsBound(p: Projection, b: Batch)
    requires Settled(p, b) && LiveAtCut(p) && !b.overflow && b.session != 0
    ensures p.Snapshot().session == b.session && p.Snapshot().evidence == VerifiedNativeApi
    ensures p.identityMode ==> p.identity.rejected != b.session && p.identity.bound.expectedAccountToken != 0
    ensures !p.identityMode ==> p.legacy.rejected != b.session
  {
    hide ReduceAll, IdentifiedAll;
    EmptyReduces(LegacyStart(p.legacy, Running, b.session), b.session);
    EmptyIdentifies(IdentStart(p.identity, b.session, p.identity.bound.expectedAccountToken), b.session);
  }

  lemma EmptyIdentifies(b: BoundState, session: U64)
    ensures IdentifiedAll(b, session, []) == (b, true)
  {
  }

  lemma LiveGoesOnOrIsLost(p: Projection, b: Batch, events: seq<NativeEvent>)
    requires Settled(p, b) && LiveAtCut(p) && !b.overflow && b.session != 0 && |events| <= MAILBOX_CAPACITY
    requires ProjectionInv(p)
    ensures !RestApplies(p, b.session, events) ==> Next(p, b, events) == Lost(p, Running, b.session)
    ensures RestApplies(p, b.session, events) ==>
              Next(p, b, events).identityMode == p.identityMode && Next(p, b, events).Snapshot().session == b.session
  {
    SettledLiveIsBound(p, b);
    ReduceAllKeepsProof(p.legacy.state, b.session, events);
    RunKeepsBoundInv(p.identity.bound, b.session, events);
    hide ReduceAll, IdentifiedAll, Settled;
  }

  lemma {:induction false} StaysLost(p: Projection, b: Batch, confirmed: bool, events: seq<NativeEvent>)
    requires p == Lost(p, Running, b.session) && b.session != 0
    ensures AfterEach(p, b, confirmed, events) == p
    decreases |events|
  {
    if events != [] {
      StaysLost(p, b, confirmed, events[1..]);
    }
  }

  // Revoking what is live, and showing anything more of its session.
  lemma RevokedCutIsLost(mid: Projection, b: Batch, events: seq<NativeEvent>)
    requires Settled(mid, b) && LiveAtCut(mid) && !b.overflow && b.session != 0
    ensures Confirmed(mid, false) == Lost(mid, ProcessFailed, b.session)
    ensures Confirmed(AfterEach(Next(Confirmed(mid, false), b, []), b, false, events), false) == Lost(mid, Running, b.session)
  {
    SettledLiveIsBound(mid, b);
    var lost := Lost(mid, Running, b.session);
    assert Next(Lost(mid, ProcessFailed, b.session), b, []) == lost;
    StaysLost(lost, b, false, events);
    hide AfterEach, ReduceAll, IdentifiedAll, Settled;
  }

  // Without confirmation a cut changes the outcome exactly when the registration
  // looked live there and the rest of the stream is applied. In both modes.
  lemma UnconfirmedCutsAgreeExactlyWhen(p: Projection, b: Batch, x: seq<NativeEvent>, y: seq<NativeEvent>)
    requires ProjectionInv(p) && !b.overflow && b.session != 0 && |x + y| <= MAILBOX_CAPACITY
    ensures var mid := AfterEach(Next(p, b, []), b, false, x);
            ProjectSdk(p, Cut(b, x + y), false) == ProjectSdk(ProjectSdk(p, Cut(b, x), false), Cut(b, y), false) <==>
            !(LiveAtCut(mid) && RestApplies(mid, b.session, y))
  {
    hide AfterEach, Next, Kept, RestApplies;
    var mid := AfterEach(Next(p, b, []), b, false, x);
    CutsBeforeConfirmation(p, b, false, x, y);
    SameCut(p, b, x + y, false);
    SameCut(p, b, x, false);
    SameCut(ProjectSdk(p, Cut(b, x), false), b, y, false);
    RefreshesAreInvisible(mid, b, false, y);
    NothingSkipped(mid, b, y);
    hide ProjectSdk;
    if LiveAtCut(mid) {
      LiveGoesOnOrIsLost(mid, b, y);
      RevokedCutIsLost(mid, b, y);
      WholeDiffers(mid, Next(mid, b, y), b.session);
      hide Confirmed, Settled, Lost;
    }
  }

  // An applied rest never ends as the cut one does.
  lemma WholeDiffers(mid: Projection, whole: Projection, session: U64)
    requires session != 0 && mid.identityMode == whole.identityMode
    ensures whole == Lost(mid, Running, session) ==> Confirmed(whole, false) == whole
    ensures whole.Snapshot().session == session ==> Confirmed(whole, false) != Lost(mid, Running, session)
  {
  }

  // The failing input: REGISTERING and REGISTER_OK, cut there, UNREGISTERING.
  lemma UnconfirmedCutShows()
    ensures var x, y := [OfSessionOne(RegisterStarted), OfSessionOne(RegisterOk)], [OfSessionOne(Unregistering)];
            ProjectSdk(NEW_PROJECTION, Batch(x + y, 1, false), false) !=
            ProjectSdk(ProjectSdk(NEW_PROJECTION, Batch(x, 1, false), false), Batch(y, 1, false), false)
  {
    var b := Batch([], 1, false);
    var x, y := [OfSessionOne(RegisterStarted), OfSessionOne(RegisterOk)], [OfSessionOne(Unregistering)];
    assert Cut(b, x + y) == Batch(x + y, 1, false) && Cut(b, x) == Batch(x, 1, false) && Cut(b, y) == Batch(y, 1, false);
    UnconfirmedCutsAgreeExactlyWhen(NEW_PROJECTION, b, x, y);
    RegisteredThenUnregistered();
    hide ProjectSdk, AfterEach, RestApplies, LiveAtCut;
  }

  function OfSessionOne(kind: EventKind): NativeEvent { NativeEvent(kind, 1, 0, 0, 0) }

  lemma RegisteredThenUnregistered()
    ensures var b, x, y := Batch([], 1, false), [OfSessionOne(RegisterStarted), OfSessionOne(RegisterOk)], [OfSessionOne(Unregistering)];
            var mid := AfterEach(Next(NEW_PROJECTION, b, []), b, false, x);
            LiveAtCut(mid) && RestApplies(mid, 1, y)
  {
    var b, x := Batch([], 1, false), [OfSessionOne(RegisterStarted), OfSessionOne(RegisterOk)];
    var start := Fresh(Running, 1);
    EmptyReduces(start, 1);
    var started := Next(NEW_PROJECTION, b, []);
    assert started.legacy == Legacy(start, 0) && !started.identityMode;
    var one := Next(started, b, [x[0]]);
    OneReduces(start, x[0]);
    var o1 := AfterEvent(start, x[0]);
    assert one.legacy == Legacy(o1, 0);
    OneReduces(o1, x[1]);
    var two := Next(one, b, [x[1]]);
    assert two.legacy == Legacy(AfterEvent(o1, x[1]), 0);
    TwoEach(started, b, x[0], x[1]);
    OneReduces(two.legacy.state, OfSessionOne(Unregistering));
    hide ReduceAll;
  }

  lemma OneReduces(o: Observation, e: NativeEvent)
    ensures ReduceAll(o, 1, [e]) == if Verdict(o, 1, e) == Applied then (AfterEvent(o, e), true) else (o, false)
  {
    assert [e][1..] == [];
  }

  lemma TwoEach(p: Projection, b: Batch, d: NativeEvent, e: NativeEvent)
    ensures AfterEach(p, b, false, [d, e]) == Next(Next(p, b, [d]), b, [e])
  {
    hide Next;
    assert [d, e][1..] == [e] && [e][1..] == [];
    assert AfterEach(AfterOne(p, b, false, d), b, false, [e]) == AfterEach(AfterOne(AfterOne(p, b, false, d), b, false, e), b, false, []);
  }

  lemma {:induction false} KeepsMode(p: Projection, b: Batch, confirmed: bool, events: seq<NativeEvent>)
    requires !p.identityMode
    ensures !AfterEach(p, b, confirmed, events).identityMode
    ensures AfterEach(p, b, confirmed, events).identity == p.identity
    decreases |events|
  {
    hide LegacyObserve;
    if events != [] {
      KeepsMode(AfterOne(p, b, confirmed, events[0]), b, confirmed, events[1..]);
    }
  }

  lemma EmptyReduces(o: Observation, session: U64)
    ensures ReduceAll(o, session, []) == (o, true)
  {
  }

  lemma {:induction false} StaysRejected(p: Projection, b: Batch, confirmed: bool, events: seq<NativeEvent>)
    requires !p.identityMode && p.legacy == Legacy(Untrusted(Running), b.session) && b.session != 0
    ensures AfterEach(p, b, confirmed, events) == p
    decreases |events|
  {
    if events != [] {
      StaysRejected(p, b, confirmed, events[1..]);
    }
  }

  // --- Commands --------------------------------------------------------------

  datatype NativeAction = NoAction | DialAction | AnswerAction | HangupAction | SetMute | SetHold | TransferAction | Dtmf
  datatype NativeCommand = NativeCommand(action: NativeAction, session: U64, callId: U64, destination: Bytes, desired: bool)

  predicate DtmfKey(c: Byte) {
    48 <= c <= 57 || c == 42 || c == 35
  }

  predicate IsCurrent(c: NativeCommand, o: Observation) {
    && ProofIsCurrent(o, c.session) && c.callId == o.callId
    && match c.action
       case DialAction => o.sip == Registered && o.callId == 0
       case AnswerAction => o.sip == Ringing && o.callId != 0
       case Dtmf => o.sip == InCall && o.callId != 0 && |c.destination| == 1 && DtmfKey(c.destination[0])
       case TransferAction | SetMute | SetHold => o.sip == InCall && o.callId != 0
       case HangupAction => o.callId != 0 && HasCall(o.sip)
       case NoAction => false
  }

  // A call action on what was on the screen, if it still applies now.
  predicate DisplayedIsCurrent(action: NativeAction, displayed: Observation, current: Observation) {
    && (action == AnswerAction || action == HangupAction)
    && IsCurrent(NativeCommand(action, displayed.session, displayed.callId, [], false), displayed)
    && IsCurrent(NativeCommand(action, displayed.session, displayed.callId, [], false), current)
  }

  // Acting on the screen acts on the very call it showed.
  lemma DisplayedMeansTheSameCall(action: NativeAction, displayed: Observation, current: Observation)
    requires CallConsistent(displayed) && CallConsistent(current)
    ensures DisplayedIsCurrent(action, displayed, current) <==>
            && (action == AnswerAction || action == HangupAction)
            && displayed.session != 0 && ProofIsCurrent(displayed, displayed.session)
            && ProofIsCurrent(current, displayed.session)
            && displayed.lastCallId == current.lastCallId
            && (if action == AnswerAction then displayed.sip == Ringing && current.sip == Ringing
                else HasCall(displayed.sip) && HasCall(current.sip))
  {
  }

  // --- Each call is answered, ended and transferred once ---------------------

  datatype CallKey = CallKey(session: U64, call: U64)

  predicate Before(a: CallKey, b: CallKey) {
    a.session < b.session || (a.session == b.session && a.call < b.call)
  }

  datatype Granted = Granted(answer: CallKey, hangup: CallKey, transfer: CallKey)

  const NOTHING_GRANTED := Granted(CallKey(0, 0), CallKey(0, 0), CallKey(0, 0))

  predicate Once(a: NativeAction) {
    a == AnswerAction || a == HangupAction || a == TransferAction
  }

  function LastGranted(g: Granted, a: NativeAction): CallKey
    requires Once(a)
  {
    if a == AnswerAction then g.answer else if a == HangupAction then g.hangup else g.transfer
  }

  function Key(c: NativeCommand): CallKey { CallKey(c.session, c.callId) }

  predicate Admits(g: Granted, c: NativeCommand, o: Observation) {
    IsCurrent(c, o) && (Once(c.action) ==> LastGranted(g, c.action) != Key(c))
  }

  function Admitted(g: Granted, c: NativeCommand, o: Observation): Granted {
    if !Admits(g, c, o) then g
    else if c.action == AnswerAction then g.(answer := Key(c))
    else if c.action == HangupAction then g.(hangup := Key(c))
    else if c.action == TransferAction then g.(transfer := Key(c))
    else g
  }

  class CommandAdmission {
    var answerSession: U64
    var answerCall: U64
    var hangupSession: U64
    var hangupCall: U64
    var transferSession: U64
    var transferCall: U64

    ghost function State(): Granted
      reads this
    {
      Granted(CallKey(answerSession, answerCall), CallKey(hangupSession, hangupCall), CallKey(transferSession, transferCall))
    }

    constructor ()
      ensures State() == NOTHING_GRANTED
    {
      answerSession, answerCall, hangupSession, hangupCall, transferSession, transferCall := 0, 0, 0, 0, 0, 0;
    }

    method Admit(c: NativeCommand, o: Observation) returns (ok: bool)
      modifies this
      ensures ok == Admits(old(State()), c, o) && State() == Admitted(old(State()), c, o)
    {
      if !IsCurrent(c, o) { return false; }
      if c.action == AnswerAction {
        if answerSession == c.session && answerCall == c.callId { return false; }
        answerSession, answerCall := c.session, c.callId;
      }
      if c.action == HangupAction {
        if hangupSession == c.session && hangupCall == c.callId { return false; }
        hangupSession, hangupCall := c.session, c.callId;
      }
      if c.action == TransferAction {
        if transferSession == c.session && transferCall == c.callId { return false; }
        transferSession, transferCall := c.session, c.callId;
      }
      return true;
    }
  }

  // The owner's life: it drains its one mailbox, and commands arrive.
  datatype OwnerOp =
    | Drain(process: RuntimeProcess, evidence: SipEvidence, batch: Batch)
    | DrainSdk(batch: Batch, confirmed: bool)
    | Ask(c: NativeCommand)

  datatype Owner = Owner(p: Projection, floor: U64, granted: Granted)

  function GateOf(p: Projection): Gate {
    if p.identityMode then IdentGate(p.identity) else LegacyGate(p.legacy)
  }

  // One mailbox's drains never go back to an earlier session.
  predicate Drainable(floor: U64, op: OwnerOp) {
    op.Ask? || op.batch.session == 0 || floor <= op.batch.session
  }

  function Serve(o: Owner, op: OwnerOp): Owner {
    match op
    case Drain(process, evidence, b) => Owner(Observe(o.p, process, evidence, b), Higher(o.floor, b), o.granted)
    case DrainSdk(b, confirmed) => Owner(ProjectSdk(o.p, b, confirmed), Higher(o.floor, b), o.granted)
    case Ask(c) => o.(granted := Admitted(o.granted, c, o.p.Snapshot()))
  }

  predicate AllDrainable(floor: U64, ops: seq<OwnerOp>)
    decreases |ops|
  {
    ops == [] ||
    (Drainable(floor, ops[0]) && AllDrainable(if ops[0].Ask? then floor else Higher(floor, ops[0].batch), ops[1..]))
  }

  // The commands let through, in order.
  function Passed(o: Owner, ops: seq<OwnerOp>): seq<NativeCommand>
    decreases |ops|
  {
    if ops == [] then []
    else
      var later := Passed(Serve(o, ops[0]), ops[1..]);
      if ops[0].Ask? && Admits(o.granted, ops[0].c, o.p.Snapshot()) then [ops[0].c] + later else later
  }

  // A granted key is behind what is on show, or of a session that is gone.
  predicate Behind(g: Gate, floor: U64, k: CallKey) {
    k.session != 0 ==>
      Dead(g, floor, k.session) || (g.o.session == k.session && k.call <= g.o.lastCallId)
  }

  predicate OwnerInv(o: Owner) {
    var g := GateOf(o.p);
    && GateInv(g, o.floor) && BoundInv(o.p.identity.bound)
    && Behind(g, o.floor, o.granted.answer) && Behind(g, o.floor, o.granted.hangup) && Behind(g, o.floor, o.granted.transfer)
  }

  lemma ObserveMoves(p: Projection, floor: U64, process: RuntimeProcess, evidence: SipEvidence, b: Batch)
    requires GateInv(GateOf(p), floor) && BoundInv(p.identity.bound) && (b.session == 0 || floor <= b.session)
    ensures var q := Observe(p, process, evidence, b);
            && q.identityMode == p.identityMode && BoundInv(q.identity.bound)
            && GateMove(GateOf(p), floor, GateOf(q), Higher(floor, b))
  {
    hide LegacyObserve, IdentObserve, GateMove, GateInv;
    if p.identityMode {
      IdentMoves(p.identity, floor, process, evidence, b, p.identity.bound.expectedAccountToken);
    } else {
      LegacyMoves(p.legacy, floor, process, evidence, b);
    }
  }

  // Observing a second time under the same session moves on from where it was.
  lemma ObserveAgain(g: Gate, floor: U64, p: Projection, process: RuntimeProcess, evidence: SipEvidence, b: Batch, top: U64)
    requires GateMove(g, floor, GateOf(p), top) && BoundInv(p.identity.bound)
    requires b.session == 0 || b.session == top
    ensures var q := Observe(p, process, evidence, b);
            BoundInv(q.identity.bound) && GateMove(g, floor, GateOf(q), top)
  {
    ObserveMoves(p, top, process, evidence, b);
    MovesCompose(g, floor, GateOf(p), top, GateOf(Observe(p, process, evidence, b)), top);
    hide Observe, GateMove;
  }

  lemma {:induction false} EachMoves(g: Gate, floor: U64, p: Projection, b: Batch, confirmed: bool, events: seq<NativeEvent>, top: U64)
    requires GateMove(g, floor, GateOf(p), top) && BoundInv(p.identity.bound) && (b.session == 0 || b.session == top)
    ensures var q := AfterEach(p, b, confirmed, events);
            BoundInv(q.identity.bound) && GateMove(g, floor, GateOf(q), top)
    decreases |events|
  {
    hide Observe, GateMove, GateOf;
    if events != [] {
      ObserveAgain(g, floor, p, Running, VerifiedNativeApi, Cut(b, [events[0]]), top);
      EachMoves(g, floor, AfterOne(p, b, confirmed, events[0]), b, confirmed, events[1..], top);
    }
  }

  lemma SdkMoves(p: Projection, floor: U64, b: Batch, confirmed: bool)
    requires GateInv(GateOf(p), floor) && BoundInv(p.identity.bound) && (b.session == 0 || floor <= b.session)
    ensures var q := ProjectSdk(p, b, confirmed);
            BoundInv(q.identity.bound) && GateMove(GateOf(p), floor, GateOf(q), Higher(floor, b))
  {
    hide Observe, GateMove, GateOf, AfterEach;
    var g, top := GateOf(p), Higher(floor, b);
    var start := Next(p, b, []);
    ObserveMoves(p, floor, Running, VerifiedNativeApi, Cut(b, []));
    ObserveAgain(g, floor, start, Running, VerifiedNativeApi, b, top);
    EachMoves(g, floor, start, b, confirmed, b.events, top);
    ObserveAgain(g, floor, AfterEach(start, b, confirmed, b.events), ProcessFailed, NoEvidence, REVOKED_BATCH, top);
  }

  lemma BehindMoves(g: Gate, floor: U64, g': Gate, floor': U64, k: CallKey)
    requires GateMove(g, floor, g', floor') && Behind(g, floor, k)
    ensures Behind(g', floor', k)
  {
  }

  lemma ServeKeepsInv(o: Owner, op: OwnerOp)
    requires OwnerInv(o) && Drainable(o.floor, op)
    ensures OwnerInv(Serve(o, op))
  {
    hide Observe, ProjectSdk;
    var g := GateOf(o.p);
    if op.Ask? {
      hide GateInv, Behind, IsCurrent;
      if Admits(o.granted, op.c, o.p.Snapshot()) && Once(op.c.action) {
        GrantIsBehind(o, op.c);
      }
    } else {
      var next := Serve(o, op);
      if op.Drain? {
        ObserveMoves(o.p, o.floor, op.process, op.evidence, op.batch);
      } else {
        SdkMoves(o.p, o.floor, op.batch, op.confirmed);
      }
      var g', f' := GateOf(next.p), next.floor;
      BehindMoves(g, o.floor, g', f', o.granted.answer);
      BehindMoves(g, o.floor, g', f', o.granted.hangup);
      BehindMoves(g, o.floor, g', f', o.granted.transfer);
      hide Behind, BoundInv;
    }
  }

  lemma GrantIsBehind(o: Owner, c: NativeCommand)
    requires OwnerInv(o) && Admits(o.granted, c, o.p.Snapshot()) && Once(c.action)
    ensures Behind(GateOf(o.p), o.floor, Key(c))
    ensures Before(LastGranted(o.granted, c.action), Key(c))
  {
  }

  // Whatever is drained and asked, commands of one kind are let through for
  // strictly later calls only: each call is answered, ended and transferred at
  // most once.
  lemma {:induction false} AtMostOncePerCall(o: Owner, ops: seq<OwnerOp>, i: nat, j: nat)
    requires OwnerInv(o) && AllDrainable(o.floor, ops)
    requires i < j < |Passed(o, ops)|
    requires Passed(o, ops)[i].action == Passed(o, ops)[j].action && Once(Passed(o, ops)[i].action)
    ensures Before(Key(Passed(o, ops)[i]), Key(Passed(o, ops)[j]))
    decreases |ops|
  {
    var next := Serve(o, ops[0]);
    ServeKeepsInv(o, ops[0]);
    hide OwnerInv, Observe, ProjectSdk, Before, IsCurrent;
    if ops[0].Ask? && Admits(o.granted, ops[0].c, o.p.Snapshot()) {
      if i > 0 {
        AtMostOncePerCall(next, ops[1..], i - 1, j - 1);
      } else {
        LaterThanGranted(next, ops[1..], j - 1);
      }
    } else {
      AtMostOncePerCall(next, ops[1..], i, j);
    }
  }

  lemma {:induction false} LaterThanGranted(o: Owner, ops: seq<OwnerOp>, j: nat)
    requires OwnerInv(o) && AllDrainable(o.floor, ops)
    requires j < |Passed(o, ops)| && Once(Passed(o, ops)[j].action)
    ensures Before(LastGranted(o.granted, Passed(o, ops)[j].action), Key(Passed(o, ops)[j]))
    decreases |ops|
  {
    var next := Serve(o, ops[0]);
    ServeKeepsInv(o, ops[0]);
    if ops[0].Ask? && Admits(o.granted, ops[0].c, o.p.Snapshot()) {
      if Once(ops[0].c.action) {
        GrantIsBehind(o, ops[0].c);
      }
      if j > 0 {
        LaterThanGranted(next, ops[1..], j - 1);
      }
    } else {
      LaterThanGranted(next, ops[1..], j);
    }
    hide OwnerInv, Observe, ProjectSdk, IsCurrent;
  }

  lemma NewOwnerInv()
    ensures OwnerInv(Owner(NEW_PROJECTION, 0, NOTHING_GRANTED))
  {
  }
}
