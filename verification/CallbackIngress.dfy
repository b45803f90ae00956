// Where native callbacks enter: sessions, the selected account, and the tokens
// that stand for calls from here on.
module CallbackIngress {
  import opened Common
  import opened SipRuntime
  import opened EventReducer
  import opened EventMailbox

  datatype IngressState = IngressState(
    session: U64, account: U64,
    activeKey: U64, activeToken: U64, lastKey: U64, lastToken: U64,
    mailbox: MailboxState)

  // --- Specification ---------------------------------------------------------

  const NEW_INGRESS := IngressState(0, 0, 0, 0, 0, 0, NEW_MAILBOX)

  function Begun(s: IngressState, account: U64): IngressState {
    if account == 0 || s.session != 0 then s
    else
      var m := Began(s.mailbox);
      IngressState(m.session, if m.session != 0 then account else 0, 0, 0, 0, 0, m)
  }

  function Revoked(s: IngressState): IngressState {
    IngressState(0, 0, 0, 0, 0, 0, Shut(s.mailbox))
  }

  // A late callback of another session changes nothing; one of this session
  // that names another account ends it.
  predicate Late(s: IngressState, session: U64) {
    s.session == 0 || session != s.session
  }

  predicate Foreign(s: IngressState, account: U64) {
    account == 0 || account != s.account
  }

  function Message(s: IngressState, kind: EventKind, token: U64): NativeEvent {
    NativeEvent(kind, s.session, token, 0, 0)
  }

  // A step that the session's rules allow, once its event is in the box.
  function Emitted(s: IngressState, kind: EventKind, token: U64, after: IngressState): (IngressState, bool) {
    var e := Message(s, kind, token);
    if Accepts(s.mailbox, e) then (after.(mailbox := Enqueued(s.mailbox, e)), true) else (Revoked(s), false)
  }

  predicate RegistrationKind(k: EventKind) {
    !Opens(k) && !Continues(k)
  }

  function Registration(s: IngressState, session: U64, account: U64, kind: EventKind): (IngressState, bool) {
    if Late(s, session) then (s, false)
    else if Foreign(s, account) || !RegistrationKind(kind) then (Revoked(s), false)
    else Emitted(s, kind, 0, if kind == TransportLost then s.(activeKey := 0, activeToken := 0) else s)
  }

  predicate MayStart(s: IngressState, key: U64, kind: EventKind) {
    Opens(kind) && key != 0 && key > s.lastKey && s.activeKey == 0 && s.lastToken != MAX64
  }

  function CallStarted(s: IngressState, session: U64, account: U64, key: U64, kind: EventKind): (IngressState, bool) {
    if Late(s, session) then (s, false)
    else if Foreign(s, account) || !MayStart(s, key, kind) then (Revoked(s), false)
    else
      var token := s.lastToken + 1;
      Emitted(s, kind, token, s.(activeKey := key, activeToken := token, lastKey := key, lastToken := token))
  }

  predicate MayChange(s: IngressState, key: U64, kind: EventKind) {
    Continues(kind) && key != 0 && key == s.activeKey && s.activeToken != 0
  }

  function CallChanged(s: IngressState, session: U64, account: U64, key: U64, kind: EventKind): (IngressState, bool) {
    if Late(s, session) then (s, false)
    else if Foreign(s, account) || !MayChange(s, key, kind) then (Revoked(s), false)
    else Emitted(s, kind, s.activeToken, if kind == CallClosed then s.(activeKey := 0, activeToken := 0) else s)
  }

  // The box belongs to the ingress alone: nobody else begins or shuts it.
  predicate IngressInv(s: IngressState) {
    && MailboxInv(s.mailbox)
    && s.mailbox.session == s.session
    && (s.session != 0 ==> s.account != 0 && !s.mailbox.overflow)
    && (s.session == 0 ==> s.account == 0 && s.lastToken == 0 && s.lastKey == 0 && s.activeKey == 0)
    && (s.activeKey != 0 <==> s.activeToken != 0)
    && (s.activeToken != 0 ==> s.activeToken == s.lastToken && s.activeKey == s.lastKey)
  }

  // --- The code --------------------------------------------------------------

  class Ingress {
    const mailbox: Mailbox
    var session: U64
    var account: U64
    var activeKey: U64
    var activeToken: U64
    var lastKey: U64
    var lastToken: U64

    ghost predicate Valid()
      reads this, mailbox, mailbox.entries
    {
      mailbox.Valid()
    }

    ghost function State(): IngressState
      requires Valid()
      reads this, mailbox, mailbox.entries
    {
      IngressState(session, account, activeKey, activeToken, lastKey, lastToken, mailbox.State())
    }

    constructor (mailbox: Mailbox)
      requires mailbox.Valid()
      ensures Valid() && this.mailbox == mailbox
      ensures State() == IngressState(0, 0, 0, 0, 0, 0, mailbox.State())
    {
      this.mailbox := mailbox;
      session, account, activeKey, activeToken, lastKey, lastToken := 0, 0, 0, 0, 0, 0;
    }

    method BeginSession(validatedAccount: U64) returns (r: U64)
      requires Valid()
      modifies this, mailbox
      ensures Valid() && State() == Begun(old(State()), validatedAccount)
      ensures r == if validatedAccount == 0 || old(session) != 0 then 0 else State().session
    {
      if validatedAccount == 0 || session != 0 { return 0; }
      session := mailbox.BeginSession();
      account := if session != 0 then validatedAccount else 0;
      lastKey, lastToken, activeKey, activeToken := 0, 0, 0, 0;
      return session;
    }

    method Revoke()
      requires Valid()
      modifies this, mailbox
      ensures Valid() && State() == Revoked(old(State()))
    {
      mailbox.InvalidateSession();
      session, account, activeKey, activeToken, lastKey, lastToken := 0, 0, 0, 0, 0, 0;
    }

    method Admit(callbackSession: U64, callbackAccount: U64) returns (ok: bool)
      requires Valid()
      modifies this, mailbox
      ensures Valid() && ok == (!Late(old(State()), callbackSession) && !Foreign(old(State()), callbackAccount))
      ensures State() == if ok || Late(old(State()), callbackSession) then old(State()) else Revoked(old(State()))
    {
      if session == 0 || callbackSession != session { return false; }
      if callbackAccount == 0 || callbackAccount != account {
        Revoke();
        return false;
      }
      return true;
    }

    method EnqueueEvent(kind: EventKind, token: U64) returns (ok: bool)
      requires Valid()
      modifies this, mailbox, mailbox.entries
      ensures Valid() && (State(), ok) == Emitted(old(State()), kind, token, old(State()))
    {
      ok := mailbox.Enqueue(NativeEvent(kind, session, token, 0, 0));
      if ok { return true; }
      Revoke();
    }

    method RegistrationEvent(callbackSession: U64, callbackAccount: U64, kind: EventKind) returns (ok: bool)
      requires Valid()
      modifies this, mailbox, mailbox.entries
      ensures Valid() && (State(), ok) == Registration(old(State()), callbackSession, callbackAccount, kind)
    {
      ok := Admit(callbackSession, callbackAccount);
      if !ok { return false; }
      match kind {
        case RegisterStarted | RegisterOk | RegisterFail | Unregistering =>
        case TransportLost => activeKey, activeToken := 0, 0;
        case CallIncoming | CallOutgoing | CallEstablished | CallClosed =>
          Revoke();
          return false;
      }
      ok := EnqueueEvent(kind, 0);
    }

    method CallStartedEvent(callbackSession: U64, callbackAccount: U64, key: U64, kind: EventKind)
      returns (ok: bool, emitted: U64)
      requires Valid()
      modifies this, mailbox, mailbox.entries
      ensures Valid() && (State(), ok) == CallStarted(old(State()), callbackSession, callbackAccount, key, kind)
      ensures emitted == if ok then State().activeToken else 0
    {
      emitted := 0;
      ok := Admit(callbackSession, callbackAccount);
      if !ok { return false, 0; }
      if (kind != CallIncoming && kind != CallOutgoing) || key == 0 || key <= lastKey || activeKey != 0 ||
         lastToken == MAX64 {
        Revoke();
        return false, 0;
      }
      var token := lastToken + 1;
      ok := EnqueueEvent(kind, token);
      if !ok { return false, 0; }
      activeKey, activeToken, lastKey, lastToken := key, token, key, token;
      return true, token;
    }

    method CallChangedEvent(callbackSession: U64, callbackAccount: U64, key: U64, kind: EventKind) returns (ok: bool)
      requires Valid()
      modifies this, mailbox, mailbox.entries
      ensures Valid() && (State(), ok) == CallChanged(old(State()), callbackSession, callbackAccount, key, kind)
    {
      ok := Admit(callbackSession, callbackAccount);
      if !ok { return false; }
      if (kind != CallEstablished && kind != CallClosed) || key == 0 || key != activeKey || activeToken == 0 {
        Revoke();
        return false;
      }
      ok := EnqueueEvent(kind, activeToken);
      if !ok { return false; }
      if kind == CallClosed {
        activeKey, activeToken := 0, 0;
      }
    }
  }

  // --- What the queue will do to the reducer ---------------------------------

  // The active and the newest call, as the reducer or the ingress knows them.
  datatype Calls = Calls(active: U64, last: U64)

  function CallsOf(o: Observation): Calls { Calls(o.callId, o.lastCallId) }

  function TokensOf(s: IngressState): Calls { Calls(s.activeToken, s.lastToken) }

  predicate Fits(c: Calls, e: NativeEvent) {
    if Opens(e.kind) then e.callId != 0 && c.active == 0 && e.callId > c.last
    else if Continues(e.kind) then e.callId != 0 && e.callId == c.active
    else e.callId == 0
  }

  function CallsAfter(c: Calls, e: NativeEvent): Calls {
    if Opens(e.kind) then Calls(e.callId, e.callId)
    else if e.kind == CallClosed || e.kind == TransportLost then Calls(0, c.last)
    else c
  }

  predicate QueueFits(c: Calls, queue: seq<NativeEvent>)
    decreases |queue|
  {
    queue == [] || (Fits(c, queue[0]) && QueueFits(CallsAfter(c, queue[0]), queue[1..]))
  }

  function CallsAfterAll(c: Calls, queue: seq<NativeEvent>): Calls
    decreases |queue|
  {
    if queue == [] then c else CallsAfterAll(CallsAfter(c, queue[0]), queue[1..])
  }

  // What is queued is a lawful call history from what the reducer has seen to
  // what the ingress has issued.
  predicate Simulates(s: IngressState, o: Observation) {
    && ProofIsCurrent(o, s.session)
    && QueueFits(CallsOf(o), s.mailbox.queue)
    && CallsAfterAll(CallsOf(o), s.mailbox.queue) == TokensOf(s)
  }

  lemma {:induction false} QueueGrows(c: Calls, queue: seq<NativeEvent>, e: NativeEvent)
    requires QueueFits(c, queue) && Fits(CallsAfterAll(c, queue), e)
    ensures QueueFits(c, queue + [e])
    ensures CallsAfterAll(c, queue + [e]) == CallsAfter(CallsAfterAll(c, queue), e)
    decreases |queue|
  {
    var longer := queue + [e];
    if queue == [] {
      assert longer == [e] && longer[1..] == [];
    } else {
      assert longer[0] == queue[0] && longer[1..] == queue[1..] + [e];
      QueueGrows(CallsAfter(c, queue[0]), queue[1..], e);
    }
  }

  // Why the reducer stopped, when it did.
  function FirstRefusal(o: Observation, session: U64, events: seq<NativeEvent>): Option<EventTransition>
    decreases |events|
  {
    if events == [] then None
    else if Verdict(o, session, events[0]) != Applied then Some(Verdict(o, session, events[0]))
    else FirstRefusal(AfterEvent(o, events[0]), session, events[1..])
  }

  // Of what the ingress queues the reducer can only question the order.
  lemma {:induction false} QueueIsCurrent(o: Observation, session: U64, queue: seq<NativeEvent>)
    requires ProofIsCurrent(o, session) && QueueFits(CallsOf(o), queue)
    requires forall i :: 0 <= i < |queue| ==> queue[i].session == session
    ensures FirstRefusal(o, session, queue) == None || FirstRefusal(o, session, queue) == Some(InvalidOrder)
    ensures FirstRefusal(o, session, queue) == None <==> ReduceAll(o, session, queue).1
    ensures var r := ReduceAll(o, session, queue);
            ProofIsCurrent(r.0, session) && (r.1 ==> CallsOf(r.0) == CallsAfterAll(CallsOf(o), queue))
    decreases |queue|
  {
    if queue != [] && Verdict(o, session, queue[0]) == Applied {
      var next := AfterEvent(o, queue[0]);
      assert CallsOf(next) == CallsAfter(CallsOf(o), queue[0]);
      QueueIsCurrent(next, session, queue[1..]);
    }
  }

  // --- Runs ------------------------------------------------------------------

  datatype IngressOp =
    | OpenSession(account: U64)
    | EndSession
    | Register(session: U64, account: U64, kind: EventKind)
    | Start(session: U64, account: U64, key: U64, kind: EventKind)
    | Change(session: U64, account: U64, key: U64, kind: EventKind)
    | Deliver

  // The ingress, the reducer's observation of the session, and whether the
  // reducer has applied everything it was given since the session began.
  datatype Channel = Channel(ingress: IngressState, o: Observation, intact: bool)

  function Act(c: Channel, op: IngressOp): Channel {
    var s := c.ingress;
    match op
    case OpenSession(account) =>
      var next := Begun(s, account);
      if next == s then c else Channel(next, Fresh(Running, next.session), true)
    case EndSession => c.(ingress := Revoked(s))
    case Register(session, account, kind) => c.(ingress := Registration(s, session, account, kind).0)
    case Start(session, account, key, kind) => c.(ingress := CallStarted(s, session, account, key, kind).0)
    case Change(session, account, key, kind) => c.(ingress := CallChanged(s, session, account, key, kind).0)
    case Deliver =>
      if !c.intact then c.(ingress := s.(mailbox := Drained(s.mailbox)))
      else
        var r := ReduceAll(c.o, s.session, s.mailbox.queue);
        Channel(s.(mailbox := Drained(s.mailbox)), r.0, r.1)
  }

  function ActAll(c: Channel, ops: seq<IngressOp>): Channel
    decreases |ops|
  {
    if ops == [] then c else ActAll(Act(c, ops[0]), ops[1..])
  }

  predicate ChannelInv(c: Channel) {
    && IngressInv(c.ingress)
    && CallConsistent(c.o)
    && (c.ingress.session != 0 && c.intact ==> Simulates(c.ingress, c.o))
  }

  lemma NewChannelInv()
    ensures ChannelInv(Channel(NEW_INGRESS, Untrusted(Stopped), true))
  {
  }

  lemma EmitKeeps(s: IngressState, kind: EventKind, token: U64, after: IngressState, o: Observation)
    requires IngressInv(s) && s.session != 0
    requires after.session == s.session && after.account == s.account
    requires IngressInv(after.(mailbox := s.mailbox))
    requires Fits(TokensOf(s), Message(s, kind, token))
    requires TokensOf(after) == CallsAfter(TokensOf(s), Message(s, kind, token))
    ensures IngressInv(Emitted(s, kind, token, after).0)
    ensures Emitted(s, kind, token, after).1 <==> |s.mailbox.queue| < MAILBOX_CAPACITY
    ensures !Emitted(s, kind, token, after).1 ==> Emitted(s, kind, token, after).0 == Revoked(s)
    ensures Emitted(s, kind, token, after).1 && Simulates(s, o) ==> Simulates(Emitted(s, kind, token, after).0, o)
  {
    if Simulates(s, o) && |s.mailbox.queue| < MAILBOX_CAPACITY {
      QueueGrows(CallsOf(o), s.mailbox.queue, Message(s, kind, token));
    }
  }

  lemma ActKeepsInv(c: Channel, op: IngressOp)
    requires ChannelInv(c)
    ensures ChannelInv(Act(c, op))
  {
    hide Emitted, CallsAfterAll, QueueFits, Simulates, ReduceAll;
    var s := c.ingress;
    match op
    case OpenSession(account) => FreshSimulates(Begun(s, account));
    case EndSession =>
    case Register(session, account, kind) =>
      if !Late(s, session) && !Foreign(s, account) && RegistrationKind(kind) {
        EmitKeeps(s, kind, 0, if kind == TransportLost then s.(activeKey := 0, activeToken := 0) else s, c.o);
      }
    case Start(session, account, key, kind) =>
      if !Late(s, session) && !Foreign(s, account) && MayStart(s, key, kind) {
        var t := s.lastToken + 1;
        EmitKeeps(s, kind, t, s.(activeKey := key, activeToken := t, lastKey := key, lastToken := t), c.o);
      }
    case Change(session, account, key, kind) =>
      if !Late(s, session) && !Foreign(s, account) && MayChange(s, key, kind) {
        EmitKeeps(s, kind, s.activeToken, if kind == CallClosed then s.(activeKey := 0, activeToken := 0) else s, c.o);
      }
    case Deliver => DeliverKeeps(c);
  }

  lemma FreshSimulates(s: IngressState)
    ensures s.session != 0 && s.mailbox.queue == [] && TokensOf(s) == Calls(0, 0) ==>
            Simulates(s, Fresh(Running, s.session))
  {
  }

  lemma DeliverKeeps(c: Channel)
    requires ChannelInv(c)
    ensures ChannelInv(Act(c, Deliver))
  {
    var s := c.ingress;
    if c.intact {
      RunKeepsCalls(c.o, s.session, s.mailbox.queue);
      if s.session != 0 {
        QueueIsCurrent(c.o, s.session, s.mailbox.queue);
      }
    }
  }

  // After any run: what the reducer has applied, followed by what is queued, is
  // exactly the ingress's own call history.
  lemma {:induction false} RunKeepsInv(c: Channel, ops: seq<IngressOp>)
    requires ChannelInv(c)
    ensures ChannelInv(ActAll(c, ops))
    decreases |ops|
  {
    if ops != [] {
      ActKeepsInv(c, ops[0]);
      RunKeepsInv(Act(c, ops[0]), ops[1..]);
    }
  }

  // At any point of any run, a delivery is refused for its order or not at all;
  // if it is not, the reducer's call is the ingress's active token and its
  // newest call the last token issued.
  lemma DeliveriesAgree(ops: seq<IngressOp>)
    ensures var c := ActAll(Channel(NEW_INGRESS, Untrusted(Stopped), true), ops);
            var s := c.ingress;
            c.intact && s.session != 0 ==>
              var why := FirstRefusal(c.o, s.session, s.mailbox.queue);
              var after := Act(c, Deliver);
              && (why == None || why == Some(InvalidOrder))
              && (why == None <==> after.intact)
              && (after.intact ==> after.o.callId == s.activeToken && after.o.lastCallId == s.lastToken)
  {
    var start := Channel(NEW_INGRESS, Untrusted(Stopped), true);
    NewChannelInv();
    RunKeepsInv(start, ops);
    var c := ActAll(start, ops);
    if c.intact && c.ingress.session != 0 {
      QueueIsCurrent(c.o, c.ingress.session, c.ingress.mailbox.queue);
    }
  }

  // A callback that carries another session changes nothing at all.
  lemma LateCallbacksAreIgnored(s: IngressState, session: U64, account: U64, key: U64, kind: EventKind)
    requires session != s.session
    ensures Registration(s, session, account, kind) == (s, false)
    ensures CallStarted(s, session, account, key, kind) == (s, false)
    ensures CallChanged(s, session, account, key, kind) == (s, false)
  {
  }

  // A callback of the session itself is queued under the session's own rules, as
  // the one new event of its kind and call; or else it ends the session.
  lemma SessionLivesOnExactlyWhen(s: IngressState, account: U64, key: U64, kind: EventKind)
    requires IngressInv(s) && s.session != 0
    ensures var r := Registration(s, s.session, account, kind);
            var fits := account == s.account && |s.mailbox.queue| < 32 &&
                        kind in {RegisterStarted, RegisterOk, RegisterFail, Unregistering, TransportLost};
            && (r.1 <==> fits) && (r.0.session != 0 <==> fits)
            && (fits ==> r.0.mailbox.queue == s.mailbox.queue + [NativeEvent(kind, s.session, 0, 0, 0)])
    ensures var r := CallStarted(s, s.session, account, key, kind);
            var fits := account == s.account && |s.mailbox.queue| < 32 && kind in {CallIncoming, CallOutgoing} &&
                        key > s.lastKey && s.activeKey == 0 && s.lastToken < MAX64;
            && (r.1 <==> fits) && (r.0.session != 0 <==> fits)
            && (fits ==> r.0.mailbox.queue == s.mailbox.queue + [NativeEvent(kind, s.session, s.lastToken + 1, 0, 0)] &&
                         r.0.activeKey == key && r.0.activeToken == s.lastToken + 1)
    ensures var r := CallChanged(s, s.session, account, key, kind);
            var fits := account == s.account && |s.mailbox.queue| < 32 && kind in {CallEstablished, CallClosed} &&
                        s.activeKey != 0 && key == s.activeKey;
            && (r.1 <==> fits) && (r.0.session != 0 <==> fits)
            && (fits ==> r.0.mailbox.queue == s.mailbox.queue + [NativeEvent(kind, s.session, s.activeToken, 0, 0)] &&
                         (r.0.activeKey == 0 <==> kind == CallClosed))
  {
  }
}
