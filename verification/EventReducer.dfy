// The reducer that turns verified native events into the SIP observation.
module EventReducer {
  import opened Common
  import opened SipRuntime

  datatype EventKind =
    | RegisterStarted | RegisterOk | RegisterFail | Unregistering
    | CallIncoming | CallOutgoing | CallEstablished | CallClosed
    | TransportLost

  datatype NativeEvent = NativeEvent(
    kind: EventKind, session: U64, callId: U64, accountToken: U64, callToken: U64)

  datatype EventTransition = Applied | StaleSession | UnverifiedSource | InvalidOrder | StaleCall

  predicate IsStaleSession(event: U64, current: U64) {
    event == 0 || event != current
  }

  // --- The transition table --------------------------------------------------

  predicate Opens(k: EventKind) {
    k == CallIncoming || k == CallOutgoing
  }

  predicate Continues(k: EventKind) {
    k == CallEstablished || k == CallClosed
  }

  predicate MayFollow(k: EventKind, s: SipStatus) {
    match k
    case RegisterStarted => s == SipStatus.Unavailable || s == Disconnected || s == Failed || s == Registered
    case RegisterOk => s == Registering
    case RegisterFail => s == Registering
    case Unregistering => s == Registering || s == Registered
    case CallIncoming => s == Registered
    case CallOutgoing => s == Registered
    case CallEstablished => s == Calling || s == Ringing
    case CallClosed => HasCall(s)
    case TransportLost => true
  }

  function Target(k: EventKind): SipStatus {
    match k
    case RegisterStarted => Registering
    case RegisterOk => Registered
    case RegisterFail => Failed
    case Unregistering => Disconnected
    case CallIncoming => Ringing
    case CallOutgoing => Calling
    case CallEstablished => InCall
    case CallClosed => Registered
    case TransportLost => Disconnected
  }

  // A new call brings an identifier never seen before; later events name it.
  predicate NamesItsCall(o: Observation, e: NativeEvent) {
    if Opens(e.kind) then e.callId != 0 && o.callId == 0 && e.callId > o.lastCallId
    else if Continues(e.kind) then e.callId != 0 && e.callId == o.callId
    else true
  }

  function Verdict(o: Observation, session: U64, e: NativeEvent): EventTransition {
    if IsStaleSession(e.session, session) || o.session != session then StaleSession
    else if !ProofIsCurrent(o, session) then UnverifiedSource
    else if !MayFollow(e.kind, o.sip) then InvalidOrder
    else if !Opens(e.kind) && !Continues(e.kind) && e.callId != 0 then InvalidOrder
    else if !NamesItsCall(o, e) then StaleCall
    else Applied
  }

  function AfterEvent(o: Observation, e: NativeEvent): Observation {
    o.(sip := Target(e.kind),
       callId := if Opens(e.kind) then e.callId
                 else if e.kind == CallClosed || e.kind == TransportLost then 0
                 else o.callId,
       lastCallId := if Opens(e.kind) then e.callId else o.lastCallId)
  }

  function Reduce(o: Observation, session: U64, e: NativeEvent): Observation {
    if Verdict(o, session, e) == Applied then AfterEvent(o, e) else o
  }

  // The switch over event kinds, as the code runs it on the state it was given.
  method ApplyEvent(o: Observation, session: U64, e: NativeEvent) returns (state: Observation, r: EventTransition)
    ensures r == Verdict(o, session, e)
    ensures state == Reduce(o, session, e)
  {
    state := o;
    if IsStaleSession(e.session, session) || o.session != session { return state, StaleSession; }
    if !ProofIsCurrent(o, session) { return state, UnverifiedSource; }
    var current := o.sip;
    var next, nextCall, lastCall := current, o.callId, o.lastCallId;
    match e.kind {
      case RegisterStarted =>
        if e.callId != 0 || (current != SipStatus.Unavailable && current != Disconnected && current != Failed &&
                             current != Registered) { return state, InvalidOrder; }
        next := Registering;
      case RegisterOk =>
        if e.callId != 0 || current != Registering { return state, InvalidOrder; }
        next := Registered;
      case RegisterFail =>
        if e.callId != 0 || current != Registering { return state, InvalidOrder; }
        next := Failed;
      case Unregistering =>
        if e.callId != 0 || (current != Registering && current != Registered) { return state, InvalidOrder; }
        next := Disconnected;
      case CallIncoming | CallOutgoing =>
        if current != Registered { return state, InvalidOrder; }
        if e.callId == 0 || nextCall != 0 || e.callId <= lastCall { return state, StaleCall; }
        nextCall, lastCall := e.callId, e.callId;
        next := if e.kind == CallIncoming then Ringing else Calling;
      case CallEstablished =>
        if current != Calling && current != Ringing { return state, InvalidOrder; }
        if e.callId == 0 || e.callId != nextCall { return state, StaleCall; }
        next := InCall;
      case CallClosed =>
        if current != Calling && current != Ringing && current != InCall { return state, InvalidOrder; }
        if e.callId == 0 || e.callId != nextCall { return state, StaleCall; }
        nextCall := 0;
        next := Registered;
      case TransportLost =>
        if e.callId != 0 { return state, InvalidOrder; }
        nextCall := 0;
        next := Disconnected;
    }
    state := o.(sip := next, callId := nextCall, lastCallId := lastCall);
    r := Applied;
  }

  // --- What every run keeps --------------------------------------------------

  // There is a call exactly while the status says so, and it is the newest one.
  predicate CallConsistent(o: Observation) {
    && (o.callId != 0 <==> HasCall(o.sip))
    && (o.callId != 0 ==> o.callId == o.lastCallId)
  }

  // Applies a stream up to its first refused event.
  function ReduceAll(o: Observation, session: U64, events: seq<NativeEvent>): (Observation, bool)
    decreases |events|
  {
    if events == [] then (o, true)
    else if Verdict(o, session, events[0]) != Applied then (o, false)
    else ReduceAll(AfterEvent(o, events[0]), session, events[1..])
  }

  // The newest call identifier never goes back, the session and its proof stay,
  // and a call is opened at most once under each identifier.
  lemma {:induction false} RunKeepsCalls(o: Observation, session: U64, events: seq<NativeEvent>)
    requires CallConsistent(o)
    ensures var r := ReduceAll(o, session, events).0;
            && CallConsistent(r)
            && r.lastCallId >= o.lastCallId
            && r.session == o.session && r.evidence == o.evidence && r.process == o.process
    decreases |events|
  {
    if events != [] && Verdict(o, session, events[0]) == Applied {
      RunKeepsCalls(AfterEvent(o, events[0]), session, events[1..]);
    }
  }

  // Of the events that an applied stream holds, those that open a call carry
  // strictly increasing identifiers.
  lemma {:induction false} OpeningsIncrease(o: Observation, session: U64, events: seq<NativeEvent>, i: nat, j: nat)
    requires CallConsistent(o) && ReduceAll(o, session, events).1
    requires i < j < |events| && Opens(events[i].kind) && Opens(events[j].kind)
    ensures o.lastCallId < events[i].callId < events[j].callId
    decreases |events|
  {
    var next := AfterEvent(o, events[0]);
    if i > 0 {
      OpeningsIncrease(next, session, events[1..], i - 1, j - 1);
    } else {
      OpeningIsNew(next, session, events[1..], j - 1);
    }
  }

  lemma {:induction false} OpeningIsNew(o: Observation, session: U64, events: seq<NativeEvent>, j: nat)
    requires ReduceAll(o, session, events).1 && j < |events| && Opens(events[j].kind)
    ensures o.lastCallId < events[j].callId
    decreases |events|
  {
    if j > 0 {
      OpeningIsNew(AfterEvent(o, events[0]), session, events[1..], j - 1);
    }
  }

  // No event lends or takes away the proof a session rests on.
  lemma {:induction false} ReduceAllKeepsProof(o: Observation, session: U64, events: seq<NativeEvent>)
    ensures var r := ReduceAll(o, session, events).0;
            r.session == o.session && r.evidence == o.evidence && r.process == o.process && r.lastCallId >= o.lastCallId
    decreases |events|
  {
    if events != [] && Verdict(o, session, events[0]) == Applied {
      ReduceAllKeepsProof(AfterEvent(o, events[0]), session, events[1..]);
    }
  }

  lemma {:induction false} ReduceAllConcat(o: Observation, session: U64, a: seq<NativeEvent>, b: seq<NativeEvent>)
    ensures ReduceAll(o, session, a + b) ==
            if ReduceAll(o, session, a).1 then ReduceAll(ReduceAll(o, session, a).0, session, b)
            else ReduceAll(o, session, a)
    decreases |a|
  {
    if a == [] {
      assert a + b == b;
    } else if Verdict(o, session, a[0]) == Applied {
      assert (a + b)[1..] == a[1..] + b;
      ReduceAllConcat(AfterEvent(o, a[0]), session, a[1..], b);
    }
  }
}
