// Events that also name their account and call: one selected account, one
// active call.
module EventIdentity {
  import opened Common
  import opened SipRuntime
  import opened EventReducer

  datatype BoundState = BoundState(
    observation: Observation, expectedAccountToken: U64, activeCallToken: U64, lastCallToken: U64)

  datatype IdentityResult =
    | Accepted | WrongSession | UnverifiedProof | WrongAccount | MissingCall
    | ConcurrentCall | WrongCall | ReplayedCall | UnexpectedCall | OutOfOrder

  function Invalidated(process: RuntimeProcess): BoundState {
    BoundState(Untrusted(process), 0, 0, 0)
  }

  function Bound(session: U64, account: U64): BoundState {
    BoundState(Fresh(Running, session), account, 0, 0)
  }

  // --- Specification ---------------------------------------------------------

  predicate FromTheAccount(b: BoundState, session: U64, e: NativeEvent) {
    && !IsStaleSession(e.session, session) && ProofIsCurrent(b.observation, session)
    && b.expectedAccountToken != 0 && e.accountToken == b.expectedAccountToken
  }

  predicate TokenFits(b: BoundState, e: NativeEvent) {
    if Opens(e.kind) then e.callToken != 0 && b.activeCallToken == 0 && e.callToken > b.lastCallToken
    else if Continues(e.kind) then e.callToken != 0 && e.callToken == b.activeCallToken
    else e.callToken == 0
  }

  function AfterIdentified(b: BoundState, e: NativeEvent): BoundState {
    var token := if Opens(e.kind) then e.callToken else b.lastCallToken;
    BoundState(
      AfterEvent(b.observation, Renamed(e)), b.expectedAccountToken,
      if Opens(e.kind) then e.callToken
      else if e.kind == CallClosed || e.kind == TransportLost then 0 else b.activeCallToken,
      token)
  }

  // The event as the inner reducer sees it: the call token is the call.
  function Renamed(e: NativeEvent): NativeEvent { e.(callId := e.callToken) }

  predicate Admissible(b: BoundState, session: U64, e: NativeEvent) {
    FromTheAccount(b, session, e) && TokenFits(b, e) && Verdict(b.observation, session, Renamed(e)) == Applied
  }

  // Why an event is refused: the first failing test, in the order of the code.
  function Judgement(b: BoundState, session: U64, e: NativeEvent): (r: IdentityResult)
    ensures r == Accepted <==> Admissible(b, session, e)
  {
    if IsStaleSession(e.session, session) || b.observation.session != session then WrongSession
    else if !ProofIsCurrent(b.observation, session) then UnverifiedProof
    else if b.expectedAccountToken == 0 || e.accountToken != b.expectedAccountToken then WrongAccount
    else if (Opens(e.kind) || Continues(e.kind)) && e.callToken == 0 then MissingCall
    else if Opens(e.kind) && b.activeCallToken != 0 then ConcurrentCall
    else if Opens(e.kind) && e.callToken <= b.lastCallToken then ReplayedCall
    else if Continues(e.kind) && e.callToken != b.activeCallToken then WrongCall
    else if !Opens(e.kind) && !Continues(e.kind) && e.callToken != 0 then UnexpectedCall
    else if Verdict(b.observation, session, Renamed(e)) != Applied then OutOfOrder
    else Accepted
  }

  function Identified(b: BoundState, session: U64, e: NativeEvent): BoundState {
    if Admissible(b, session, e) then AfterIdentified(b, e) else b
  }

  // The adapter's tokens and the observation's identifiers are the same numbers.
  predicate BoundInv(b: BoundState) {
    && CallConsistent(b.observation)
    && b.activeCallToken == b.observation.callId
    && b.lastCallToken == b.observation.lastCallId
  }

  // --- The code --------------------------------------------------------------

  method ApplyIdentified(b: BoundState, session: U64, e: NativeEvent) returns (bound: BoundState, r: IdentityResult)
    ensures r == Judgement(b, session, e)
    ensures bound == Identified(b, session, e)
  {
    bound := b;
    if IsStaleSession(e.session, session) || b.observation.session != session { return bound, WrongSession; }
    if !ProofIsCurrent(b.observation, session) { return bound, UnverifiedProof; }
    if b.expectedAccountToken == 0 || e.accountToken != b.expectedAccountToken { return bound, WrongAccount; }
    var opening := e.kind == CallIncoming || e.kind == CallOutgoing;
    var continuing := e.kind == CallEstablished || e.kind == CallClosed;
    if opening {
      if e.callToken == 0 { return bound, MissingCall; }
      if b.activeCallToken != 0 { return bound, ConcurrentCall; }
      if e.callToken <= b.lastCallToken { return bound, ReplayedCall; }
    } else if continuing {
      if e.callToken == 0 { return bound, MissingCall; }
      if e.callToken != b.activeCallToken { return bound, WrongCall; }
    } else if e.callToken != 0 {
      return bound, UnexpectedCall;
    }
    var observation, result := ApplyEvent(b.observation, session, Renamed(e));
    bound := bound.(observation := observation);
    if result != Applied { return bound, OutOfOrder; }
    if opening {
      bound := bound.(activeCallToken := e.callToken, lastCallToken := e.callToken);
    } else if e.kind == CallClosed || e.kind == TransportLost {
      bound := bound.(activeCallToken := 0);
    }
    r := Accepted;
  }

  // --- Why the inner reducer can only question the order -----------------------

  // In a bound state an event that passed the identity checks is applied, or
  // refused for its order: StaleSession, UnverifiedSource and StaleCall of the
  // inner reducer are unreachable.
  lemma InnerRefusesOnlyOrder(b: BoundState, session: U64, e: NativeEvent)
    requires BoundInv(b) && FromTheAccount(b, session, e) && TokenFits(b, e)
    ensures Verdict(b.observation, session, Renamed(e)) == if MayFollow(e.kind, b.observation.sip) then Applied else InvalidOrder
    ensures BoundInv(Identified(b, session, e))
  {
  }

  // What each refusal means, in a bound state.
  lemma RefusalsTell(b: BoundState, session: U64, e: NativeEvent)
    requires BoundInv(b) && session != 0
    ensures var r := Judgement(b, session, e);
            var o := b.observation;
            var ours := e.session == session && o.session == session;
            var from := FromTheAccount(b, session, e);
            && (r == WrongSession <==> !ours)
            && (r == UnverifiedProof <==> ours && (o.process != Running || o.evidence != VerifiedNativeApi))
            && (r == WrongAccount <==> ours && ProofIsCurrent(o, session) && !from)
            && (r == MissingCall <==> from && e.callToken == 0 && e.kind in {CallIncoming, CallOutgoing, CallEstablished, CallClosed})
            && (r == ConcurrentCall <==> from && e.callToken != 0 && e.kind in {CallIncoming, CallOutgoing} && HasCall(o.sip))
            && (r == ReplayedCall <==>
                  from && 0 < e.callToken <= o.lastCallId && e.kind in {CallIncoming, CallOutgoing} && !HasCall(o.sip))
            && (r == WrongCall <==>
                  from && e.callToken != 0 && e.callToken != o.callId && e.kind in {CallEstablished, CallClosed})
            && (r == UnexpectedCall <==>
                  from && e.callToken != 0 &&
                  e.kind in {RegisterStarted, RegisterOk, RegisterFail, Unregistering, TransportLost})
            && (r == OutOfOrder <==> from && TokenFits(b, e) && !MayFollow(e.kind, o.sip))
  {
    if FromTheAccount(b, session, e) && TokenFits(b, e) {
      InnerRefusesOnlyOrder(b, session, e);
    }
  }

  // --- Runs ------------------------------------------------------------------

  function IdentifiedAll(b: BoundState, session: U64, events: seq<NativeEvent>): (BoundState, bool)
    decreases |events|
  {
    if events == [] then (b, true)
    else if !Admissible(b, session, events[0]) then (b, false)
    else IdentifiedAll(AfterIdentified(b, events[0]), session, events[1..])
  }

  function CallIdFromToken(events: seq<NativeEvent>): (r: seq<NativeEvent>)
    ensures |r| == |events|
  {
    if events == [] then [] else [Renamed(events[0])] + CallIdFromToken(events[1..])
  }

  // The identity path is the plain reducer run on tokens, provided that every
  // event comes from the account and only call events carry a token.
  lemma {:induction false} IdentityRefinesReducer(b: BoundState, session: U64, events: seq<NativeEvent>)
    requires BoundInv(b) && b.expectedAccountToken != 0
    requires forall i :: 0 <= i < |events| ==> events[i].accountToken == b.expectedAccountToken
    ensures BoundInv(IdentifiedAll(b, session, events).0)
    ensures var plain := ReduceAll(b.observation, session, CallIdFromToken(events));
            IdentifiedAll(b, session, events).0.observation == plain.0 &&
            IdentifiedAll(b, session, events).1 == plain.1
    decreases |events|
  {
    if events != [] {
      var plain := CallIdFromToken(events);
      assert plain[0] == Renamed(events[0]) && plain[1..] == CallIdFromToken(events[1..]);
      assert Admissible(b, session, events[0]) <==> Verdict(b.observation, session, plain[0]) == Applied;
      if Admissible(b, session, events[0]) {
        IdentityRefinesReducer(AfterIdentified(b, events[0]), session, events[1..]);
      }
    }
  }

  lemma {:induction false} IdentifiedAllConcat(b: BoundState, session: U64, x: seq<NativeEvent>, y: seq<NativeEvent>)
    ensures IdentifiedAll(b, session, x + y) ==
            if IdentifiedAll(b, session, x).1 then IdentifiedAll(IdentifiedAll(b, session, x).0, session, y)
            else IdentifiedAll(b, session, x)
    decreases |x|
  {
    if x == [] {
      assert x + y == y;
    } else if Admissible(b, session, x[0]) {
      assert (x + y)[1..] == x[1..] + y;
      IdentifiedAllConcat(AfterIdentified(b, x[0]), session, x[1..], y);
    }
  }

  // From any invalidated or freshly bound state, after any stream.
  lemma {:induction false} RunKeepsBoundInv(b: BoundState, session: U64, events: seq<NativeEvent>)
    requires BoundInv(b)
    ensures var r := IdentifiedAll(b, session, events).0;
            && BoundInv(r) && r.lastCallToken >= b.lastCallToken
            && r.observation.session == b.observation.session
            && r.observation.evidence == b.observation.evidence
            && r.observation.process == b.observation.process
            && r.expectedAccountToken == b.expectedAccountToken
    decreases |events|
  {
    if events != [] && Admissible(b, session, events[0]) {
      RunKeepsBoundInv(AfterIdentified(b, events[0]), session, events[1..]);
    }
  }
}
