// The projections that show a session's events as an observation, and never
// trust a session again once it was rejected.
module EventProjection {
  import opened Common
  import opened SipRuntime
  import opened EventReducer
  import opened EventIdentity
  import opened EventMailbox

  // --- Specification: events that carry only a session -----------------------

  datatype Legacy = Legacy(state: Observation, rejected: U64)

  const NEW_LEGACY := Legacy(Untrusted(Stopped), 0)

  function LegacyStart(p: Legacy, process: RuntimeProcess, session: U64): Observation {
    if p.state.session != session || p.state.evidence != VerifiedNativeApi then Fresh(process, session) else p.state
  }

  // What a batch of any size would do.
  function LegacyFollow(p: Legacy, process: RuntimeProcess, evidence: SipEvidence, b: Batch): Legacy {
    if process != Running || b.session == 0 then
      Legacy(Untrusted(process), if p.state.session != 0 then p.state.session else p.rejected)
    else if b.session == p.rejected then Legacy(Untrusted(process), p.rejected)
    else if b.overflow then Legacy(Untrusted(process), b.session)
    else if evidence != VerifiedNativeApi then
      Legacy(Untrusted(process), if p.state.evidence == VerifiedNativeApi then b.session else p.rejected)
    else
      var r := ReduceAll(LegacyStart(p, process, b.session), b.session, b.events);
      if r.1 then Legacy(r.0, p.rejected) else Legacy(Untrusted(process), b.session)
  }

  // A batch larger than the box counts as overflow.
  function Sized(b: Batch): Batch {
    b.(overflow := b.overflow || |b.events| > MAILBOX_CAPACITY)
  }

  function LegacyObserve(p: Legacy, process: RuntimeProcess, evidence: SipEvidence, b: Batch): Legacy {
    LegacyFollow(p, process, evidence, Sized(b))
  }

  // --- Specification: events that name their account and call ----------------

  datatype Ident = Ident(bound: BoundState, rejected: U64)

  const NEW_IDENT := Ident(Invalidated(Stopped), 0)

  function IdentStart(p: Ident, session: U64, account: U64): BoundState {
    if p.bound.observation.session != session || p.bound.observation.evidence != VerifiedNativeApi
    then Bound(session, account) else p.bound
  }

  function IdentFollow(p: Ident, process: RuntimeProcess, evidence: SipEvidence, b: Batch, account: U64): Ident {
    var o := p.bound.observation;
    if process != Running || b.session == 0 then
      Ident(Invalidated(process), if o.session != 0 then o.session else p.rejected)
    else if b.session == p.rejected then Ident(Invalidated(process), p.rejected)
    else if b.overflow then Ident(Invalidated(process), b.session)
    else if evidence != VerifiedNativeApi || account == 0 then
      Ident(Invalidated(process), if o.evidence == VerifiedNativeApi then b.session else p.rejected)
    else if IdentStart(p, b.session, account).expectedAccountToken != account then
      Ident(Invalidated(process), b.session)
    else
      var r := IdentifiedAll(IdentStart(p, b.session, account), b.session, b.events);
      if r.1 then Ident(r.0, p.rejected) else Ident(Invalidated(process), b.session)
  }

  function IdentObserve(p: Ident, process: RuntimeProcess, evidence: SipEvidence, b: Batch, account: U64): Ident {
    IdentFollow(p, process, evidence, Sized(b), account)
  }

  // --- Specification: both, by mode ------------------------------------------

  datatype Projection = Projection(identityMode: bool, legacy: Legacy, identity: Ident) {
    function Snapshot(): Observation { if identityMode then identity.bound.observation else legacy.state }
  }

  const NEW_PROJECTION := Projection(false, NEW_LEGACY, NEW_IDENT)

  function ObserveAs(p: Projection, process: RuntimeProcess, evidence: SipEvidence, b: Batch, account: U64): Projection {
    p.(identityMode := true, identity := IdentObserve(p.identity, process, evidence, b, account))
  }

  function Observe(p: Projection, process: RuntimeProcess, evidence: SipEvidence, b: Batch): Projection {
    if p.identityMode then ObserveAs(p, process, evidence, b, p.identity.bound.expectedAccountToken)
    else p.(legacy := LegacyObserve(p.legacy, process, evidence, b))
  }

  // --- The code --------------------------------------------------------------

  class LegacyProjection {
    var state: Observation
    var rejected: U64

    ghost function State(): Legacy
      reads this
    {
      Legacy(state, rejected)
    }

    constructor ()
      ensures State() == NEW_LEGACY
    {
      state, rejected := Untrusted(Stopped), 0;
    }

    method Reject(session: U64, process: RuntimeProcess)
      modifies this
      ensures State() == Legacy(Untrusted(process), session)
    {
      rejected := session;
      state := Untrusted(process);
    }

    method ObserveBatch(process: RuntimeProcess, evidence: SipEvidence, batch: Batch) returns (shown: Observation)
      modifies this
      ensures State() == LegacyObserve(old(State()), process, evidence, batch) && shown == state
    {
      if process != Running || batch.session == 0 {
        if state.session != 0 { rejected := state.session; }
        state := Untrusted(process);
        return state;
      }
      if batch.session == rejected {
        state := Untrusted(process);
        return state;
      }
      if batch.overflow || |batch.events| > MAILBOX_CAPACITY {
        Reject(batch.session, process);
        return state;
      }
      if evidence != VerifiedNativeApi {
        if state.evidence == VerifiedNativeApi { rejected := batch.session; }
        state := Untrusted(process);
        return state;
      }
      if state.session != batch.session || state.evidence != evidence {
        state := Fresh(process, batch.session);
      }
      ghost var start := state;
      ghost var whole := ReduceAll(start, batch.session, batch.events);
      for i := 0 to |batch.events|
        invariant rejected == old(rejected)
        invariant whole == ReduceAll(state, batch.session, batch.events[i..])
      {
        var result;
        state, result := ApplyEvent(state, batch.session, batch.events[i]);
        if result != Applied {
          Reject(batch.session, process);
          return state;
        }
      }
      return state;
    }
  }

  class SipProjection {
    var identityMode: bool
    const legacy: LegacyProjection
    var bound: BoundState
    var rejected: U64

    ghost function State(): Projection
      reads this, legacy
    {
      Projection(identityMode, legacy.State(), Ident(bound, rejected))
    }

    constructor ()
      ensures fresh(legacy) && State() == NEW_PROJECTION
    {
      identityMode, bound, rejected := false, Invalidated(Stopped), 0;
      legacy := new LegacyProjection();
    }

    method Reject(session: U64, process: RuntimeProcess)
      modifies this
      ensures identityMode == old(identityMode) && bound == Invalidated(process) && rejected == session
    {
      rejected := session;
      bound := Invalidated(process);
    }

    method ObserveAccount(process: RuntimeProcess, evidence: SipEvidence, batch: Batch, account: U64)
      returns (shown: Observation)
      modifies this
      ensures State() == ObserveAs(old(State()), process, evidence, batch, account)
      ensures shown == State().Snapshot()
    {
      identityMode := true;
      if process != Running || batch.session == 0 {
        if bound.observation.session != 0 { rejected := bound.observation.session; }
        bound := Invalidated(process);
        return bound.observation;
      }
      if batch.session == rejected {
        bound := Invalidated(process);
        return bound.observation;
      }
      if batch.overflow || |batch.events| > MAILBOX_CAPACITY {
        Reject(batch.session, process);
        return bound.observation;
      }
      if evidence != VerifiedNativeApi || account == 0 {
        if bound.observation.evidence == VerifiedNativeApi { rejected := batch.session; }
        bound := Invalidated(process);
        return bound.observation;
      }
      if bound.observation.session != batch.session || bound.observation.evidence != evidence {
        bound := BoundState(Fresh(process, batch.session), account, 0, 0);
      }
      if bound.expectedAccountToken != account {
        Reject(batch.session, process);
        return bound.observation;
      }
      ghost var whole := IdentifiedAll(bound, batch.session, batch.events);
      for i := 0 to |batch.events|
        invariant identityMode && rejected == old(rejected) && legacy.State() == old(legacy.State())
        invariant whole == IdentifiedAll(bound, batch.session, batch.events[i..])
      {
        var result;
        bound, result := ApplyIdentified(bound, batch.session, batch.events[i]);
        if result != Accepted {
          Reject(batch.session, process);
          return bound.observation;
        }
      }
      return bound.observation;
    }

    method ObserveBatch(process: RuntimeProcess, evidence: SipEvidence, batch: Batch) returns (shown: Observation)
      modifies this, legacy
      ensures State() == Observe(old(State()), process, evidence, batch)
      ensures shown == State().Snapshot()
    {
      if identityMode {
        shown := ObserveAccount(process, evidence, batch, bound.expectedAccountToken);
      } else {
        shown := legacy.ObserveBatch(process, evidence, batch);
      }
    }
  }

  // --- Where the stream is cut does not matter -------------------------------

  // One stretch of a session's stream, and its cuts into batches.
  function Cut(b: Batch, events: seq<NativeEvent>): Batch {
    b.(events := events)
  }

  lemma LegacyCut(p: Legacy, process: RuntimeProcess, evidence: SipEvidence, b: Batch, x: seq<NativeEvent>, y: seq<NativeEvent>)
    ensures LegacyFollow(p, process, evidence, Cut(b, x + y)) ==
            LegacyFollow(LegacyFollow(p, process, evidence, Cut(b, x)), process, evidence, Cut(b, y))
  {
    var start := LegacyStart(p, process, b.session);
    ReduceAllConcat(start, b.session, x, y);
    ReduceAllKeepsProof(start, b.session, x);
    hide ReduceAll;
  }

  lemma IdentCut(p: Ident, process: RuntimeProcess, evidence: SipEvidence, b: Batch, account: U64,
                 x: seq<NativeEvent>, y: seq<NativeEvent>)
    requires BoundInv(p.bound)
    ensures IdentFollow(p, process, evidence, Cut(b, x + y), account) ==
            IdentFollow(IdentFollow(p, process, evidence, Cut(b, x), account), process, evidence, Cut(b, y), account)
  {
    var start := IdentStart(p, b.session, account);
    IdentifiedAllConcat(start, b.session, x, y);
    RunKeepsBoundInv(start, b.session, x);
    hide IdentifiedAll;
  }

  // Observes consecutive stretches of one stream, in turn.
  function LegacyObserveCuts(p: Legacy, process: RuntimeProcess, evidence: SipEvidence, b: Batch,
                             cuts: seq<seq<NativeEvent>>): Legacy
    decreases |cuts|
  {
    if cuts == [] then p
    else LegacyObserveCuts(LegacyObserve(p, process, evidence, Cut(b, cuts[0])), process, evidence, b, cuts[1..])
  }

  function IdentObserveCuts(p: Ident, process: RuntimeProcess, evidence: SipEvidence, b: Batch, account: U64,
                            cuts: seq<seq<NativeEvent>>): Ident
    decreases |cuts|
  {
    if cuts == [] then p
    else IdentObserveCuts(IdentObserve(p, process, evidence, Cut(b, cuts[0]), account), process, evidence, b, account, cuts[1..])
  }

  function Flatten(cuts: seq<seq<NativeEvent>>): seq<NativeEvent> {
    if cuts == [] then [] else cuts[0] + Flatten(cuts[1..])
  }

  predicate AllFit(cuts: seq<seq<NativeEvent>>) {
    forall i :: 0 <= i < |cuts| ==> |cuts[i]| <= MAILBOX_CAPACITY
  }

  // However often the box was drained, the stream as a whole decides.
  lemma {:induction false} LegacyCutsAgree(p: Legacy, process: RuntimeProcess, evidence: SipEvidence, b: Batch,
                                           cuts: seq<seq<NativeEvent>>)
    requires cuts != [] && AllFit(cuts)
    ensures LegacyObserveCuts(p, process, evidence, b, cuts) ==
            LegacyFollow(p, process, evidence, Cut(b, Flatten(cuts)))
    decreases |cuts|
  {
    hide LegacyFollow;
    var next := LegacyObserve(p, process, evidence, Cut(b, cuts[0]));
    assert Sized(Cut(b, cuts[0])) == Cut(b, cuts[0]);
    if |cuts| == 1 {
      assert Flatten(cuts) == cuts[0] + Flatten(cuts[1..]) && cuts[1..] == [];
      assert cuts[0] + [] == cuts[0];
    } else {
      LegacyCutsAgree(next, process, evidence, b, cuts[1..]);
      LegacyCut(p, process, evidence, b, cuts[0], Flatten(cuts[1..]));
    }
  }

  lemma {:induction false} IdentCutsAgree(p: Ident, process: RuntimeProcess, evidence: SipEvidence, b: Batch, account: U64,
                                          cuts: seq<seq<NativeEvent>>)
    requires BoundInv(p.bound) && cuts != [] && AllFit(cuts)
    ensures IdentObserveCuts(p, process, evidence, b, account, cuts) ==
            IdentFollow(p, process, evidence, Cut(b, Flatten(cuts)), account)
    decreases |cuts|
  {
    var next := IdentObserve(p, process, evidence, Cut(b, cuts[0]), account);
    IdentKeepsBoundInv(p, process, evidence, Cut(b, cuts[0]), account);
    hide IdentFollow, BoundInv;
    assert Sized(Cut(b, cuts[0])) == Cut(b, cuts[0]);
    if |cuts| == 1 {
      assert Flatten(cuts) == cuts[0] + Flatten(cuts[1..]) && cuts[1..] == [];
      assert cuts[0] + [] == cuts[0];
    } else {
      IdentCutsAgree(next, process, evidence, b, account, cuts[1..]);
      IdentCut(p, process, evidence, b, account, cuts[0], Flatten(cuts[1..]));
    }
  }

  lemma IdentKeepsBoundInv(p: Ident, process: RuntimeProcess, evidence: SipEvidence, b: Batch, account: U64)
    requires BoundInv(p.bound)
    ensures BoundInv(IdentObserve(p, process, evidence, b, account).bound)
  {
    RunKeepsBoundInv(IdentStart(p, b.session, account), b.session, b.events);
  }

  // --- A rejected session stays rejected -------------------------------------

  // What a projection shows, and the session it will not show again.
  datatype Gate = Gate(o: Observation, rejected: U64)

  function LegacyGate(p: Legacy): Gate { Gate(p.state, p.rejected) }
  function IdentGate(p: Ident): Gate { Gate(p.bound.observation, p.rejected) }

  function Higher(floor: U64, b: Batch): U64 { if b.session == 0 then floor else b.session }

  // The newest session drained so far is the only one that can be on show.
  predicate GateInv(g: Gate, floor: U64) {
    && g.rejected <= floor
    && CallConsistent(g.o)
    && (g.o.session == 0 ==> g.o == Untrusted(g.o.process))
    && (g.o.session != 0 ==> g.o.session == floor && ProofIsCurrent(g.o, floor) && g.rejected != floor)
  }

  // The session will never be shown again.
  predicate Dead(g: Gate, floor: U64, session: U64) {
    session < floor || (session == floor && g.rejected == session)
  }

  // Any single observation: what was on show is continued or dead.
  predicate GateMove(g: Gate, floor: U64, g': Gate, floor': U64) {
    && GateInv(g', floor') && floor <= floor'
    && (forall s: U64 :: s != 0 && Dead(g, floor, s) ==> Dead(g', floor', s))
    && (g.o.session != 0 ==>
          if g'.o.session == g.o.session then g'.o.lastCallId >= g.o.lastCallId else Dead(g', floor', g.o.session))
  }

  lemma LegacyMoves(p: Legacy, floor: U64, process: RuntimeProcess, evidence: SipEvidence, b: Batch)
    requires GateInv(LegacyGate(p), floor) && (b.session == 0 || floor <= b.session)
    ensures GateMove(LegacyGate(p), floor, LegacyGate(LegacyObserve(p, process, evidence, b)), Higher(floor, b))
  {
    var start := LegacyStart(p, process, b.session);
    RunKeepsCalls(start, b.session, b.events);
    hide ReduceAll;
  }

  lemma IdentMoves(p: Ident, floor: U64, process: RuntimeProcess, evidence: SipEvidence, b: Batch, account: U64)
    requires GateInv(IdentGate(p), floor) && (b.session == 0 || floor <= b.session) && BoundInv(p.bound)
    ensures GateMove(IdentGate(p), floor, IdentGate(IdentObserve(p, process, evidence, b, account)), Higher(floor, b))
    ensures BoundInv(IdentObserve(p, process, evidence, b, account).bound)
  {
    var start := IdentStart(p, b.session, account);
    RunKeepsBoundInv(start, b.session, b.events);
    hide IdentifiedAll;
  }

  lemma {:induction false} MovesCompose(g: Gate, f: U64, g': Gate, f': U64, g'': Gate, f'': U64)
    requires GateMove(g, f, g', f') && GateMove(g', f', g'', f'')
    ensures GateMove(g, f, g'', f'')
  {
  }

  // What each drain showed.
  datatype Look = Look(process: RuntimeProcess, evidence: SipEvidence, account: U64)

  function LegacyShows(p: Legacy, looks: seq<Look>, batches: seq<Batch>): (r: seq<Observation>)
    requires |looks| == |batches|
    ensures |r| == |batches|
    decreases |batches|
  {
    if batches == [] then []
    else
      var next := LegacyObserve(p, looks[0].process, looks[0].evidence, batches[0]);
      [next.state] + LegacyShows(next, looks[1..], batches[1..])
  }

  function IdentShows(p: Ident, looks: seq<Look>, batches: seq<Batch>): (r: seq<Observation>)
    requires |looks| == |batches|
    ensures |r| == |batches|
    decreases |batches|
  {
    if batches == [] then []
    else
      var next := IdentObserve(p, looks[0].process, looks[0].evidence, batches[0], looks[0].account);
      [next.bound.observation] + IdentShows(next, looks[1..], batches[1..])
  }

  predicate NeverShown(shows: seq<Observation>, session: U64) {
    forall i :: 0 <= i < |shows| ==> !ProofIsCurrent(shows[i], session)
  }

  // Along one mailbox's drains, whatever process states and evidence the caller
  // claims, a session that was rejected or left is never verified again.
  lemma {:induction false} LegacyNeverRevives(p: Legacy, floor: U64, looks: seq<Look>, batches: seq<Batch>, session: U64)
    requires |looks| == |batches| && RisingFrom(floor, batches)
    requires GateInv(LegacyGate(p), floor) && session != 0 && Dead(LegacyGate(p), floor, session)
    ensures NeverShown(LegacyShows(p, looks, batches), session)
    decreases |batches|
  {
    if batches != [] {
      LegacyMoves(p, floor, looks[0].process, looks[0].evidence, batches[0]);
      var next := LegacyObserve(p, looks[0].process, looks[0].evidence, batches[0]);
      LegacyNeverRevives(next, Higher(floor, batches[0]), looks[1..], batches[1..], session);
      hide LegacyObserve;
    }
  }

  // The same from a session on show: once it is lost it stays lost.
  lemma {:induction false} LostStaysLost(p: Legacy, floor: U64, looks: seq<Look>, batches: seq<Batch>, session: U64, k: nat, j: nat)
    requires |looks| == |batches| && RisingFrom(floor, batches) && GateInv(LegacyGate(p), floor)
    requires session != 0 && p.state.session == session
    requires k < j < |batches| && !ProofIsCurrent(LegacyShows(p, looks, batches)[k], session)
    ensures !ProofIsCurrent(LegacyShows(p, looks, batches)[j], session)
    decreases |batches|
  {
    var next, floor' := LegacyObserve(p, looks[0].process, looks[0].evidence, batches[0]), Higher(floor, batches[0]);
    LegacyMoves(p, floor, looks[0].process, looks[0].evidence, batches[0]);
    hide LegacyObserve;
    if next.state.session == session {
      LostStaysLost(next, floor', looks[1..], batches[1..], session, k - 1, j - 1);
    } else {
      LegacyNeverRevives(next, floor', looks[1..], batches[1..], session);
    }
  }

  lemma {:induction false} ShownThenLost(p: Legacy, floor: U64, looks: seq<Look>, batches: seq<Batch>, session: U64,
                                         i: nat, k: nat, j: nat)
    requires |looks| == |batches| && RisingFrom(floor, batches) && GateInv(LegacyGate(p), floor)
    requires i < k < j < |batches| && ProofIsCurrent(LegacyShows(p, looks, batches)[i], session)
    requires !ProofIsCurrent(LegacyShows(p, looks, batches)[k], session)
    ensures !ProofIsCurrent(LegacyShows(p, looks, batches)[j], session)
    decreases |batches|
  {
    var next, floor' := LegacyObserve(p, looks[0].process, looks[0].evidence, batches[0]), Higher(floor, batches[0]);
    LegacyMoves(p, floor, looks[0].process, looks[0].evidence, batches[0]);
    hide LegacyObserve;
    if i == 0 {
      LostStaysLost(next, floor', looks[1..], batches[1..], session, k - 1, j - 1);
    } else {
      ShownThenLost(next, floor', looks[1..], batches[1..], session, i - 1, k - 1, j - 1);
    }
  }

  // In any life of a mailbox, with any process states and evidence claimed at
  // its drains: a session that was shown as verified and then was not, is never
  // shown as verified again.
  lemma VerifiedOnlyOnce(ops: seq<MailboxOp>, looks: seq<Look>, session: U64, i: nat, k: nat, j: nat)
    requires |looks| == |Batches(NEW_MAILBOX, ops)| && i < k < j < |looks|
    requires var shows := LegacyShows(NEW_LEGACY, looks, Batches(NEW_MAILBOX, ops));
             ProofIsCurrent(shows[i], session) && !ProofIsCurrent(shows[k], session)
    ensures !ProofIsCurrent(LegacyShows(NEW_LEGACY, looks, Batches(NEW_MAILBOX, ops))[j], session)
  {
    DrainsRise(NEW_MAILBOX, ops, 0);
    ShownThenLost(NEW_LEGACY, 0, looks, Batches(NEW_MAILBOX, ops), session, i, k, j);
  }

  lemma {:induction false} IdentNeverRevives(p: Ident, floor: U64, looks: seq<Look>, batches: seq<Batch>, session: U64)
    requires |looks| == |batches| && RisingFrom(floor, batches) && BoundInv(p.bound)
    requires GateInv(IdentGate(p), floor) && session != 0 && Dead(IdentGate(p), floor, session)
    ensures NeverShown(IdentShows(p, looks, batches), session)
    decreases |batches|
  {
    if batches != [] {
      IdentMoves(p, floor, looks[0].process, looks[0].evidence, batches[0], looks[0].account);
      var next := IdentObserve(p, looks[0].process, looks[0].evidence, batches[0], looks[0].account);
      IdentNeverRevives(next, Higher(floor, batches[0]), looks[1..], batches[1..], session);
      hide IdentObserve;
    }
  }

  // --- When naming an account brings a rejected session back -------------------

  // The memory of rejections belongs to a mode. One observation that names an
  // account, right after the mode without accounts has lost a session, shows the
  // session again exactly when it could show it for the first time.
  lemma NamingRevivesExactlyWhen(p: Projection, floor: U64, process: RuntimeProcess, evidence: SipEvidence, b: Batch,
                                 account: U64, session: U64)
    requires !p.identityMode && p.identity == NEW_IDENT && session != 0
    requires GateInv(LegacyGate(p.legacy), floor) && Dead(LegacyGate(p.legacy), floor, session)
    ensures ProofIsCurrent(ObserveAs(p, process, evidence, b, account).Snapshot(), session) <==>
            && process == Running && evidence == VerifiedNativeApi && account != 0
            && b.session == session && !Sized(b).overflow
            && IdentifiedAll(Bound(session, account), session, b.events).1
  {
    RunKeepsBoundInv(Bound(b.session, account), b.session, b.events);
    hide IdentifiedAll;
  }

  // A drain shown without naming an account, or with one.
  datatype View =
    | Plain(process: RuntimeProcess, evidence: SipEvidence, b: Batch)
    | Named(process: RuntimeProcess, evidence: SipEvidence, b: Batch, account: U64)

  function Viewed(p: Projection, v: View): Projection {
    match v
    case Plain(process, evidence, b) => Observe(p, process, evidence, b)
    case Named(process, evidence, b, account) => ObserveAs(p, process, evidence, b, account)
  }

  function ViewShows(p: Projection, views: seq<View>): (r: seq<Observation>)
    ensures |r| == |views|
    decreases |views|
  {
    if views == [] then []
    else
      var next := Viewed(p, views[0]);
      [next.Snapshot()] + ViewShows(next, views[1..])
  }

  predicate ViewsRise(floor: U64, views: seq<View>)
    decreases |views|
  {
    views == [] ||
    ((views[0].b.session == 0 || floor <= views[0].b.session) && ViewsRise(Higher(floor, views[0].b), views[1..]))
  }

  predicate EverShown(shows: seq<Observation>, session: U64) {
    exists i :: 0 <= i < |shows| && ProofIsCurrent(shows[i], session)
  }

  // The drain decides about the session in the mode with accounts: it is one of
  // that mode, of the running session, and either lost or trusted.
  predicate Decides(v: View, named: bool, session: U64) {
    && (named || v.Named?) && v.process == Running && v.b.session == session
    && (Sized(v.b).overflow || (v.Named? && v.evidence == VerifiedNativeApi && v.account != 0))
  }

  // Whether an account was named before the k-th drain counts from the first on.
  function FirstDeciding(views: seq<View>, named: bool, session: U64): (k: nat)
    ensures k <= |views|
    decreases |views|
  {
    if views == [] || Decides(views[0], named, session) then 0
    else 1 + FirstDeciding(views[1..], named || views[0].Named?, session)
  }

  predicate Applies(v: View, session: U64) {
    v.Named? && !Sized(v.b).overflow && IdentifiedAll(Bound(session, v.account), session, v.b.events).1
  }

  predicate Reappears(views: seq<View>, named: bool, session: U64) {
    var k := FirstDeciding(views, named, session);
    k < |views| && Applies(views[k], session)
  }

  lemma ShowsCons(p: Projection, views: seq<View>, session: U64)
    requires views != []
    ensures var next := Viewed(p, views[0]);
            EverShown(ViewShows(p, views), session) <==>
            ProofIsCurrent(next.Snapshot(), session) || EverShown(ViewShows(next, views[1..]), session)
  {
    hide Viewed;
    var next := Viewed(p, views[0]);
    var all, rest := ViewShows(p, views), ViewShows(next, views[1..]);
    assert all == [next.Snapshot()] + rest;
    if ProofIsCurrent(next.Snapshot(), session) {
      assert ProofIsCurrent(all[0], session);
    }
    if EverShown(rest, session) {
      var i :| 0 <= i < |rest| && ProofIsCurrent(rest[i], session);
      assert ProofIsCurrent(all[i + 1], session);
    }
  }

  lemma AccountViewMoves(p: Projection, floor: U64, v: View)
    requires p.identityMode || v.Named?
    requires GateInv(IdentGate(p.identity), floor) && BoundInv(p.identity.bound) && (v.b.session == 0 || floor <= v.b.session)
    ensures var next := Viewed(p, v);
            && next.identityMode && BoundInv(next.identity.bound)
            && GateMove(IdentGate(p.identity), floor, IdentGate(next.identity), Higher(floor, v.b))
  {
    IdentMoves(p.identity, floor, v.process, v.evidence, v.b,
               if v.Named? then v.account else p.identity.bound.expectedAccountToken);
    hide IdentObserve, GateMove, GateInv, BoundInv;
  }

  // Dead in the mode with accounts is dead, however its drains are shown.
  lemma {:induction false} AccountModeNeverRevives(p: Projection, floor: U64, views: seq<View>, session: U64)
    requires (p.identityMode || (views != [] && views[0].Named?)) && ViewsRise(floor, views)
    requires GateInv(IdentGate(p.identity), floor) && BoundInv(p.identity.bound)
    requires session != 0 && Dead(IdentGate(p.identity), floor, session)
    ensures !EverShown(ViewShows(p, views), session)
    decreases |views|
  {
    if views != [] {
      AccountViewMoves(p, floor, views[0]);
      ShowsCons(p, views, session);
      AccountModeNeverRevives(Viewed(p, views[0]), Higher(floor, views[0].b), views[1..], session);
      hide Viewed, ViewShows, EverShown;
    }
  }

  // A session behind the drains has nothing more to decide.
  lemma {:induction false} PassedNeverDecides(floor: U64, views: seq<View>, named: bool, session: U64)
    requires ViewsRise(floor, views) && session != 0 && session < floor
    ensures FirstDeciding(views, named, session) == |views|
    decreases |views|
  {
    if views != [] {
      PassedNeverDecides(Higher(floor, views[0].b), views[1..], named || views[0].Named?, session);
    }
  }

  // In the mode with accounts, before the session was decided.
  predicate Undecided(p: Projection, floor: U64, session: U64) {
    && p.identity.bound.observation == Untrusted(p.identity.bound.observation.process)
    && p.identity.bound == Invalidated(p.identity.bound.observation.process)
    && p.identity.rejected != session && p.identity.rejected <= floor
  }

  // One drain of the mode with accounts: it decides, or leaves all undecided,
  // or leaves the session behind.
  lemma AccountViewDecides(p: Projection, floor: U64, v: View, session: U64)
    requires (p.identityMode || v.Named?) && session != 0 && session == floor && Undecided(p, floor, session)
    requires v.b.session == 0 || floor <= v.b.session
    ensures var next := Viewed(p, v);
            && (ProofIsCurrent(next.Snapshot(), session) <==> Decides(v, true, session) && Applies(v, session))
            && (Decides(v, true, session) && !Applies(v, session) ==> next.identity.rejected == session)
            && (!Decides(v, true, session) && (v.b.session == 0 || v.b.session == session) ==> Undecided(next, floor, session))
  {
    var account := if v.Named? then v.account else 0;
    RunKeepsBoundInv(Bound(v.b.session, account), v.b.session, v.b.events);
    hide IdentifiedAll;
  }

  lemma UndecidedIsGated(p: Projection, floor: U64, session: U64)
    requires Undecided(p, floor, session)
    ensures GateInv(IdentGate(p.identity), floor) && BoundInv(p.identity.bound)
  {
  }

  lemma {:induction false} AccountModeDecides(p: Projection, floor: U64, views: seq<View>, session: U64)
    requires (p.identityMode || (views != [] && views[0].Named?)) && ViewsRise(floor, views)
    requires session != 0 && session <= floor && Undecided(p, floor, session)
    ensures EverShown(ViewShows(p, views), session) <==> Reappears(views, true, session)
    decreases |views|
  {
    hide Viewed, ViewShows, Undecided, Applies, Decides, EverShown, GateInv, BoundInv, GateMove;
    UndecidedIsGated(p, floor, session);
    if session < floor {
      PassedNeverDecides(floor, views, true, session);
      AccountModeNeverRevives(p, floor, views, session);
    } else if views == [] {
      NothingShown(p, session);
    } else {
      var v, next, floor' := views[0], Viewed(p, views[0]), Higher(floor, views[0].b);
      AccountViewMoves(p, floor, v);
      AccountViewDecides(p, floor, v, session);
      ShowsCons(p, views, session);
      MovedIsGated(IdentGate(p.identity), floor, IdentGate(next.identity), floor');
      if Decides(v, true, session) {
        DecidingIsOfSession(v, session);
        if !Applies(v, session) {
          AccountModeNeverRevives(next, floor', views[1..], session);
        }
      } else if v.b.session == 0 || v.b.session == session {
        AccountModeDecides(next, floor', views[1..], session);
      } else {
        PassedNeverDecides(floor', views[1..], true, session);
        AccountModeNeverRevives(next, floor', views[1..], session);
      }
    }
  }

  lemma NothingShown(p: Projection, session: U64)
    ensures !EverShown(ViewShows(p, []), session)
  {
  }

  lemma MovedIsGated(g: Gate, floor: U64, g': Gate, floor': U64)
    requires GateMove(g, floor, g', floor')
    ensures GateInv(g', floor') && floor <= floor'
  {
  }

  lemma DecidingIsOfSession(v: View, session: U64)
    requires Decides(v, true, session)
    ensures v.b.session == session
  {
  }

  // Along one mailbox's drains, shown with and without naming accounts in any
  // mix, a session that was rejected or left while no account had been named is
  // shown as verified again if and only if the first drain that decides about it
  // after an account was named is trusted, whole, and applied. The program's own
  // owner never names an account, so for it no session ever comes back.
  lemma {:induction false} RejectedReappearsExactlyWhen(p: Projection, floor: U64, views: seq<View>, session: U64)
    requires !p.identityMode && p.identity == NEW_IDENT && ViewsRise(floor, views)
    requires GateInv(LegacyGate(p.legacy), floor) && session != 0 && Dead(LegacyGate(p.legacy), floor, session)
    ensures EverShown(ViewShows(p, views), session) <==> Reappears(views, false, session)
    decreases |views|
  {
    hide ViewShows, EverShown, Applies, GateMove;
    if views == [] {
      NothingShown(p, session);
    } else if views[0].Named? {
      FreshIsUndecided(p, floor, session);
      AccountModeDecides(p, floor, views, session);
      SameFirstDeciding(views, session);
    } else {
      var v := views[0];
      LegacyMoves(p.legacy, floor, v.process, v.evidence, v.b);
      var next, floor' := Viewed(p, v), Higher(floor, v.b);
      assert LegacyGate(next.legacy) == LegacyGate(LegacyObserve(p.legacy, v.process, v.evidence, v.b));
      hide LegacyObserve;
      DeadIsHidden(LegacyGate(p.legacy), floor, LegacyGate(next.legacy), floor', session);
      ShowsCons(p, views, session);
      RejectedReappearsExactlyWhen(next, floor', views[1..], session);
    }
  }

  lemma DeadIsHidden(g: Gate, floor: U64, g': Gate, floor': U64, session: U64)
    requires GateMove(g, floor, g', floor') && session != 0 && Dead(g, floor, session)
    ensures GateInv(g', floor') && Dead(g', floor', session) && !ProofIsCurrent(g'.o, session)
  {
  }

  lemma FreshIsUndecided(p: Projection, floor: U64, session: U64)
    requires p.identity == NEW_IDENT && session != 0
    ensures Undecided(p, floor, session)
  {
  }

  lemma SameFirstDeciding(views: seq<View>, session: U64)
    requires views != [] && views[0].Named?
    ensures FirstDeciding(views, false, session) == FirstDeciding(views, true, session)
  {
  }

  // In a program that never names an account nothing comes back.
  lemma {:induction false} WithoutAccountsNothingReappears(p: Projection, floor: U64, views: seq<View>, session: U64)
    requires !p.identityMode && p.identity == NEW_IDENT && ViewsRise(floor, views)
    requires GateInv(LegacyGate(p.legacy), floor) && session != 0 && Dead(LegacyGate(p.legacy), floor, session)
    requires forall i :: 0 <= i < |views| ==> views[i].Plain?
    ensures !EverShown(ViewShows(p, views), session)
  {
    RejectedReappearsExactlyWhen(p, floor, views, session);
    PlainNeverDecides(views, session);
    hide ViewShows, EverShown;
  }

  lemma {:induction false} PlainNeverDecides(views: seq<View>, session: U64)
    requires forall i :: 0 <= i < |views| ==> views[i].Plain?
    ensures FirstDeciding(views, false, session) == |views|
    decreases |views|
  {
    if views != [] {
      PlainNeverDecides(views[1..], session);
    }
  }

  // The failing input: one batch, rejected, and shown as verified by naming an
  // account.
  lemma SwitchForgetsRejection()
    ensures var bad := Batch([NativeEvent(RegisterOk, 1, 0, 7, 0)], 1, false);
            var p := Observe(NEW_PROJECTION, Running, VerifiedNativeApi, bad);
            && Dead(LegacyGate(p.legacy), 1, 1)
            && ProofIsCurrent(ObserveAs(p, Running, VerifiedNativeApi, Batch([], 1, false), 7).Snapshot(), 1)
  {
    var e := NativeEvent(RegisterOk, 1, 0, 7, 0);
    assert Verdict(Fresh(Running, 1), 1, [e][0]) == InvalidOrder;
    assert ReduceAll(Fresh(Running, 1), 1, [e]) == (Fresh(Running, 1), false);
  }

  // The drain that decides need not be the first one to name an account: an
  // untrusted one decides nothing, and the session reappears at the next.
  lemma UntrustedNamingDecidesNothing()
    ensures var bad := Batch([NativeEvent(RegisterOk, 1, 0, 7, 0)], 1, false);
            var p := Observe(NEW_PROJECTION, Running, VerifiedNativeApi, bad);
            var q := ObserveAs(p, Running, NoEvidence, Batch([], 1, false), 7);
            && Dead(LegacyGate(p.legacy), 1, 1)
            && !ProofIsCurrent(q.Snapshot(), 1)
            && ProofIsCurrent(ObserveAs(q, Running, VerifiedNativeApi, Batch([], 1, false), 7).Snapshot(), 1)
  {
    var e := NativeEvent(RegisterOk, 1, 0, 7, 0);
    assert Verdict(Fresh(Running, 1), 1, [e][0]) == InvalidOrder;
    assert ReduceAll(Fresh(Running, 1), 1, [e]) == (Fresh(Running, 1), false);
  }
}
