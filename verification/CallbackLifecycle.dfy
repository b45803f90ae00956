// The gate every native callback passes, and the lifecycle that closes it.
// Each method is one critical section, or one call seen without interference;
// CallbackRaces lets threads interleave between the critical sections.
module CallbackLifecycle {
  import opened Common
  import opened EventReducer
  import opened EventMailbox
  import opened CallbackIngress

  datatype FenceState = FenceState(generation: U64, inFlight: nat, accepting: bool, closing: bool)

  const NEW_FENCE := FenceState(0, 0, false, false)

  predicate CanBegin(f: FenceState) {
    !f.accepting && !f.closing && f.inFlight == 0 && f.generation != MAX64
  }

  function FenceBegun(f: FenceState): FenceState {
    if CanBegin(f) then f.(accepting := true, generation := f.generation + 1) else f
  }

  predicate Admittable(f: FenceState, captured: U64) {
    f.accepting && !f.closing && captured != 0 && captured == f.generation
  }

  function FenceClosed(f: FenceState): FenceState {
    f.(accepting := false, closing := true)
  }

  // The end of wait(), reached only once nothing is in flight.
  function FenceQuiet(f: FenceState): FenceState {
    f.(closing := false)
  }

  // The whole of wait(): every lease has come back, and begin() is open again.
  function FenceWaited(f: FenceState): FenceState {
    FenceQuiet(f.(inFlight := 0))
  }

  class Fence {
    var generation: U64
    var inFlight: nat
    var accepting: bool
    var closing: bool

    ghost function State(): FenceState
      reads this
    {
      FenceState(generation, inFlight, accepting, closing)
    }

    constructor ()
      ensures State() == NEW_FENCE
    {
      generation, inFlight, accepting, closing := 0, 0, false, false;
    }

    method Begin() returns (r: U64)
      modifies this
      ensures State() == FenceBegun(old(State())) && r == if CanBegin(old(State())) then generation else 0
    {
      if accepting || closing || inFlight != 0 || generation == MAX64 { return 0; }
      accepting := true;
      generation := generation + 1;
      return generation;
    }

    method Admit(captured: U64) returns (lease: bool)
      modifies this
      ensures lease == Admittable(old(State()), captured)
      ensures State() == if lease then old(State()).(inFlight := old(inFlight) + 1) else old(State())
    {
      if !accepting || closing || captured == 0 || captured != generation { return false; }
      inFlight := inFlight + 1;
      return true;
    }

    method Close()
      modifies this
      ensures State() == FenceClosed(old(State()))
    {
      accepting := false;
      closing := true;
    }

    method ReleaseOne()
      requires inFlight > 0
      modifies this
      ensures State() == old(State()).(inFlight := old(inFlight) - 1)
    {
      inFlight := inFlight - 1;
    }

    // While it waits, those that hold a lease return it.
    method Wait()
      modifies this
      ensures State() == FenceWaited(old(State()))
    {
      while inFlight != 0
        invariant State() == old(State()).(inFlight := inFlight)
        decreases inFlight
      {
        ReleaseOne();
      }
      closing := false;
    }
  }

  // --- The lifecycle ---------------------------------------------------------

  datatype Captured = Captured(generation: U64, session: U64, account: U64) {
    predicate Real() { generation != 0 && session != 0 && account != 0 }
  }

  const NOBODY := Captured(0, 0, 0)

  datatype Lifecycle = Lifecycle(fence: FenceState, ingress: IngressState, current: Captured)

  const NEW_LIFECYCLE := Lifecycle(NEW_FENCE, NEW_INGRESS, NOBODY)

  predicate CanOpen(l: Lifecycle, account: U64) {
    && account != 0 && !l.current.Real() && CanBegin(l.fence)
    && l.ingress.session == 0 && l.ingress.mailbox.generation != MAX64
  }

  // A session for the account; without one the fence is closed again.
  function Opened(l: Lifecycle, account: U64): (Lifecycle, Captured) {
    if account == 0 || l.current.Real() || !CanBegin(l.fence) then (l, NOBODY)
    else
      var fence, ingress := FenceBegun(l.fence), Begun(l.ingress, account);
      if l.ingress.session != 0 || ingress.session == 0 then
        (Lifecycle(FenceWaited(FenceClosed(fence)), ingress, l.current), NOBODY)
      else
        var c := Captured(fence.generation, ingress.session, account);
        (Lifecycle(fence, ingress, c), c)
  }

  predicate IsLive(l: Lifecycle, c: Captured) {
    Admittable(l.fence, c.generation) && l.ingress.session == c.session
  }

  // What a published event does when its lease was given, and released again.
  function Published(l: Lifecycle, c: Captured, after: (IngressState, bool)): (Lifecycle, bool) {
    if Admittable(l.fence, c.generation) then (l.(ingress := after.0), after.1) else (l, false)
  }

  function PublishedRegistration(l: Lifecycle, c: Captured, kind: EventKind): (Lifecycle, bool) {
    Published(l, c, Registration(l.ingress, c.session, c.account, kind))
  }

  function PublishedStart(l: Lifecycle, c: Captured, key: U64, kind: EventKind): (Lifecycle, bool) {
    Published(l, c, CallStarted(l.ingress, c.session, c.account, key, kind))
  }

  function PublishedChange(l: Lifecycle, c: Captured, key: U64, kind: EventKind): (Lifecycle, bool) {
    Published(l, c, CallChanged(l.ingress, c.session, c.account, key, kind))
  }

  function Rejected(l: Lifecycle): Lifecycle {
    l.(fence := FenceClosed(l.fence), ingress := Revoked(l.ingress))
  }

  // The whole of revoke_and_wait. Whatever the callbacks in flight still do
  // before they return, a closed fence and a revoked ingress stay as they are.
  function RevokedQuiet(l: Lifecycle): Lifecycle {
    Lifecycle(FenceWaited(FenceClosed(l.fence)), Revoked(l.ingress), NOBODY)
  }

  // While revoke_and_wait waits, a callback still in flight can neither publish
  // nor find its session live, and rejecting the session again changes nothing.
  lemma CallbacksCannotDisturbTheWait(l: Lifecycle, c: Captured, key: U64, kind: EventKind)
    ensures var waiting := Rejected(l);
            && PublishedRegistration(waiting, c, kind) == (waiting, false)
            && PublishedStart(waiting, c, key, kind) == (waiting, false)
            && PublishedChange(waiting, c, key, kind) == (waiting, false)
            && !IsLive(waiting, c) && Rejected(waiting) == waiting
  {
    hide Registration, CallStarted, CallChanged;
  }

  class LifecycleObject {
    const fence: Fence
    const ingress: Ingress
    var current: Captured

    ghost const Repr: set<object> := {this, fence, ingress, ingress.mailbox, ingress.mailbox.entries}

    ghost predicate Valid()
      reads Repr
    {
      ingress.Valid()
    }

    ghost function State(): Lifecycle
      requires Valid()
      reads Repr
    {
      Lifecycle(fence.State(), ingress.State(), current)
    }

    constructor (mailbox: Mailbox)
      requires mailbox.Valid()
      ensures Valid() && ingress.mailbox == mailbox && fresh(fence) && fresh(ingress)
      ensures State() == Lifecycle(NEW_FENCE, IngressState(0, 0, 0, 0, 0, 0, mailbox.State()), NOBODY)
    {
      fence := new Fence();
      ingress := new Ingress(mailbox);
      current := NOBODY;
    }

    method Begin(validatedAccount: U64) returns (c: Captured)
      requires Valid()
      modifies Repr
      ensures Valid() && (State(), c) == Opened(old(State()), validatedAccount)
      ensures c.Real() <==> CanOpen(old(State()), validatedAccount)
      ensures c.Real() ==> fence.inFlight == 0
    {
      if validatedAccount == 0 || current.Real() { return NOBODY; }
      var generation := fence.Begin();
      if generation == 0 { return NOBODY; }
      var session := ingress.BeginSession(validatedAccount);
      if session == 0 {
        fence.Close();
        fence.Wait();
        return NOBODY;
      }
      current := Captured(generation, session, validatedAccount);
      return current;
    }

    // The lease outlives the call when it is granted.
    method HoldNativeCallback(c: Captured) returns (lease: bool)
      requires Valid()
      modifies Repr
      ensures Valid() && lease == IsLive(old(State()), c)
      ensures State() == if lease then old(State()).(fence := old(State()).fence.(inFlight := old(fence.inFlight) + 1))
                         else old(State())
    {
      lease := fence.Admit(c.generation);
      if lease && ingress.session != c.session {
        fence.ReleaseOne();
        return false;
      }
    }

    method PublishRegistration(c: Captured, kind: EventKind) returns (ok: bool)
      requires Valid()
      modifies Repr
      ensures Valid() && (State(), ok) == PublishedRegistration(old(State()), c, kind)
    {
      var lease := fence.Admit(c.generation);
      if !lease { return false; }
      ok := ingress.RegistrationEvent(c.session, c.account, kind);
      fence.ReleaseOne();
    }

    method PublishStart(c: Captured, key: U64, kind: EventKind) returns (ok: bool, emitted: U64)
      requires Valid()
      modifies Repr
      ensures Valid() && (State(), ok) == PublishedStart(old(State()), c, key, kind)
      ensures emitted == if ok then State().ingress.activeToken else 0
    {
      emitted := 0;
      var lease := fence.Admit(c.generation);
      if !lease { return false, 0; }
      ok, emitted := ingress.CallStartedEvent(c.session, c.account, key, kind);
      fence.ReleaseOne();
    }

    method PublishChange(c: Captured, key: U64, kind: EventKind) returns (ok: bool)
      requires Valid()
      modifies Repr
      ensures Valid() && (State(), ok) == PublishedChange(old(State()), c, key, kind)
    {
      var lease := fence.Admit(c.generation);
      if !lease { return false; }
      ok := ingress.CallChangedEvent(c.session, c.account, key, kind);
      fence.ReleaseOne();
    }

    method Probe(c: Captured) returns (live: bool)
      requires Valid()
      modifies Repr
      ensures Valid() && State() == old(State()) && live == IsLive(old(State()), c)
    {
      var lease := fence.Admit(c.generation);
      live := lease && ingress.session == c.session;
      if lease { fence.ReleaseOne(); }
    }

    method RejectCurrent()
      requires Valid()
      modifies Repr
      ensures Valid() && State() == Rejected(old(State()))
    {
      fence.Close();
      ingress.Revoke();
    }

    method RevokeAndWait()
      requires Valid()
      modifies Repr
      ensures Valid() && State() == RevokedQuiet(old(State()))
    {
      fence.Close();
      ingress.Revoke();
      fence.Wait();
      current := NOBODY;
    }
  }
}
