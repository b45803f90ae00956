// Callback threads racing one manager through the fence, the ingress and the
// lifecycle lock. Every locked body is one step; everything between two locked
// bodies may be interleaved with any other thread.
module CallbackRaces {
  import opened Common
  import opened EventReducer
  import opened EventMailbox
  import opened CallbackIngress
  import opened CallbackLifecycle

  // --- Threads ---------------------------------------------------------------

  // What an admitted callback still intends to do; it may give up the rest.
  datatype Task = ProbeTask | Tell(kind: EventKind, key: U64) | RejectTask

  datatype CallbackPc =
    | Outside
    | Entered(todo: seq<Task>)               // outer lease held, session not yet compared
    | Running(todo: seq<Task>)
    | Nested(task: Task, todo: seq<Task>)    // inner lease held too
    | NestedDone(todo: seq<Task>)
    | WantsLock(todo: seq<Task>)             // reject_current, in order
    | HasLock(todo: seq<Task>)
    | HasClosed(todo: seq<Task>)
    | HasRevoked(todo: seq<Task>)

  datatype Thread = Thread(captured: Captured, pc: CallbackPc)

  datatype ManagerPc =
    | Idle
    | BeginWants(account: U64) | BeginLocked(account: U64) | BeginFenced(account: U64)
    | BeginUnlucky | BeginRefused | BeginEnding(result: Captured)
    | RevokeWants | RevokeLocked | RevokeClosed | RevokeRevoked | Waiting | Quiet | Relocked | Cleared

  datatype Holder = Free | ByManager | ByCallback(i: nat)

  datatype System = System(
    fence: FenceState, ingress: IngressState, current: Captured,
    holder: Holder, threads: seq<Thread>, pc: ManagerPc, issued: set<Captured>)

  function Leases(pc: CallbackPc): nat {
    match pc
    case Outside => 0
    case Nested(_, _) | NestedDone(_) => 2
    case _ => 1
  }

  function InFlight(threads: seq<Thread>): nat {
    if threads == [] then 0 else Leases(threads[0].pc) + InFlight(threads[1..])
  }

  // --- Steps -----------------------------------------------------------------

  datatype Move =
    | StartBegin(account: U64) | StartRevoke
    | Manage
    | Enter(i: nat, captured: Captured, todo: seq<Task>)
    | Advance(i: nat)
    | GiveUp(i: nat)
    | DrainBox

  function Managed(s: System): Option<System> {
    match s.pc
    case Idle => None
    case BeginWants(account) =>
      if s.holder == Free then Some(s.(holder := ByManager, pc := BeginLocked(account))) else None
    case BeginLocked(account) =>
      if account == 0 || s.current.Real() || !CanBegin(s.fence) then Some(s.(pc := BeginEnding(NOBODY)))
      else Some(s.(fence := FenceBegun(s.fence), pc := BeginFenced(account)))
    case BeginFenced(account) =>
      var ingress := Begun(s.ingress, account);
      if s.ingress.session != 0 || ingress.session == 0 then Some(s.(ingress := ingress, pc := BeginUnlucky))
      else
        var c := Captured(s.fence.generation, ingress.session, account);
        Some(s.(ingress := ingress, current := c, issued := s.issued + {c}, pc := BeginEnding(c)))
    case BeginUnlucky => Some(s.(fence := FenceClosed(s.fence), pc := BeginRefused))
    case BeginRefused =>
      if s.fence.inFlight == 0 then Some(s.(fence := FenceQuiet(s.fence), pc := BeginEnding(NOBODY))) else None
    case BeginEnding(_) => Some(s.(holder := Free, pc := Idle))
    case RevokeWants => if s.holder == Free then Some(s.(holder := ByManager, pc := RevokeLocked)) else None
    case RevokeLocked => Some(s.(fence := FenceClosed(s.fence), pc := RevokeClosed))
    case RevokeClosed => Some(s.(ingress := Revoked(s.ingress), pc := RevokeRevoked))
    case RevokeRevoked => Some(s.(holder := Free, pc := Waiting))
    case Waiting =>
      if s.fence.inFlight == 0 then Some(s.(fence := FenceQuiet(s.fence), pc := Quiet)) else None
    case Quiet => if s.holder == Free then Some(s.(holder := ByManager, pc := Relocked)) else None
    case Relocked => Some(s.(current := NOBODY, pc := Cleared))
    case Cleared => Some(s.(holder := Free, pc := Idle))
  }

  function Told(s: IngressState, c: Captured, t: Task): IngressState {
    if !t.Tell? then s
    else if Opens(t.kind) then CallStarted(s, c.session, c.account, t.key, t.kind).0
    else if Continues(t.kind) then CallChanged(s, c.session, c.account, t.key, t.kind).0
    else Registration(s, c.session, c.account, t.kind).0
  }

  function At(s: System, i: nat, pc: CallbackPc): System
    requires i < |s.threads|
  {
    s.(threads := s.threads[i := s.threads[i].(pc := pc)])
  }

  function Lent(s: System): System { s.(fence := s.fence.(inFlight := s.fence.inFlight + 1)) }

  function Returned(s: System): System {
    s.(fence := s.fence.(inFlight := if s.fence.inFlight > 0 then s.fence.inFlight - 1 else 0))
  }

  // An admission, by any captured session that was ever issued.
  function Admission(s: System, i: nat, c: Captured, todo: seq<Task>): Option<System>
    requires i < |s.threads|
  {
    if s.threads[i].pc != Outside || c !in s.issued then None
    else if !Admittable(s.fence, c.generation) then Some(s)
    else Some(Lent(s.(threads := s.threads[i := Thread(c, Entered(todo))])))
  }

  function Advanced(s: System, i: nat): Option<System>
    requires i < |s.threads|
  {
    var c := s.threads[i].captured;
    match s.threads[i].pc
    case Outside => None
    case Entered(todo) =>
      if s.ingress.session == c.session then Some(At(s, i, Running(todo))) else Some(Returned(At(s, i, Outside)))
    case Running(todo) =>
      if todo == [] then Some(Returned(At(s, i, Outside)))
      else if todo[0] == RejectTask then Some(At(s, i, WantsLock(todo[1..])))
      else if Admittable(s.fence, c.generation) then Some(Lent(At(s, i, Nested(todo[0], todo[1..]))))
      else Some(At(s, i, Running(todo[1..])))
    case Nested(task, todo) => Some(At(s.(ingress := Told(s.ingress, c, task)), i, NestedDone(todo)))
    case NestedDone(todo) => Some(Returned(At(s, i, Running(todo))))
    case WantsLock(todo) =>
      if s.holder == Free then Some(At(s.(holder := ByCallback(i)), i, HasLock(todo))) else None
    case HasLock(todo) => Some(At(s.(fence := FenceClosed(s.fence)), i, HasClosed(todo)))
    case HasClosed(todo) => Some(At(s.(ingress := Revoked(s.ingress)), i, HasRevoked(todo)))
    case HasRevoked(todo) => Some(At(s.(holder := Free), i, Running(todo)))
  }

  function Exec(s: System, m: Move): Option<System> {
    match m
    case StartBegin(account) => if s.pc == Idle then Some(s.(pc := BeginWants(account))) else None
    case StartRevoke => if s.pc == Idle then Some(s.(pc := RevokeWants)) else None
    case Manage => Managed(s)
    case Enter(i, c, todo) => if i < |s.threads| then Admission(s, i, c, todo) else None
    case Advance(i) => if i < |s.threads| then Advanced(s, i) else None
    case GiveUp(i) =>
      if i < |s.threads| && s.threads[i].pc.Running? && s.threads[i].pc.todo != [] then Some(At(s, i, Running([]))) else None
    case DrainBox => Some(s.(ingress := s.ingress.(mailbox := Drained(s.ingress.mailbox))))
  }

  // --- The invariant ---------------------------------------------------------

  predicate Holds(pc: CallbackPc) { pc.HasLock? || pc.HasClosed? || pc.HasRevoked? }

  predicate ManagerHolds(pc: ManagerPc) {
    || pc.BeginLocked? || pc.BeginFenced? || pc == BeginUnlucky || pc == BeginRefused || pc.BeginEnding?
    || pc == RevokeLocked || pc == RevokeClosed || pc == RevokeRevoked || pc == Relocked || pc == Cleared
  }

  // Every lease in anyone's hands is counted, and is of the fence's generation.
  ghost predicate LeaseInv(s: System) {
    && s.fence.inFlight == InFlight(s.threads)
    && forall i :: 0 <= i < |s.threads| && Leases(s.threads[i].pc) > 0 ==>
         s.threads[i].captured.generation == s.fence.generation && s.threads[i].captured in s.issued
  }

  ghost predicate LockInv(s: System) {
    && (s.holder == ByManager <==> ManagerHolds(s.pc))
    && (forall i :: 0 <= i < |s.threads| ==> (s.holder == ByCallback(i) <==> Holds(s.threads[i].pc)))
    && (s.holder.ByCallback? ==> s.holder.i < |s.threads|)
  }

  predicate Opening(pc: ManagerPc) { pc.BeginFenced? || pc == BeginUnlucky || pc == BeginRefused }

  predicate Draining(pc: ManagerPc) { pc == RevokeClosed || pc == RevokeRevoked || pc == Waiting }

  predicate Settling(pc: ManagerPc) { pc == Quiet || pc == Relocked || pc == Cleared }

  ghost predicate EpochInv(s: System) {
    && IngressInv(s.ingress)
    && (s.fence.closing ==> !s.fence.accepting)
    && (forall c :: c in s.issued ==> c.Real() && c.generation <= s.fence.generation)
    && (s.current.Real() ==> s.current in s.issued && s.current.generation == s.fence.generation)
    && (!s.current.Real() ==> s.current == NOBODY && s.fence.inFlight == 0)
    && (s.ingress.session != 0 ==> s.current.Real() && s.current.session == s.ingress.session)
  }

  ghost predicate PhaseInv(s: System) {
    && (s.fence.accepting ==> s.current.Real() || s.pc.BeginFenced? || s.pc == BeginUnlucky)
    && (s.fence.closing ==> s.current.Real() || s.pc == BeginRefused || Draining(s.pc))
    && (Opening(s.pc) ==> s.fence.generation != 0 && !s.current.Real() && forall c :: c in s.issued ==> c.generation < s.fence.generation)
    && (s.pc == BeginRefused ==> !s.fence.accepting)
    && (s.pc.BeginFenced? ==> s.pc.account != 0)
    && (Draining(s.pc) ==> s.fence.closing)
    && ((Draining(s.pc) && s.pc != RevokeClosed) || Settling(s.pc) ==> s.ingress.session == 0)
    && (Settling(s.pc) ==> s.fence.inFlight == 0 && !s.fence.accepting && !s.fence.closing)
    && (s.pc == Cleared ==> !s.current.Real())
  }

  // A callback that rejected the session has closed the fence behind it.
  ghost predicate RejectInv(s: System) {
    forall i :: 0 <= i < |s.threads| && (s.threads[i].pc.HasClosed? || s.threads[i].pc.HasRevoked?) ==> s.fence.closing
  }

  ghost predicate SystemInv(s: System) {
    LeaseInv(s) && LockInv(s) && EpochInv(s) && PhaseInv(s) && RejectInv(s)
  }

  function Resting(n: nat): (r: seq<Thread>)
    ensures |r| == n && InFlight(r) == 0
    ensures forall i :: 0 <= i < n ==> r[i] == Thread(NOBODY, Outside)
  {
    if n == 0 then [] else [Thread(NOBODY, Outside)] + Resting(n - 1)
  }

  // Any number of callback threads.
  function NewSystem(n: nat): System {
    System(NEW_FENCE, NEW_INGRESS, NOBODY, Free, Resting(n), Idle, {})
  }

  lemma {:induction false} NewSystemInv(n: nat)
    ensures SystemInv(NewSystem(n))
  {
  }

  // --- Counting leases -------------------------------------------------------

  lemma {:induction false} OneThreadMoves(threads: seq<Thread>, i: nat, t: Thread)
    requires i < |threads|
    ensures InFlight(threads[i := t]) == InFlight(threads) - Leases(threads[i].pc) + Leases(t.pc)
    ensures InFlight(threads) >= Leases(threads[i].pc)
  {
    var moved := threads[i := t];
    if i == 0 {
      assert moved[1..] == threads[1..];
    } else {
      OneThreadMoves(threads[1..], i - 1, t);
      assert moved[1..] == threads[1..][i - 1 := t];
    }
  }

  lemma {:induction false} NobodyInFlight(threads: seq<Thread>, i: nat)
    requires InFlight(threads) == 0 && i < |threads|
    ensures threads[i].pc == Outside
  {
    if i > 0 {
      NobodyInFlight(threads[1..], i - 1);
    }
  }

  lemma {:induction false} SomebodyInFlight(threads: seq<Thread>) returns (i: nat)
    requires InFlight(threads) > 0
    ensures i < |threads| && Leases(threads[i].pc) > 0
  {
    if Leases(threads[0].pc) > 0 {
      i := 0;
    } else {
      i := SomebodyInFlight(threads[1..]);
      i := i + 1;
    }
  }

  // --- Every step keeps the invariant ----------------------------------------

  lemma {:induction false} IngressStepsKeep(s: IngressState, c: Captured, t: Task)
    requires IngressInv(s)
    ensures IngressInv(Told(s, c, t)) && IngressInv(Revoked(s)) && IngressInv(s.(mailbox := Drained(s.mailbox)))
    ensures Told(s, c, t).session == s.session || Told(s, c, t).session == 0
    ensures forall account: U64 :: IngressInv(Begun(s, account))
  {
    hide Emitted, MailboxInv;
    EmissionsKeep(s);
    hide MayStart, MayChange;
  }

  lemma {:induction false} EmissionsKeep(s: IngressState)
    requires IngressInv(s)
    ensures IngressInv(Revoked(s)) && IngressInv(s.(mailbox := Drained(s.mailbox)))
    ensures forall account: U64 :: IngressInv(Begun(s, account))
    ensures forall kind, token: U64, after: IngressState ::
              IngressInv(after.(mailbox := s.mailbox)) && after.session == s.session ==>
                IngressInv(Emitted(s, kind, token, after).0) &&
                (Emitted(s, kind, token, after).0.session == s.session || Emitted(s, kind, token, after).0.session == 0)
  {
  }

  lemma {:induction false} ManagedKeepsLeases(s: System)
    requires SystemInv(s) && Managed(s).Some?
    ensures LeaseInv(Managed(s).value)
  {
    hide IngressInv, Begun, Revoked;
    if s.pc.BeginLocked? && s.fence.inFlight == 0 {
      forall i | 0 <= i < |s.threads| ensures s.threads[i].pc == Outside {
        NobodyInFlight(s.threads, i);
      }
    }
  }

  lemma {:induction false} ManagedKeepsEpochs(s: System)
    requires SystemInv(s) && Managed(s).Some?
    ensures EpochInv(Managed(s).value)
  {
    IngressStepsKeep(s.ingress, NOBODY, ProbeTask);
    hide IngressInv, LeaseInv, LockInv;
    BegunSession(s.ingress);
    hide Begun;
  }

  lemma {:induction false} BegunSession(s: IngressState)
    ensures forall account: U64 :: account != 0 && s.session == 0 ==>
              Begun(s, account).session == 0 || Begun(s, account).session == s.mailbox.generation + 1
    ensures forall account: U64 :: s.session != 0 ==> Begun(s, account) == s
    ensures Revoked(s).session == 0
  {
  }

  lemma {:induction false} ManagedKeepsPhases(s: System)
    requires SystemInv(s) && Managed(s).Some?
    ensures PhaseInv(Managed(s).value)
  {
    BegunSession(s.ingress);
    hide IngressInv, LeaseInv, LockInv, Begun, Revoked;
  }

  lemma {:induction false} ManagedKeepsLock(s: System)
    requires SystemInv(s) && Managed(s).Some?
    ensures LockInv(Managed(s).value)
  {
    hide IngressInv, LeaseInv, EpochInv, PhaseInv, Begun, Revoked;
  }

  // A callback of the fence's generation that holds a lease, and the phases it
  // can be in.
  lemma {:induction false} LeaseFacts(s: System, i: nat)
    requires SystemInv(s) && i < |s.threads| && Leases(s.threads[i].pc) > 0
    ensures s.fence.inFlight >= Leases(s.threads[i].pc) && s.current.Real()
    ensures !Opening(s.pc) && !Settling(s.pc)
  {
    OneThreadMoves(s.threads, i, s.threads[i]);
    hide IngressInv, LockInv, InFlight;
  }

  // A callback's step moves only its own thread, and counts its leases.
  lemma {:induction false} AdvancedShape(s: System, i: nat)
    requires i < |s.threads| && Advanced(s, i).Some? && s.fence.inFlight >= Leases(s.threads[i].pc)
    ensures var after, t := Advanced(s, i).value, s.threads[i];
            && i < |after.threads| && after.threads[i].captured == t.captured
            && after.threads == s.threads[i := after.threads[i]]
            && after.fence.generation == s.fence.generation && after.issued == s.issued
            && after.fence.inFlight == s.fence.inFlight - Leases(t.pc) + Leases(after.threads[i].pc)
            && Leases(t.pc) > 0
  {
    hide Told, Revoked, Admittable;
  }

  lemma {:induction false} OneThreadKeepsLeases(s: System, after: System, i: nat)
    requires LeaseInv(s) && i < |s.threads| && Leases(s.threads[i].pc) > 0
    requires i < |after.threads| && after.threads == s.threads[i := after.threads[i]]
    requires after.threads[i].captured == s.threads[i].captured
    requires after.fence.generation == s.fence.generation && after.issued == s.issued
    requires after.fence.inFlight == s.fence.inFlight - Leases(s.threads[i].pc) + Leases(after.threads[i].pc)
    ensures LeaseInv(after)
  {
    OneThreadMoves(s.threads, i, after.threads[i]);
    hide InFlight;
  }

  lemma {:induction false} AdvancedKeepsLeases(s: System, i: nat)
    requires SystemInv(s) && i < |s.threads| && Advanced(s, i).Some?
    ensures LeaseInv(Advanced(s, i).value)
  {
    assert Leases(s.threads[i].pc) > 0 by { hide SystemInv; }
    LeaseFacts(s, i);
    hide Advanced, EpochInv, LockInv, PhaseInv, LeaseInv;
    AdvancedShape(s, i);
    OneThreadKeepsLeases(s, Advanced(s, i).value, i);
  }

  lemma {:induction false} AdvancedKeepsLock(s: System, i: nat)
    requires SystemInv(s) && i < |s.threads| && Advanced(s, i).Some?
    ensures LockInv(Advanced(s, i).value)
  {
    hide IngressInv, LeaseInv, EpochInv, PhaseInv, InFlight, Told, Revoked;
  }

  lemma {:induction false} AdvancedKeepsEpochs(s: System, i: nat)
    requires SystemInv(s) && i < |s.threads| && Advanced(s, i).Some?
    ensures EpochInv(Advanced(s, i).value) && PhaseInv(Advanced(s, i).value)
  {
    LeaseFacts(s, i);
    var t := s.threads[i];
    IngressStepsKeep(s.ingress, t.captured, if t.pc.Nested? then t.pc.task else ProbeTask);
    BegunSession(s.ingress);
    hide IngressInv, LockInv, InFlight, Told, Revoked, LeaseInv;
  }

  lemma ManagedKeepsRejects(s: System)
    requires SystemInv(s) && Managed(s).Some?
    ensures RejectInv(Managed(s).value)
  {
    if s.fence.inFlight == 0 {
      forall i | 0 <= i < |s.threads| ensures s.threads[i].pc == Outside {
        NobodyInFlight(s.threads, i);
      }
    }
    hide IngressInv, EpochInv, PhaseInv, LockInv, InFlight, Begun, Revoked;
  }

  lemma AdvancedKeepsRejects(s: System, i: nat)
    requires SystemInv(s) && i < |s.threads| && Advanced(s, i).Some?
    ensures RejectInv(Advanced(s, i).value)
  {
    hide IngressInv, EpochInv, PhaseInv, LeaseInv, LockInv, InFlight, Told, Revoked;
  }

  lemma {:induction false} AdmissionKeepsInv(s: System, i: nat, c: Captured, todo: seq<Task>)
    requires SystemInv(s) && i < |s.threads| && Admission(s, i, c, todo).Some?
    ensures SystemInv(Admission(s, i, c, todo).value)
  {
    OneThreadMoves(s.threads, i, Thread(c, Entered(todo)));
    hide IngressInv, InFlight;
  }

  lemma {:induction false} ExecKeepsInv(s: System, m: Move)
    requires SystemInv(s) && Exec(s, m).Some?
    ensures SystemInv(Exec(s, m).value)
  {
    match m
    case StartBegin(_) | StartRevoke => hide IngressInv, InFlight;
    case Manage =>
      ManagedKeepsLeases(s);
      ManagedKeepsLock(s);
      ManagedKeepsEpochs(s);
      ManagedKeepsPhases(s);
      ManagedKeepsRejects(s);
      hide *;
    case Enter(i, c, todo) => AdmissionKeepsInv(s, i, c, todo);
    case Advance(i) =>
      AdvancedKeepsLeases(s, i);
      AdvancedKeepsLock(s, i);
      AdvancedKeepsEpochs(s, i);
      AdvancedKeepsRejects(s, i);
      hide *;
    case GiveUp(i) =>
      OneThreadMoves(s.threads, i, s.threads[i].(pc := Running([])));
      hide IngressInv, InFlight;
    case DrainBox =>
      EmissionsKeep(s.ingress);
      hide IngressInv, InFlight;
  }

  // --- Safety over every interleaving ----------------------------------------

  predicate Possible(s: System, moves: seq<Move>)
    decreases |moves|
  {
    moves == [] || (Exec(s, moves[0]).Some? && Possible(Exec(s, moves[0]).value, moves[1..]))
  }

  function After(s: System, moves: seq<Move>): System
    requires Possible(s, moves)
    decreases |moves|
  {
    if moves == [] then s else After(Exec(s, moves[0]).value, moves[1..])
  }

  lemma {:induction false} RunKeepsInv(s: System, moves: seq<Move>)
    requires SystemInv(s) && Possible(s, moves)
    ensures SystemInv(After(s, moves))
    decreases |moves|
  {
    hide SystemInv, Exec;
    if moves != [] {
      ExecKeepsInv(s, moves[0]);
      RunKeepsInv(Exec(s, moves[0]).value, moves[1..]);
    }
  }

  // However the threads interleave, every lease alive is of the fence's current
  // generation, and each thread's leases are among those the fence counts.
  lemma {:induction false} LeasesAreCurrent(n: nat, moves: seq<Move>, i: nat)
    requires Possible(NewSystem(n), moves)
    ensures var s := After(NewSystem(n), moves);
            && s.fence.inFlight == InFlight(s.threads)
            && (i < |s.threads| && Leases(s.threads[i].pc) > 0 ==>
                  s.threads[i].captured.generation == s.fence.generation && s.current.generation == s.fence.generation)
  {
    NewSystemInv(n);
    RunKeepsInv(NewSystem(n), moves);
    var s := After(NewSystem(n), moves);
    if i < |s.threads| && Leases(s.threads[i].pc) > 0 {
      LeaseFacts(s, i);
    }
    hide Possible, After, NewSystem, LockInv, PhaseInv;
  }

  // A generation starts only while nobody is inside a callback.
  lemma {:induction false} GenerationsStartQuietly(s: System, m: Move, i: nat)
    requires SystemInv(s) && Exec(s, m).Some? && i < |s.threads|
    requires Exec(s, m).value.fence.generation != s.fence.generation
    ensures s.threads[i].pc == Outside && s.fence.inFlight == 0
    ensures Exec(s, m).value.fence.generation == s.fence.generation + 1
  {
    if m.Advance? {
      LeaseFacts(s, m.i);
    }
    if s.fence.inFlight == 0 {
      NobodyInFlight(s.threads, i);
    }
    hide Told, Begun, Revoked, IngressInv, EpochInv, LockInv, PhaseInv, InFlight;
  }

  // Once a session's generation has passed, its callbacks never get in again.
  lemma {:induction false} StaleCallbacksChangeNothing(s: System, moves: seq<Move>, i: nat, c: Captured, todo: seq<Task>)
    requires Possible(s, moves) && c.generation < s.fence.generation
    ensures var t := After(s, moves);
            c.generation < t.fence.generation && (Exec(t, Enter(i, c, todo)) == None || Exec(t, Enter(i, c, todo)) == Some(t))
    decreases |moves|
  {
    if moves != [] {
      NeverBack(s, moves[0]);
      StaleCallbacksChangeNothing(Exec(s, moves[0]).value, moves[1..], i, c, todo);
      hide Exec;
    }
  }

  lemma {:induction false} NeverBack(s: System, m: Move)
    requires Exec(s, m).Some?
    ensures Exec(s, m).value.fence.generation >= s.fence.generation
  {
    hide Told, Begun, Revoked;
  }

  function LifecycleOf(s: System): Lifecycle { Lifecycle(s.fence, s.ingress, s.current) }

  // When revoke_and_wait returns, no callback of any generation is inside or can
  // get in, nothing is queued, and the next begin fails only for want of an
  // account or of unused numbers.
  lemma {:induction false} RevokeReturnsQuiet(s: System)
    requires SystemInv(s) && s.pc == Cleared
    ensures var after := Exec(s, Manage).value;
            && after.pc == Idle && after.holder == Free && after.current == NOBODY
            && (forall i :: 0 <= i < |after.threads| ==> after.threads[i].pc == Outside)
            && (forall captured: U64 :: !Admittable(after.fence, captured))
            && after.ingress.session == 0 && after.ingress.mailbox.queue == []
            && (forall account: U64 :: CanOpen(LifecycleOf(after), account) <==>
                  account != 0 && after.fence.generation != MAX64 && after.ingress.mailbox.generation != MAX64)
  {
    forall i | 0 <= i < |s.threads| ensures s.threads[i].pc == Outside {
      NobodyInFlight(s.threads, i);
    }
    hide InFlight;
  }

  // In any interleaving, a begin is refused for its own reasons only.
  lemma {:induction false} BeginRefusedOnlyForReason(s: System)
    requires SystemInv(s) && s.pc.BeginLocked?
    ensures var after := Exec(s, Manage).value;
            after.pc.BeginFenced? <==> s.pc.account != 0 && !s.current.Real() && s.fence.generation != MAX64
  {
    hide IngressInv, LeaseInv, LockInv;
  }

  lemma {:induction false} BeginIssues(s: System)
    requires SystemInv(s) && s.pc.BeginFenced?
    ensures var after := Exec(s, Manage).value;
            && (after.pc.BeginEnding? <==> s.ingress.mailbox.generation != MAX64)
            && (after.pc.BeginEnding? ==>
                  after.pc.result.Real() && after.pc.result == after.current && after.pc.result !in s.issued)
  {
    hide LeaseInv, LockInv;
    assert s.pc.account != 0 && s.ingress.session == 0 && s.ingress.mailbox.session == 0;
  }

  // --- revoke_and_wait always finishes ---------------------------------------

  predicate Revoking(pc: ManagerPc) {
    pc == RevokeWants || pc == RevokeLocked || Draining(pc) || Settling(pc)
  }

  // A step of the manager or of a callback that was admitted.
  predicate Busy(m: Move) { m == Manage || m.Advance? || m.GiveUp? }

  // As long as revoke_and_wait has not returned, somebody can take a step.
  lemma {:induction false} NoDeadlock(s: System) returns (m: Move)
    requires SystemInv(s) && Revoking(s.pc)
    ensures Busy(m) && Exec(s, m).Some?
  {
    m := Manage;
    if s.holder.ByCallback? {
      m := Advance(s.holder.i);
      assert Holds(s.threads[s.holder.i].pc);
    } else if s.pc == Waiting && s.fence.inFlight > 0 {
      var i := SomebodyInFlight(s.threads);
      m := Advance(i);
      assert s.holder == Free;
    }
    hide IngressInv, EpochInv, InFlight, Told, Revoked, Begun;
  }

  function ThreadWork(pc: CallbackPc): nat {
    match pc
    case Outside => 0
    case Entered(todo) => 2 + 5 * |todo|
    case Running(todo) => 1 + 5 * |todo|
    case Nested(_, todo) => 3 + 5 * |todo|
    case NestedDone(todo) => 2 + 5 * |todo|
    case WantsLock(todo) => 5 + 5 * |todo|
    case HasLock(todo) => 4 + 5 * |todo|
    case HasClosed(todo) => 3 + 5 * |todo|
    case HasRevoked(todo) => 2 + 5 * |todo|
  }

  function Work(threads: seq<Thread>): nat {
    if threads == [] then 0 else ThreadWork(threads[0].pc) + Work(threads[1..])
  }

  function ManagerWork(pc: ManagerPc): nat {
    match pc
    case RevokeWants => 8
    case RevokeLocked => 7
    case RevokeClosed => 6
    case RevokeRevoked => 5
    case Waiting => 4
    case Quiet => 3
    case Relocked => 2
    case Cleared => 1
    case _ => 0
  }

  function Rank(s: System): nat { ManagerWork(s.pc) + Work(s.threads) }

  lemma {:induction false} OneThreadWorks(threads: seq<Thread>, i: nat, t: Thread)
    requires i < |threads|
    ensures Work(threads[i := t]) == Work(threads) - ThreadWork(threads[i].pc) + ThreadWork(t.pc)
  {
    var moved := threads[i := t];
    if i == 0 {
      assert moved[1..] == threads[1..];
    } else {
      OneThreadWorks(threads[1..], i - 1, t);
      assert moved[1..] == threads[1..][i - 1 := t];
    }
  }

  // The manager is inside revoke_and_wait and nobody is admitted any more,
  // whether it closed the fence itself or a callback had.
  predicate Closed(s: System) { Revoking(s.pc) && !s.fence.accepting }

  lemma {:induction false} CallbackWorks(s: System, i: nat)
    requires SystemInv(s) && Closed(s) && i < |s.threads| && Advanced(s, i).Some?
    ensures var after := Advanced(s, i).value;
            i < |after.threads| && ThreadWork(after.threads[i].pc) < ThreadWork(s.threads[i].pc) && after.pc == s.pc
            && after.threads == s.threads[i := after.threads[i]]
  {
    hide Told, Revoked, InFlight, IngressInv, LockInv;
  }

  lemma NobodyAccepts(s: System, i: nat)
    requires i < |s.threads| && Advanced(s, i).Some? && !s.fence.accepting
    ensures !Advanced(s, i).value.fence.accepting
  {
    hide Told, Revoked;
  }

  // Once the fence is closed every step that anybody can still take uses up
  // some of a fixed amount of work, and newcomers change nothing.
  lemma {:induction false} BusyUsesWork(s: System, m: Move)
    requires SystemInv(s) && Closed(s) && Exec(s, m).Some?
    ensures var after := Exec(s, m).value;
            && (Closed(after) || after.pc == Idle)
            && (Busy(m) ==> Rank(after) < Rank(s))
            && (!Busy(m) ==> Rank(after) == Rank(s))
  {
    match m
    case Advance(i) =>
      CallbackWorks(s, i);
      NobodyAccepts(s, i);
      OneThreadWorks(s.threads, i, Advanced(s, i).value.threads[i]);
      hide SystemInv, Advanced, Work;
    case GiveUp(i) =>
      OneThreadWorks(s.threads, i, s.threads[i].(pc := Running([])));
      hide SystemInv, Work;
    case _ =>
      hide Work, InFlight, IngressInv, LockInv, LeaseInv, Told, Begun, Revoked;
  }

  // The busy steps of a run, until the manager's call returns.
  function BusyUntilReturn(s: System, moves: seq<Move>): nat
    requires Possible(s, moves)
    decreases |moves|
  {
    if moves == [] || s.pc == Idle then 0
    else (if Busy(moves[0]) then 1 else 0) + BusyUntilReturn(Exec(s, moves[0]).value, moves[1..])
  }

  // In every interleaving, from the moment nobody is admitted any more, at most
  // Rank(s) steps of the manager and of admitted callbacks precede the return.
  lemma {:induction false} RevokeFinishes(s: System, moves: seq<Move>)
    requires SystemInv(s) && (Closed(s) || s.pc == Idle) && Possible(s, moves)
    ensures BusyUntilReturn(s, moves) <= Rank(s)
    decreases |moves|
  {
    hide SystemInv, Exec, Rank;
    if moves != [] && s.pc != Idle {
      ExecKeepsInv(s, moves[0]);
      BusyUsesWork(s, moves[0]);
      RevokeFinishes(Exec(s, moves[0]).value, moves[1..]);
    }
  }

  // Until then: whose step it is that leads to the closing of the fence.
  function Closer(s: System): Move {
    if s.holder.ByCallback? then Advance(s.holder.i) else Manage
  }

  // That moment comes within two steps of revoke_and_wait: a callback that holds
  // the lock is about to close the fence itself; the manager takes a free lock;
  // and once it has the lock, its next step closes the fence, and nobody else can
  // take the lock from it.
  lemma FenceClosesWithinTwoSteps(s: System, m: Move)
    requires SystemInv(s) && Revoking(s.pc) && s.fence.accepting
    ensures Busy(Closer(s)) && Exec(s, Closer(s)).Some?
    ensures var after := Exec(s, Closer(s)).value;
            Closed(after) || (s.pc == RevokeWants && after.pc == RevokeLocked)
    ensures s.pc == RevokeLocked ==> Closer(s) == Manage && Closed(Exec(s, Manage).value)
    ensures s.pc == RevokeLocked && m != Manage && Exec(s, m).Some? ==> Exec(s, m).value.pc == RevokeLocked
  {
    if s.holder.ByCallback? {
      assert Holds(s.threads[s.holder.i].pc);
    }
    hide IngressInv, LeaseInv, InFlight, Told, Revoked, Begun;
  }
}
