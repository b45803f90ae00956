// Which commands the owner lets through, over its whole life: every command that
// is current, except one that was let through before for the same call.
module NativeAdmissions {
  import opened Common
  import opened SipRuntime
  import opened EventReducer
  import opened EventIdentity
  import opened EventMailbox
  import opened EventProjection
  import opened NativeSessionControl

  function ServeAll(o: Owner, ops: seq<OwnerOp>): Owner
    decreases |ops|
  {
    if ops == [] then o else ServeAll(Serve(o, ops[0]), ops[1..])
  }

  // A command of the kind was let through for the call.
  predicate WasPassed(o: Owner, ops: seq<OwnerOp>, action: NativeAction, key: CallKey) {
    exists i :: 0 <= i < |Passed(o, ops)| && Passed(o, ops)[i].action == action && Key(Passed(o, ops)[i]) == key
  }

  predicate UpTo(a: CallKey, b: CallKey) { a == b || Before(a, b) }

  // What a run remembers of a kind is the last call it let it through for.
  lemma {:induction false} GrantIsTheLast(o: Owner, ops: seq<OwnerOp>, action: NativeAction)
    requires OwnerInv(o) && AllDrainable(o.floor, ops) && Once(action)
    ensures var g, h := LastGranted(o.granted, action), LastGranted(ServeAll(o, ops).granted, action);
            && UpTo(g, h) && (h == g || WasPassed(o, ops, action, h))
            && (forall key :: WasPassed(o, ops, action, key) ==> UpTo(key, h))
    ensures OwnerInv(ServeAll(o, ops))
    decreases |ops|
  {
    if ops != [] {
      var next := Serve(o, ops[0]);
      ServeKeepsInv(o, ops[0]);
      GrantIsTheLast(next, ops[1..], action);
      FirstServed(o, ops, action);
      hide OwnerInv, Serve, WasPassed, ServeAll;
      var h := LastGranted(ServeAll(o, ops).granted, action);
      assert ServeAll(o, ops) == ServeAll(next, ops[1..]) by { ServeFirst(o, ops); }
      forall key | WasPassed(o, ops, action, key) ensures UpTo(key, h) {
        if !WasPassed(next, ops[1..], action, key) {
          assert key == LastGranted(next.granted, action);
        }
      }
    }
  }

  lemma ServeFirst(o: Owner, ops: seq<OwnerOp>)
    requires ops != []
    ensures ServeAll(o, ops) == ServeAll(Serve(o, ops[0]), ops[1..])
  {
  }

  // The first operation, and what it adds to the commands let through.
  lemma {:induction false} FirstServed(o: Owner, ops: seq<OwnerOp>, action: NativeAction)
    requires OwnerInv(o) && ops != [] && Once(action)
    ensures var next := Serve(o, ops[0]);
            var g, h := LastGranted(o.granted, action), LastGranted(next.granted, action);
            && UpTo(g, h) && (h == g || WasPassed(o, ops, action, h))
            && (forall key :: WasPassed(next, ops[1..], action, key) ==> WasPassed(o, ops, action, key))
            && (forall key :: WasPassed(o, ops, action, key) ==> WasPassed(next, ops[1..], action, key) || key == h)
  {
    var next, rest := Serve(o, ops[0]), ops[1..];
    var later := Passed(next, rest);
    var passes := ops[0].Ask? && Admits(o.granted, ops[0].c, o.p.Snapshot());
    assert Passed(o, ops) == (if passes then [ops[0].c] + later else later);
    if passes && Once(ops[0].c.action) {
      GrantIsBehind(o, ops[0].c);
    }
    hide OwnerInv, Observe, ProjectSdk, IsCurrent, Before, Passed;
    if passes {
      forall key | WasPassed(next, rest, action, key) ensures WasPassed(o, ops, action, key) {
        var i :| 0 <= i < |later| && later[i].action == action && Key(later[i]) == key;
        assert Passed(o, ops)[i + 1] == later[i];
      }
      forall key | WasPassed(o, ops, action, key)
        ensures WasPassed(next, rest, action, key) || key == LastGranted(next.granted, action)
      {
        var i :| 0 <= i < |Passed(o, ops)| && Passed(o, ops)[i].action == action && Key(Passed(o, ops)[i]) == key;
        if i > 0 { assert later[i - 1].action == action && Key(later[i - 1]) == key; }
      }
      assert Passed(o, ops)[0] == ops[0].c;
    }
  }

  const NEW_OWNER := Owner(NEW_PROJECTION, 0, NOTHING_GRANTED)

  // After any drains and commands: a command is let through exactly when it is
  // current, and, if it may come once per call, was not let through for this one.
  lemma {:induction false} AdmittedExactlyWhen(ops: seq<OwnerOp>, c: NativeCommand)
    requires AllDrainable(0, ops)
    ensures var o := ServeAll(NEW_OWNER, ops);
            Admits(o.granted, c, o.p.Snapshot()) <==>
            IsCurrent(c, o.p.Snapshot()) && (Once(c.action) ==> !WasPassed(NEW_OWNER, ops, c.action, Key(c)))
  {
    NewOwnerInv();
    var o := ServeAll(NEW_OWNER, ops);
    if IsCurrent(c, o.p.Snapshot()) && Once(c.action) {
      GrantIsTheLast(NEW_OWNER, ops, c.action);
      if Admits(o.granted, c, o.p.Snapshot()) {
        GrantIsBehind(o, c);
      }
    }
    hide OwnerInv, WasPassed, ServeAll;
  }
}
