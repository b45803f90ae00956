// Where a remembered destination comes from, and that it can be called again.
module RecentUse {
  import opened Common
  import opened SipRuntime
  import opened SipHost
  import opened SipAddress
  import opened NativeDestination
  import opened NativeRouting
  import ContactBook
  import opened RecentDestinations

  // A call that was accepted, from a verified session that is registered and has
  // no call, to a destination that may be kept.
  predicate ProperUse(loc: Locale, op: MruOp) {
    && op.Use? && op.accepted
    && ProofIsCurrent(op.o, op.o.session) && op.o.sip == Registered && op.o.callId == 0
    && AcceptableDestination(loc, op.destination)
  }

  // Exactly such a use is remembered: first in the list, under a new token that
  // resolves to it at once. Nothing else gives out a token.
  lemma {:induction false} ProperUsesAreRemembered(loc: Locale, m: Mru, op: MruOp)
    requires Inv(m)
    ensures var after := Step(loc, m, op);
            && (after.nextToken != m.nextToken <==> ProperUse(loc, op) && m.nextToken != MAX64)
            && (ProperUse(loc, op) && m.nextToken != MAX64 ==>
                  && after.list != [] && after.list[0] == Recent(m.nextToken, op.destination)
                  && Lookup(after, m.nextToken, op.o) == Some(after.list[0]))
  {
    hide AcceptableDestination, Without;
  }

  // --- Where it comes from ---------------------------------------------------

  // The operation is in the session, and does not forget.
  predicate Keeps(op: MruOp, session: U64) { op != Forget && ProofIsCurrent(op.o, session) }

  predicate UseOf(op: MruOp, destination: Wide, session: U64) {
    op.Use? && op.destination == destination && op.o.session == session
  }

  // A proper use of the destination, in the session on show and not forgotten since.
  predicate UsedAt(loc: Locale, ops: seq<MruOp>, i: int, destination: Wide, session: U64) {
    && 0 <= i < |ops| && UseOf(ops[i], destination, session) && ProperUse(loc, ops[i])
    && forall j :: i < j < |ops| ==> Keeps(ops[j], session)
  }

  ghost predicate AllUsed(loc: Locale, m: Mru, ops: seq<MruOp>) {
    forall r :: r in m.list ==> exists i :: UsedAt(loc, ops, i, r.destination, m.session)
  }

  lemma {:induction false} UsedLater(loc: Locale, ops: seq<MruOp>, op: MruOp, i: int, destination: Wide, session: U64)
    requires UsedAt(loc, ops, i, destination, session) && op != Forget && ProofIsCurrent(op.o, session)
    ensures UsedAt(loc, ops + [op], i, destination, session)
  {
    hide ProperUse;
  }

  lemma {:induction false} StepUsed(loc: Locale, m: Mru, ops: seq<MruOp>, op: MruOp)
    requires Inv(m) && AllUsed(loc, m, ops)
    ensures AllUsed(loc, Step(loc, m, op), ops + [op])
  {
    var after := Step(loc, m, op);
    KeptOrNew(loc, m, op);
    forall r | r in after.list ensures exists i :: UsedAt(loc, ops + [op], i, r.destination, after.session) {
      if r in m.list && after.session == m.session && op != Forget && ProofIsCurrent(op.o, m.session) {
        var i :| UsedAt(loc, ops, i, r.destination, m.session);
        UsedLater(loc, ops, op, i, r.destination, m.session);
      } else {
        assert UsedAt(loc, ops + [op], |ops|, r.destination, after.session);
      }
    }
    hide Step, ProperUse, UsedAt;
  }

  // An entry was there before, in the same session, or is the one just used.
  lemma {:induction false} KeptOrNew(loc: Locale, m: Mru, op: MruOp)
    requires Inv(m)
    ensures var after := Step(loc, m, op);
            forall r :: r in after.list ==>
              || (r in m.list && after.session == m.session && op != Forget && ProofIsCurrent(op.o, m.session))
              || (ProperUse(loc, op) && r.destination == op.destination && after.session == op.o.session)
  {
    hide AcceptableDestination;
    if op.Use? {
      WithoutKeepsOrder(Synchronized(m, op.o).list, op.destination);
      hide Without;
    }
  }

  lemma {:induction false} RunUsed(loc: Locale, m: Mru, done: seq<MruOp>, ops: seq<MruOp>)
    requires Inv(m) && AllUsed(loc, m, done)
    ensures AllUsed(loc, Run(loc, m, ops), done + ops) && Inv(Run(loc, m, ops))
    decreases |ops|
  {
    hide Inv, AllUsed, Step;
    if ops == [] {
      assert done + [] == done;
    } else {
      StepUsed(loc, m, done, ops[0]);
      StepKeepsInv(loc, m, ops[0]);
      RunUsed(loc, Step(loc, m, ops[0]), done + [ops[0]], ops[1..]);
      assert done + [ops[0]] + ops[1..] == done + ops;
    }
  }

  lemma {:induction false} ResolvedIsListed(loc: Locale, m: Mru, ops: seq<MruOp>, token: U64, o: Observation)
    requires AllUsed(loc, m, ops)
    ensures var r := Lookup(m, token, o);
            r.Some? ==>
              && r.value.token == token && ProofIsCurrent(o, o.session) && Live(o.sip)
              && exists i :: UsedAt(loc, ops, i, r.value.destination, o.session)
  {
    hide UsedAt, Search;
    SearchFinds(m.list, token);
  }

  // After any run: a token resolves only under a verified live session, to a
  // destination that was properly used in that very session, which has been on
  // show ever since.
  lemma ResolvedWasUsed(loc: Locale, ops: seq<MruOp>, token: U64, o: Observation)
    ensures var r := Lookup(Run(loc, INIT, ops), token, o);
            r.Some? ==>
              && r.value.token == token && ProofIsCurrent(o, o.session) && Live(o.sip)
              && exists i :: UsedAt(loc, ops, i, r.value.destination, o.session)
  {
    assert AllUsed(loc, INIT, []) && Inv(INIT);
    hide *;
    RunUsed(loc, INIT, [], ops);
    assert [] + ops == ops;
    ResolvedIsListed(loc, Run(loc, INIT, ops), ops, token, o);
  }

  // --- It can be called again ------------------------------------------------

  // A remembered address is callable whenever its scheme is the account's, or,
  // without TLS, missing: nothing else can stand against it.
  lemma {:induction false} RememberedAddressIsCallable(loc: Locale, d: Wide, a: SipAccount) returns (p: Parts)
    requires AcceptableDestination(loc, d) && AT in d
    ensures PartsOk(loc, p) && p.Text() == d
    ensures CallDestination(loc, d, a).Ok() <==>
            p.scheme == (if a.useTls then SIPS_PREFIX else SIP_PREFIX) || (p.scheme == [] && !a.useTls)
  {
    p := AcceptedHasParts(loc, d);
    UserPartIsUser(loc, p);
    hide PartsOk, Address, UserPlain, CallDestination, UserPartOf;
    AddressIsCallableExactlyWhen(loc, p, a);
    assert |Full(p).Text()| <= |p.Text()| + 4;
  }

  lemma {:induction false} UserPartIsUser(loc: Locale, p: Parts)
    requires PartsOk(loc, p)
    ensures UserPartOf(p.Text()) == p.user
  {
    hide HostGrammar, Clean, NoForbidden;
    CutScheme(loc, p);
    ValueSplits(p);
    assert p.Value()[..|p.user|] == p.user;
  }

  lemma {:induction false} CutScheme(loc: Locale, p: Parts)
    requires PartsOk(loc, p)
    ensures WithoutScheme(p.Text()) == p.Value()
  {
    hide HostGrammar, Clean, NoForbidden;
    var t := p.Text();
    if p.scheme == [] {
      UnschemedValueHasNoColon(loc, p);
      assert t == p.Value();
      SchemePrefixHasColon(t);
    } else {
      SchemeStart(p, []);
      assert t + [] == t;
      assert t[|p.scheme|..] == p.Value();
    }
  }

  // --- The same check twice --------------------------------------------------

  // The check of a contact's destination and that of a remembered one are written
  // apart, and agree on every text.
  lemma {:induction false} ContactsAndRecentsAgree(d: Wide)
    ensures ContactBook.ValidDestination(d) <==> AcceptableDestination(ContactBook.C_LOCALE, d)
  {
    var loc := ContactBook.C_LOCALE;
    if 1 <= |d| <= 128 && Graphic(d) && Address(loc, d).Ok() {
      if AT in d {
        AddressUserAgrees(loc, d);
      } else {
        NumberIsPlain(loc, d);
      }
    }
    hide Address, UserPlain, UserPartOf, ContactBook.UserOk;
  }

  lemma {:induction false} NumberIsPlain(loc: Locale, d: Wide)
    requires Graphic(d) && Address(loc, d).Ok() && AT !in d
    ensures UserPlain(UserPartOf(d)) && ContactBook.UserOk(d)
  {
    var number := WithoutScheme(d);
    assert Printable(d);
    BareNumber(loc, d, number);
    hide Address;
    assert AT !in number;
    assert number[..|number|] == number;
  }

  lemma {:induction false} AddressUserAgrees(loc: Locale, d: Wide)
    requires Address(loc, d).Ok() && AT in d
    ensures UserPlain(UserPartOf(d)) <==> ContactBook.UserOk(d)
  {
    hide Address, PartsOk, UserPartOf, UserPlain, ContactBook.UserOk;
    var p := AcceptedHasParts(loc, d);
    UserPartIsUser(loc, p);
    UserOkIsAboutUser(loc, p);
    UserInText(p);
  }

  lemma {:induction false} UserOkIsAboutUser(loc: Locale, p: Parts)
    requires PartsOk(loc, p)
    ensures |p.scheme| + |p.user| <= |p.Text()|
    ensures ContactBook.UserOk(p.Text()) <==> UserCharacters(p.Text(), |p.scheme|, |p.scheme| + |p.user|)
  {
    UserStarts(loc, p);
    TextUser(p);
    hide PartsOk, UserCharacters, IndexOf;
  }

  lemma {:induction false} UserInText(p: Parts)
    requires |p.scheme| + |p.user| <= |p.Text()|
    ensures UserCharacters(p.Text(), |p.scheme|, |p.scheme| + |p.user|) <==> UserPlain(p.user)
  {
    var t, n := p.Text(), |p.scheme|;
    assert forall i :: 0 <= i < |p.user| ==> p.user[i] == t[n + i];
    assert forall i :: n <= i < n + |p.user| ==> t[i] == p.user[i - n];
    hide UserCharacter;
  }

  lemma {:induction false} UserStarts(loc: Locale, p: Parts)
    requires PartsOk(loc, p)
    ensures AT !in p.scheme && AT !in p.user
    ensures (if SIPS_PREFIX <= p.Text() then 5 else if SIP_PREFIX <= p.Text() then 4 else 0) == |p.scheme|
  {
    hide HostGrammar, Clean, NoForbidden;
    if p.scheme == [] {
      UnschemedValueHasNoColon(loc, p);
      assert p.Text() == p.Value();
      SchemePrefixHasColon(p.Text());
    } else {
      SchemeStart(p, []);
      assert p.Text() + [] == p.Text();
    }
  }
}
