// The most-recently-used destinations: an array shifted in place, refining
// "newest first, each destination once, at most ten".
module RecentDestinations {
  import opened Common
  import opened SipRuntime
  import opened SipHost
  import opened SipAddress
  import opened NativeDestination

  const CAPACITY: nat := 10
  const MAX_DESTINATION: nat := 128

  datatype Recent = Recent(token: U64, destination: Wide)
  const BLANK := Recent(0, [])

  datatype Mru = Mru(list: seq<Recent>, session: U64, nextToken: U64)

  predicate ValidContext(o: Observation) {
    o.process == Running && o.evidence == VerifiedNativeApi && o.session != 0 && Live(o.sip)
  }

  // The user part the native engine would see.
  function UserPartOf(destination: Wide): Wide {
    var user := WithoutScheme(destination);
    user[..IndexOf(user, AT)]
  }

  predicate Graphic(s: Wide) {
    forall i :: 0 <= i < |s| ==> 32 < s[i] < 127
  }

  predicate AcceptableDestination(loc: Locale, d: Wide) {
    && 1 <= |d| <= MAX_DESTINATION
    && Graphic(d)
    && Address(loc, d).Ok()
    && UserPlain(UserPartOf(d))
  }

  predicate Rememberable(loc: Locale, m: Mru, o: Observation, d: Wide, accepted: bool) {
    && accepted && ValidContext(o) && o.sip == Registered && o.callId == 0
    && m.nextToken != MAX64
    && AcceptableDestination(loc, d)
  }

  function Without(list: seq<Recent>, d: Wide): seq<Recent> {
    if list == [] then []
    else if list[0].destination == d then Without(list[1..], d)
    else [list[0]] + Without(list[1..], d)
  }

  function Front<T>(s: seq<T>, n: nat): seq<T> {
    if |s| <= n then s else s[..n]
  }

  function Cleared(m: Mru): Mru {
    Mru([], 0, m.nextToken)
  }

  function Synchronized(m: Mru, o: Observation): Mru {
    if !ValidContext(o) then Cleared(m)
    else if m.session != o.session then Cleared(m).(session := o.session)
    else m
  }

  function Remembered(loc: Locale, m: Mru, o: Observation, d: Wide, accepted: bool): Mru {
    var s := Synchronized(m, o);
    if !Rememberable(loc, s, o, d, accepted) then s
    else Mru(Front([Recent(s.nextToken, d)] + Without(s.list, d), CAPACITY), s.session, s.nextToken + 1)
  }

  predicate Distinct(list: seq<Recent>) {
    forall i, j :: 0 <= i < j < |list| ==> list[i].destination != list[j].destination
  }

  predicate Descending(list: seq<Recent>) {
    forall i, j :: 0 <= i < j < |list| ==> list[i].token > list[j].token
  }

  predicate Issued(list: seq<Recent>, next: U64) {
    forall i :: 0 <= i < |list| ==> 0 < list[i].token < next
  }

  predicate Inv(m: Mru) {
    && |m.list| <= CAPACITY
    && Distinct(m.list) && Descending(m.list) && Issued(m.list, m.nextToken)
    && m.nextToken != 0
    && (m.list != [] ==> m.session != 0)
  }

  const INIT := Mru([], 0, 1)

  lemma {:induction false} WithoutAbsent(list: seq<Recent>, d: Wide)
    requires forall i :: 0 <= i < |list| ==> list[i].destination != d
    ensures Without(list, d) == list
  {
    if list != [] {
      WithoutAbsent(list[1..], d);
    }
  }

  lemma {:induction false} WithoutPresent(list: seq<Recent>, k: nat)
    requires k < |list| && Distinct(list)
    ensures Without(list, list[k].destination) == list[..k] + list[k + 1..]
  {
    if k == 0 {
      WithoutAbsent(list[1..], list[0].destination);
    } else {
      assert Distinct(list[1..]);
      WithoutPresent(list[1..], k - 1);
      assert list[..k] == [list[0]] + list[1..][..k - 1];
      assert list[1..][k - 1] == list[k] && list[1..][k..] == list[k + 1..];
    }
  }

  class RecentList {
    const entries: array<Recent>
    var size: nat
    var session: U64
    var nextToken: U64

    ghost predicate Valid()
      reads this, entries
    {
      && entries.Length == CAPACITY && size <= CAPACITY
      && Inv(State())
      && forall i :: size <= i < CAPACITY ==> entries[i] == BLANK
    }

    ghost function State(): Mru
      reads this, entries
      requires entries.Length == CAPACITY && size <= CAPACITY
    {
      Mru(entries[..size], session, nextToken)
    }

    constructor ()
      ensures Valid() && State() == INIT && fresh(entries)
    {
      entries := new Recent[CAPACITY](_ => BLANK);
      size, session, nextToken := 0, 0, 1;
    }

    // Forgetting wipes every slot; the token sequence survives.
    method Clear()
      requires Valid()
      modifies this, entries
      ensures Valid() && State() == Cleared(old(State()))
    {
      for i := 0 to CAPACITY
        invariant forall j :: 0 <= j < i ==> entries[j] == BLANK
        invariant size == old(size) && nextToken == old(nextToken)
      {
        entries[i] := BLANK;
      }
      size := 0;
      session := 0;
    }

    method Synchronize(o: Observation)
      requires Valid()
      modifies this, entries
      ensures Valid() && State() == Synchronized(old(State()), o)
    {
      if !ValidContext(o) { Clear(); return; }
      if session != o.session { Clear(); session := o.session; }
    }

    method Remember(loc: Locale, o: Observation, d: Wide, accepted: bool) returns (ok: bool)
      requires Valid()
      modifies this, entries
      ensures Valid() && State() == Remembered(loc, old(State()), o, d, accepted)
      ensures ok == Rememberable(loc, Synchronized(old(State()), o), o, d, accepted)
    {
      Synchronize(o);
      if !accepted || !ValidContext(o) || o.sip != Registered || o.callId != 0 ||
         |d| == 0 || |d| > MAX_DESTINATION || nextToken == MAX64 { return false; }
      if !Graphic(d) { return false; }
      var checked := ValidateAddress(loc, d);
      if !checked.Ok() || !UserPlain(UserPartOf(d)) { return false; }
      Promote(d);
      return true;
    }

    // Moves every entry before the position one slot back and writes the first.
    method ShiftInto(position: nat, next: Recent)
      requires entries.Length == CAPACITY && position < CAPACITY
      modifies entries
      ensures entries[..] == [next] + old(entries[..])[..position] + old(entries[..])[position + 1..]
    {
      entries[position] := BLANK;
      for i := position downto 0
        invariant forall k :: i < k <= position ==> entries[k] == old(entries[k - 1])
        invariant forall k :: 0 <= k < i ==> entries[k] == old(entries[k])
        invariant forall k :: position < k < CAPACITY ==> entries[k] == old(entries[k])
      {
        entries[i + 1] := entries[i];
      }
      entries[0] := next;
    }

    method Promote(d: Wide)
      requires Valid() && nextToken != MAX64 && session != 0
      modifies this, entries
      ensures Valid()
      ensures State() == Mru(Front([Recent(old(nextToken), d)] + Without(old(State()).list, d), CAPACITY),
                             old(session), old(nextToken) + 1)
    {
      ghost var m := State();
      ghost var before := entries[..size];
      ghost var all := entries[..];
      var next := Recent(nextToken, d);
      var position := 0;
      while position < size && entries[position].destination != d
        invariant position <= size
        invariant forall i :: 0 <= i < position ==> before[i].destination != d
      {
        position := position + 1;
      }
      ghost var found := position < size;
      if position == size {
        if size < CAPACITY { size := size + 1; }
        position := size - 1;
      }
      ShiftInto(position, next);
      nextToken := nextToken + 1;
      PromotedList(before, d, position, found, next);
      PromotionKeepsInv(m, d);
      assert before[..position] == all[..position];
      assert found ==> before[position + 1..] == all[position + 1..size];
      assert entries[..size] == Front([next] + Without(before, d), CAPACITY);
      forall i | size <= i < CAPACITY ensures entries[i] == BLANK {
        assert entries[..][i] == all[i];
      }
    }

    method Find(token: U64, o: Observation) returns (r: Option<Recent>)
      requires Valid()
      ensures r == Lookup(State(), token, o)
    {
      if token == 0 || !ValidContext(o) || o.session != session { return None; }
      for i := 0 to size
        invariant Search(entries[i..size], token) == Search(entries[..size], token)
      {
        assert entries[i..size][1..] == entries[i + 1..size];
        if entries[i].token == token { return Some(entries[i]); }
      }
      return None;
    }
  }

  // The loop's outcome in terms of the list it started from.
  lemma PromotedList(before: seq<Recent>, d: Wide, position: nat, found: bool, next: Recent)
    requires Distinct(before) && |before| <= CAPACITY
    requires forall i :: 0 <= i < position < |before| ==> before[i].destination != d
    requires found ==> position < |before| && before[position].destination == d
    requires !found ==> forall i :: 0 <= i < |before| ==> before[i].destination != d
    requires !found ==> position == if |before| < CAPACITY then |before| else CAPACITY - 1
    ensures [next] + before[..position] + (if found then before[position + 1..] else [])
         == Front([next] + Without(before, d), CAPACITY)
  {
    if found {
      WithoutPresent(before, position);
    } else {
      WithoutAbsent(before, d);
    }
  }

  lemma WithoutKeepsOrder(list: seq<Recent>, d: Wide)
    requires Distinct(list) && Descending(list)
    ensures Distinct(Without(list, d)) && Descending(Without(list, d)) && |Without(list, d)| <= |list|
    ensures forall i :: 0 <= i < |Without(list, d)| ==> Without(list, d)[i] in list && Without(list, d)[i].destination != d
  {
    if k :| 0 <= k < |list| && list[k].destination == d {
      WithoutPresent(list, k);
    } else {
      WithoutAbsent(list, d);
    }
  }

  lemma PromotionKeepsInv(m: Mru, d: Wide)
    requires Inv(m) && m.nextToken != MAX64 && m.session != 0
    ensures Inv(Mru(Front([Recent(m.nextToken, d)] + Without(m.list, d), CAPACITY), m.session, m.nextToken + 1))
  {
    WithoutKeepsOrder(m.list, d);
    var w := Without(m.list, d);
    forall i | 0 <= i < |w| ensures 0 < w[i].token < m.nextToken {
      var j :| 0 <= j < |m.list| && m.list[j] == w[i];
    }
  }

  // --- Lookup ----------------------------------------------------------------

  function Search(list: seq<Recent>, token: U64): Option<Recent> {
    if list == [] then None
    else if list[0].token == token then Some(list[0])
    else Search(list[1..], token)
  }

  function Lookup(m: Mru, token: U64, o: Observation): Option<Recent> {
    if token == 0 || !ValidContext(o) || o.session != m.session then None else Search(m.list, token)
  }

  predicate Holds(list: seq<Recent>, token: U64) {
    exists i :: 0 <= i < |list| && list[i].token == token
  }

  lemma {:induction false} SearchFinds(list: seq<Recent>, token: U64)
    ensures Search(list, token).Some? <==> Holds(list, token)
    ensures Search(list, token).Some? ==> Search(list, token).value in list && Search(list, token).value.token == token
  {
    if list != [] {
      SearchFinds(list[1..], token);
      if Holds(list, token) && list[0].token != token {
        var i :| 0 <= i < |list| && list[i].token == token;
        assert list[1..][i - 1].token == token;
      }
    }
  }

  // --- Whole runs ------------------------------------------------------------

  datatype MruOp =
    | Observe(o: Observation)
    | Use(o: Observation, destination: Wide, accepted: bool)
    | Forget

  function Step(loc: Locale, m: Mru, op: MruOp): Mru {
    match op
    case Observe(o) => Synchronized(m, o)
    case Use(o, d, accepted) => Remembered(loc, m, o, d, accepted)
    case Forget => Cleared(m)
  }

  function Run(loc: Locale, m: Mru, ops: seq<MruOp>): Mru
    decreases |ops|
  {
    if ops == [] then m else Run(loc, Step(loc, m, ops[0]), ops[1..])
  }

  lemma {:induction false} StepKeepsInv(loc: Locale, m: Mru, op: MruOp)
    requires Inv(m)
    ensures Inv(Step(loc, m, op))
  {
    if op.Use? {
      var s := Synchronized(m, op.o);
      if Rememberable(loc, s, op.o, op.destination, op.accepted) {
        PromotionKeepsInv(s, op.destination);
      }
    }
  }

  // Every reachable list holds each destination once, with tokens strictly
  // falling by position, at most ten of them, all issued.
  lemma {:induction false} RunKeepsInv(loc: Locale, m: Mru, ops: seq<MruOp>)
    requires Inv(m)
    ensures Inv(Run(loc, m, ops))
    decreases |ops|
  {
    if ops != [] {
      StepKeepsInv(loc, m, ops[0]);
      RunKeepsInv(loc, Step(loc, m, ops[0]), ops[1..]);
    }
  }

  lemma {:induction false} StepKeepsDead(loc: Locale, m: Mru, op: MruOp, token: U64)
    requires Inv(m) && token < m.nextToken && !Holds(m.list, token)
    ensures token < Step(loc, m, op).nextToken && !Holds(Step(loc, m, op).list, token)
  {
    hide Rememberable, ValidContext, Without;
    if op.Use? {
      var s := Synchronized(m, op.o);
      WithoutKeepsOrder(s.list, op.destination);
    }
  }

  // An issued token that no longer resolves - evicted, replaced or cleared -
  // never resolves again, under any observation.
  lemma {:induction false} DeadTokensStayDead(loc: Locale, m: Mru, ops: seq<MruOp>, token: U64, o: Observation)
    requires Inv(m) && token < m.nextToken && !Holds(m.list, token)
    ensures Lookup(Run(loc, m, ops), token, o) == None
    decreases |ops|
  {
    if ops == [] {
      SearchFinds(m.list, token);
    } else {
      StepKeepsInv(loc, m, ops[0]);
      StepKeepsDead(loc, m, ops[0], token);
      DeadTokensStayDead(loc, Step(loc, m, ops[0]), ops[1..], token, o);
    }
  }

  // No token issued before a clear resolves after it.
  lemma ClearedTokensStayDead(loc: Locale, m: Mru, ops: seq<MruOp>, token: U64, o: Observation)
    requires Inv(m) && token < m.nextToken
    ensures Lookup(Run(loc, Cleared(m), ops), token, o) == None
  {
    DeadTokensStayDead(loc, Cleared(m), ops, token, o);
  }

  // The unbounded reference: every destination used since the context last
  // changed, newest first, repetitions kept.
  function History(loc: Locale, m: Mru, h: seq<Wide>, ops: seq<MruOp>): seq<Wide>
    decreases |ops|
  {
    if ops == [] then h
    else
      var op := ops[0];
      var s := if op.Forget? then Cleared(m) else Synchronized(m, op.o);
      var kept := if s.session == m.session && m.session != 0 then h else [];
      var next := if op.Use? && Rememberable(loc, s, op.o, op.destination, op.accepted)
                  then [op.destination] + kept else kept;
      History(loc, Step(loc, m, op), next, ops[1..])
  }

  function Drop(s: seq<Wide>, d: Wide): seq<Wide> {
    if s == [] then [] else if s[0] == d then Drop(s[1..], d) else [s[0]] + Drop(s[1..], d)
  }

  // First occurrences only.
  function Dedup(s: seq<Wide>): seq<Wide>
    decreases |s|
  {
    if s == [] then [] else [s[0]] + Drop(Dedup(s[1..]), s[0])
  }

  function Destinations(list: seq<Recent>): (r: seq<Wide>)
    ensures |r| == |list| && forall i :: 0 <= i < |r| ==> r[i] == list[i].destination
  {
    seq(|list|, i requires 0 <= i < |list| => list[i].destination)
  }

  lemma DestinationsCons(r: Recent, list: seq<Recent>)
    ensures Destinations([r] + list) == [r.destination] + Destinations(list)
  {
  }

  lemma {:induction false} DestinationsWithout(list: seq<Recent>, d: Wide)
    ensures Destinations(Without(list, d)) == Drop(Destinations(list), d)
  {
    if list != [] {
      var head, rest := list[0], list[1..];
      assert list == [head] + rest;
      DestinationsWithout(rest, d);
      DestinationsCons(head, rest);
      DestinationsCons(head, Without(rest, d));
      assert ([head.destination] + Destinations(rest))[1..] == Destinations(rest);
    }
  }

  predicate NoRepeats(s: seq<Wide>) {
    forall i, j :: 0 <= i < j < |s| ==> s[i] != s[j]
  }

  lemma {:induction false} DropAbsent(s: seq<Wide>, d: Wide)
    requires d !in s
    ensures Drop(s, d) == s
  {
    if s != [] {
      DropAbsent(s[1..], d);
    }
  }

  lemma {:induction false} DropPresent(s: seq<Wide>, k: nat)
    requires NoRepeats(s) && k < |s|
    ensures Drop(s, s[k]) == s[..k] + s[k + 1..]
  {
    if k == 0 {
      assert forall i :: 0 <= i < |s[1..]| ==> s[1..][i] == s[i + 1];
      DropAbsent(s[1..], s[0]);
    } else {
      DropPresent(s[1..], k - 1);
      assert s[..k] == [s[0]] + s[1..][..k - 1];
      assert s[1..][k - 1] == s[k] && s[1..][k..] == s[k + 1..];
    }
  }

  lemma {:induction false} DedupHasNoRepeats(s: seq<Wide>)
    ensures NoRepeats(Dedup(s))
    decreases |s|
  {
    if s != [] {
      var rest := Dedup(s[1..]);
      DedupHasNoRepeats(s[1..]);
      if k :| 0 <= k < |rest| && rest[k] == s[0] {
        DropPresent(rest, k);
      } else {
        DropAbsent(rest, s[0]);
      }
    }
  }

  // Cutting to n before or after moving a destination to the front is the same.
  lemma FrontOfMoved(s: seq<Wide>, d: Wide, n: nat)
    requires NoRepeats(s) && n > 0
    ensures Front([d] + Drop(Front(s, n), d), n) == Front([d] + Drop(s, d), n)
  {
    var f := Front(s, n);
    assert forall i :: 0 <= i < |f| ==> f[i] == s[i];
    if k :| 0 <= k < |s| && s[k] == d {
      DropPresent(s, k);
      if k < |f| {
        DropPresent(f, k);
        assert f[..k] == s[..k];
      } else {
        DropAbsent(f, d);
      }
    } else {
      DropAbsent(s, d);
      DropAbsent(f, d);
    }
  }

  // The bounded array never loses what the unbounded history would show first:
  // its destinations are the first ten distinct ones of the full history.
  lemma {:induction false} RunShowsHistory(loc: Locale, m: Mru, h: seq<Wide>, ops: seq<MruOp>)
    requires Inv(m)
    requires Destinations(m.list) == Front(Dedup(h), CAPACITY)
    ensures Destinations(Run(loc, m, ops).list) == Front(Dedup(History(loc, m, h, ops)), CAPACITY)
    decreases |ops|
  {
    hide Rememberable, ValidContext, Without, Inv;
    if ops != [] {
      var op := ops[0];
      var s := if op.Forget? then Cleared(m) else Synchronized(m, op.o);
      var kept := if s.session == m.session && m.session != 0 then h else [];
      StepKeepsInv(loc, m, op);
      assert Destinations(s.list) == Front(Dedup(kept), CAPACITY);
      if op.Use? && Rememberable(loc, s, op.o, op.destination, op.accepted) {
        RememberShowsHistory(s, kept, op.destination);
        RunShowsHistory(loc, Step(loc, m, op), [op.destination] + kept, ops[1..]);
      } else {
        RunShowsHistory(loc, Step(loc, m, op), kept, ops[1..]);
      }
    }
  }

  lemma RememberShowsHistory(s: Mru, kept: seq<Wide>, d: Wide)
    requires Destinations(s.list) == Front(Dedup(kept), CAPACITY)
    ensures Destinations(Front([Recent(s.nextToken, d)] + Without(s.list, d), CAPACITY))
         == Front(Dedup([d] + kept), CAPACITY)
  {
    var added := [Recent(s.nextToken, d)] + Without(s.list, d);
    DestinationsWithout(s.list, d);
    assert Destinations(added) == [d] + Drop(Destinations(s.list), d);
    assert Destinations(Front(added, CAPACITY)) == Front(Destinations(added), CAPACITY);
    assert ([d] + kept)[1..] == kept;
    DedupHasNoRepeats(kept);
    FrontOfMoved(Dedup(kept), d, CAPACITY);
  }
}
