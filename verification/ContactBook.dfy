// The contact book: which drafts are valid, and the operations that keep every
// stored contact valid, unique by destination and unique by id.
module ContactBook {
  import opened Common
  import opened SipAddress
  import opened NativeDestination
  import opened Utf8

  const CAPACITY: nat := 500
  const MAX_NAME: nat := 64
  const MAX_DESTINATION: nat := 128

  datatype Draft = Draft(name: Wide, destination: Wide, favorite: bool)
  datatype Contact = Contact(id: U64, name: Wide, destination: Wide, favorite: bool) {
    function ToDraft(): Draft { Draft(name, destination, favorite) }
  }
  datatype ContactResult = Done | Invalid | Duplicate | Full | NotFound | Exhausted

  // --- Valid drafts ----------------------------------------------------------

  predicate IsControlPoint(cp: nat) {
    cp < 0x20 || 0x7F <= cp <= 0x9F
  }

  // Controls and the invisible or direction-changing format characters.
  predicate NameForbids(cp: nat) {
    || IsControlPoint(cp) || cp == 0x061C || 0x200B <= cp <= 0x200F || 0x2028 <= cp <= 0x202E
    || 0x2060 <= cp <= 0x206F || cp == 0xFEFF
  }

  predicate IsBlankPoint(cp: nat) {
    || cp == 0x20 || cp == 0xA0 || cp == 0x1680 || 0x2000 <= cp <= 0x200A
    || cp == 0x202F || cp == 0x205F || cp == 0x3000
  }

  predicate NameAllows(cps: seq<nat>) {
    forall i :: 0 <= i < |cps| ==> !NameForbids(cps[i])
  }

  predicate ShowsSomething(cps: seq<nat>) {
    exists i :: 0 <= i < |cps| && !IsBlankPoint(cps[i])
  }

  predicate ValidName(name: Wide) {
    && |name| <= MAX_NAME
    && WellPaired(name)
    && NameAllows(CodePoints(name))
    && ShowsSomething(CodePoints(name))
  }

  // Outside ASCII the character classes are never consulted for a destination.
  const C_LOCALE := Locale({}, {}, {})

  predicate Graphic(s: Wide) {
    forall i :: 0 <= i < |s| ==> 32 < s[i] < 127
  }

  predicate UserOk(d: Wide) {
    var at := IndexOf(d, AT);
    var start := if SIPS_PREFIX <= d then 5 else if SIP_PREFIX <= d then 4 else 0;
    at == |d| || UserCharacters(d, start, at)
  }

  predicate ValidDestination(d: Wide) {
    1 <= |d| <= MAX_DESTINATION && Graphic(d) && Address(C_LOCALE, d).Ok() && UserOk(d)
  }

  predicate ValidDraft(d: Draft) {
    ValidName(d.name) && ValidDestination(d.destination)
  }

  lemma {:induction false} CodePointsStep(name: Wide)
    requires WellPaired(name) && name != []
    ensures NameAllows(CodePoints(name)) <==>
            !NameForbids(First(name)) && NameAllows(CodePoints(name[Width(name)..]))
    ensures ShowsSomething(CodePoints(name)) <==>
            !IsBlankPoint(First(name)) || ShowsSomething(CodePoints(name[Width(name)..]))
  {
    var rest := CodePoints(name[Width(name)..]);
    var all := CodePoints(name);
    assert all == [First(name)] + rest;
    assert forall i :: 0 <= i < |rest| ==> all[i + 1] == rest[i];
    if ShowsSomething(rest) {
      var i :| 0 <= i < |rest| && !IsBlankPoint(rest[i]);
      assert !IsBlankPoint(all[i + 1]);
    }
    if !IsBlankPoint(First(name)) {
      assert !IsBlankPoint(all[0]);
    }
  }

  method CheckName(name: Wide) returns (ok: bool)
    ensures ok == ValidName(name)
  {
    if |name| == 0 { return false; }
    var units: nat := 0;
    var visible := false;
    var i := 0;
    while i < |name|
      invariant i <= |name| && units == i <= MAX_NAME
      invariant WellPaired(name) <==> WellPaired(name[i..])
      invariant WellPaired(name) ==>
                && (NameAllows(CodePoints(name)) <==> NameAllows(CodePoints(name[i..])))
                && (ShowsSomething(CodePoints(name)) <==> visible || ShowsSomething(CodePoints(name[i..])))
    {
      ghost var rest := name[i..];
      var cp: nat := name[i];
      if IsHigh(cp) {
        if i + 1 == |name| { return false; }
        i := i + 1;
        var low: nat := name[i];
        if !IsLow(low) { return false; }
        cp := 0x10000 + (cp - 0xD800) * 1024 + low - 0xDC00;
        assert rest[2..] == name[i + 1..];
      } else if IsLow(cp) {
        return false;
      } else {
        assert rest[1..] == name[i + 1..];
      }
      if WellPaired(rest) {
        CodePointsStep(rest);
        assert First(rest) == cp && rest[Width(rest)..] == name[i + 1..];
      }
      units := units + if cp > 0xFFFF then 2 else 1;
      if units > MAX_NAME || NameForbids(cp) { return false; }
      if !IsBlankPoint(cp) { visible := true; }
      i := i + 1;
    }
    assert name[|name|..] == [];
    return visible;
  }

  lemma LocaleIrrelevant(loc: Locale, d: Wide)
    requires Graphic(d)
    ensures Address(loc, d) == Address(C_LOCALE, d)
  {
    assert Clean(loc, d) <==> Clean(C_LOCALE, d);
    var colon := IndexOf(d, COLON);
    var value := if colon < |d| then d[colon + 1..] else d;
    assert Graphic(value);
    assert DialString(loc, value) <==> DialString(C_LOCALE, value) by {
      assert forall i :: 0 <= i < |value| ==> (DialCharacter(loc, value[i]) <==> DialCharacter(C_LOCALE, value[i]));
    }
  }

  method CheckUser(d: Wide) returns (ok: bool)
    ensures ok == UserOk(d)
  {
    var at := IndexOf(d, AT);
    if at == |d| { return true; }
    var start := if SIPS_PREFIX <= d then 5 else if SIP_PREFIX <= d then 4 else 0;
    var i := start;
    while i < at
      invariant start <= i
      invariant forall j :: start <= j < i && j < at ==> UserCharacter(d[j])
    {
      if !UserCharacter(d[i]) { return false; }
      i := i + 1;
    }
    return true;
  }

  method CheckDestination(loc: Locale, d: Wide) returns (ok: bool)
    ensures ok == ValidDestination(d)
  {
    if |d| == 0 || |d| > MAX_DESTINATION { return false; }
    for i := 0 to |d|
      invariant forall j :: 0 <= j < i ==> 32 < d[j] < 127
    {
      if d[i] <= 32 || d[i] >= 127 { return false; }
    }
    LocaleIrrelevant(loc, d);
    var address := ValidateAddress(loc, d);
    if !address.Ok() { return false; }
    ok := CheckUser(d);
  }

  method CheckDraft(loc: Locale, d: Draft) returns (ok: bool)
    ensures ok == ValidDraft(d)
  {
    var nameOk := CheckName(d.name);
    if !nameOk { return false; }
    ok := CheckDestination(loc, d.destination);
  }

  // --- The book --------------------------------------------------------------

  // nextId 0 marks that every identifier has been issued.
  datatype Book = Book(items: seq<Contact>, nextId: U64)

  const EMPTY := Book([], 1)

  predicate UniqueDestinations(items: seq<Contact>) {
    forall i, j :: 0 <= i < j < |items| ==> items[i].destination != items[j].destination
  }

  predicate UniqueIds(items: seq<Contact>) {
    forall i, j :: 0 <= i < j < |items| ==> items[i].id != items[j].id
  }

  predicate Inv(b: Book) {
    && |b.items| <= CAPACITY
    && AllValid(b.items)
    && UniqueDestinations(b.items)
    && UniqueIds(b.items)
    && AllIssued(b)
  }

  predicate AllValid(items: seq<Contact>) {
    forall i :: 0 <= i < |items| ==> ValidDraft(items[i].ToDraft())
  }

  predicate AllIssued(b: Book) {
    forall i :: 0 <= i < |b.items| ==> Issued(b, b.items[i].id)
  }

  predicate Issued(b: Book, id: U64) {
    id != 0 && (b.nextId == 0 || id < b.nextId)
  }

  // The position of the contact with that id, or the size.
  function Position(items: seq<Contact>, id: U64): (k: nat)
    ensures k <= |items|
    ensures k < |items| ==> items[k].id == id
    ensures forall j :: 0 <= j < k ==> items[j].id != id
  {
    if items == [] then 0
    else if items[0].id == id then 0
    else 1 + Position(items[1..], id)
  }

  // Some other contact already has the destination.
  predicate Taken(items: seq<Contact>, destination: Wide, except: U64) {
    exists i :: 0 <= i < |items| && items[i].id != except && items[i].destination == destination
  }

  function Add(b: Book, d: Draft): (Book, ContactResult) {
    if !ValidDraft(d) then (b, Invalid)
    else if exists i :: 0 <= i < |b.items| && b.items[i].destination == d.destination then (b, Duplicate)
    else if |b.items| >= CAPACITY then (b, Full)
    else if b.nextId == 0 then (b, Exhausted)
    else (Book(b.items + [Contact(b.nextId, d.name, d.destination, d.favorite)], Next64(b.nextId)), Done)
  }

  function Update(b: Book, id: U64, d: Draft): (Book, ContactResult) {
    var k := Position(b.items, id);
    if k == |b.items| then (b, NotFound)
    else if !ValidDraft(d) then (b, Invalid)
    else if Taken(b.items, d.destination, id) then (b, Duplicate)
    else (b.(items := b.items[k := Contact(id, d.name, d.destination, d.favorite)]), Done)
  }

  function Remove(b: Book, id: U64): (Book, ContactResult) {
    var k := Position(b.items, id);
    if k == |b.items| then (b, NotFound) else (b.(items := b.items[..k] + b.items[k + 1..]), Done)
  }

  function SetFavorite(b: Book, id: U64, favorite: bool): (Book, ContactResult) {
    var k := Position(b.items, id);
    if k == |b.items| then (b, NotFound)
    else (b.(items := b.items[k := b.items[k].(favorite := favorite)]), Done)
  }

  class ContactStore {
    var items: seq<Contact>
    var nextId: U64

    function State(): Book
      reads this
    {
      Book(items, nextId)
    }

    constructor ()
      ensures State() == EMPTY
    {
      items, nextId := [], 1;
    }

    method Find(id: U64) returns (k: nat)
      ensures k == Position(items, id)
    {
      k := 0;
      while k < |items| && items[k].id != id
        invariant k <= |items|
        invariant k + Position(items[k..], id) == Position(items, id)
      {
        assert items[k..][1..] == items[k + 1..];
        k := k + 1;
      }
    }

    method FindTaken(destination: Wide, except: U64) returns (taken: bool)
      ensures taken == Taken(items, destination, except)
    {
      for i := 0 to |items|
        invariant forall j :: 0 <= j < i ==> items[j].id == except || items[j].destination != destination
      {
        if items[i].id != except && items[i].destination == destination { return true; }
      }
      return false;
    }

    method AddContact(loc: Locale, d: Draft) returns (r: ContactResult)
      modifies this
      ensures (State(), r) == Add(old(State()), d)
    {
      var valid := CheckDraft(loc, d);
      if !valid { return Invalid; }
      for i := 0 to |items|
        invariant forall j :: 0 <= j < i ==> items[j].destination != d.destination
      {
        if items[i].destination == d.destination { return Duplicate; }
      }
      if |items| >= CAPACITY { return Full; }
      if nextId == 0 { return Exhausted; }
      items := items + [Contact(nextId, d.name, d.destination, d.favorite)];
      nextId := Next64(nextId);
      return Done;
    }

    method UpdateContact(loc: Locale, id: U64, d: Draft) returns (r: ContactResult)
      modifies this
      ensures (State(), r) == Update(old(State()), id, d)
    {
      hide ValidDraft;
      var k := Find(id);
      if k == |items| { return NotFound; }
      var valid := CheckDraft(loc, d);
      if !valid { return Invalid; }
      var taken := FindTaken(d.destination, id);
      if taken { return Duplicate; }
      items := items[k := items[k].(name := d.name, destination := d.destination, favorite := d.favorite)];
      return Done;
    }

    method RemoveContact(id: U64) returns (r: ContactResult)
      modifies this
      ensures (State(), r) == Remove(old(State()), id)
    {
      var k := Find(id);
      if k == |items| { return NotFound; }
      items := items[..k] + items[k + 1..];
      return Done;
    }

    method MarkFavorite(id: U64, favorite: bool) returns (r: ContactResult)
      modifies this
      ensures (State(), r) == SetFavorite(old(State()), id, favorite)
    {
      var k := Find(id);
      if k == |items| { return NotFound; }
      items := items[k := items[k].(favorite := favorite)];
      return Done;
    }
  }

  // --- Whole runs ------------------------------------------------------------

  datatype BookOp =
    | AddOp(draft: Draft)
    | UpdateOp(id: U64, draft: Draft)
    | RemoveOp(id: U64)
    | FavoriteOp(id: U64, favorite: bool)

  function Step(b: Book, op: BookOp): Book {
    match op
    case AddOp(d) => Add(b, d).0
    case UpdateOp(id, d) => Update(b, id, d).0
    case RemoveOp(id) => Remove(b, id).0
    case FavoriteOp(id, f) => SetFavorite(b, id, f).0
  }

  function Run(b: Book, ops: seq<BookOp>): Book
    decreases |ops|
  {
    if ops == [] then b else Run(Step(b, ops[0]), ops[1..])
  }

  lemma AppendKeepsIds(b: Book, c: Contact)
    requires UniqueIds(b.items) && AllIssued(b) && b.nextId != 0 && c.id == b.nextId
    ensures UniqueIds(b.items + [c]) && AllIssued(Book(b.items + [c], Next64(b.nextId)))
  {
    var after := Book(b.items + [c], Next64(b.nextId));
    forall i | 0 <= i < |after.items| ensures Issued(after, after.items[i].id) {
      if i < |b.items| { assert Issued(b, b.items[i].id); }
    }
    forall i | 0 <= i < |b.items| ensures b.items[i].id != c.id {
      assert Issued(b, b.items[i].id);
    }
  }

  lemma {:induction false} AddKeepsInv(b: Book, d: Draft)
    requires Inv(b)
    ensures Inv(Add(b, d).0)
  {
    hide ValidDraft;
    if Add(b, d).1 == Done {
      var c := Contact(b.nextId, d.name, d.destination, d.favorite);
      AppendKeepsIds(b, c);
      assert c.ToDraft() == d;
    }
  }

  lemma {:induction false} UpdateKeepsInv(b: Book, id: U64, d: Draft)
    requires Inv(b)
    ensures Inv(Update(b, id, d).0)
  {
    hide ValidDraft;
    var k := Position(b.items, id);
    var after := Update(b, id, d).0;
    if Update(b, id, d).1 == Done {
      assert after.items[k].ToDraft() == d;
      forall i | 0 <= i < |b.items| && i != k ensures b.items[i].destination != d.destination {
        assert b.items[i].id != id;
      }
      forall i | 0 <= i < |after.items| ensures Issued(after, after.items[i].id) {
        assert Issued(b, b.items[i].id);
      }
    }
  }

  lemma WithoutPosition(items: seq<Contact>, k: nat)
    requires k < |items|
    requires UniqueIds(items) && UniqueDestinations(items)
    ensures var rest := items[..k] + items[k + 1..]; UniqueIds(rest) && UniqueDestinations(rest)
  {
  }

  lemma FewerKeepsMembers(b: Book, items: seq<Contact>)
    requires AllValid(b.items) && AllIssued(b)
    requires forall i :: 0 <= i < |items| ==> items[i] in b.items
    ensures AllValid(items) && AllIssued(b.(items := items))
  {
    hide ValidDraft;
    forall i | 0 <= i < |items|
      ensures ValidDraft(items[i].ToDraft()) && Issued(b.(items := items), items[i].id)
    {
      assert items[i] in b.items;
      var j :| 0 <= j < |b.items| && b.items[j] == items[i];
      assert Issued(b, b.items[j].id);
    }
  }

  lemma {:induction false} RemoveKeepsInv(b: Book, id: U64)
    requires Inv(b)
    ensures Inv(Remove(b, id).0)
  {
    hide ValidDraft;
    var k := Position(b.items, id);
    if k < |b.items| {
      WithoutPosition(b.items, k);
      FewerKeepsMembers(b, b.items[..k] + b.items[k + 1..]);
    }
  }

  lemma FavoriteIsFree(d: Draft, favorite: bool)
    requires ValidDraft(d)
    ensures ValidDraft(d.(favorite := favorite))
  {
  }

  lemma SetFavoriteKeepsInv(b: Book, id: U64, favorite: bool)
    requires Inv(b)
    ensures Inv(SetFavorite(b, id, favorite).0)
  {
    hide ValidDraft;
    var k := Position(b.items, id);
    var after := SetFavorite(b, id, favorite).0;
    forall i | 0 <= i < |after.items|
      ensures Issued(after, after.items[i].id) && ValidDraft(after.items[i].ToDraft())
    {
      assert Issued(b, b.items[i].id) && ValidDraft(b.items[i].ToDraft());
      FavoriteIsFree(b.items[i].ToDraft(), favorite);
    }
  }

  lemma {:induction false} StepKeepsInv(b: Book, op: BookOp)
    requires Inv(b)
    ensures Inv(Step(b, op))
  {
    hide ValidDraft;
    match op
    case AddOp(d) => AddKeepsInv(b, d);
    case UpdateOp(id, d) => UpdateKeepsInv(b, id, d);
    case RemoveOp(id) => RemoveKeepsInv(b, id);
    case FavoriteOp(id, f) => SetFavoriteKeepsInv(b, id, f);
  }

  // Every reachable book: at most 500 valid contacts, no two sharing a
  // destination or an id.
  lemma {:induction false} RunKeepsInv(b: Book, ops: seq<BookOp>)
    requires Inv(b)
    ensures Inv(Run(b, ops))
    decreases |ops|
  {
    hide ValidDraft;
    if ops != [] {
      StepKeepsInv(b, ops[0]);
      RunKeepsInv(Step(b, ops[0]), ops[1..]);
    }
  }

  predicate Present(b: Book, id: U64) {
    exists i :: 0 <= i < |b.items| && b.items[i].id == id
  }

  predicate Gone(b: Book, id: U64) {
    Issued(b, id) && forall i :: 0 <= i < |b.items| ==> b.items[i].id != id
  }

  lemma StepKeepsGone(b: Book, op: BookOp, id: U64)
    requires Gone(b, id)
    ensures Gone(Step(b, op), id)
  {
    hide ValidDraft;
    match op
    case AddOp(d) =>
    case UpdateOp(other, d) =>
    case RemoveOp(other) =>
    case FavoriteOp(other, f) =>
  }

  // An identifier once issued and gone is never given to another contact.
  lemma {:induction false} RemovedIdsStayGone(b: Book, ops: seq<BookOp>, id: U64)
    requires Gone(b, id)
    ensures Gone(Run(b, ops), id)
    decreases |ops|
  {
    hide ValidDraft;
    if ops != [] {
      StepKeepsGone(b, ops[0], id);
      RemovedIdsStayGone(Step(b, ops[0]), ops[1..], id);
    }
  }
}
