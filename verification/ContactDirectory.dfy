// What the contact book means: a map from identifiers to contacts, in the order
// they were added. Every operation does to the book what it does to the map.
module ContactDirectory {
  import opened Common
  import opened ContactBook

  // The identifiers in order, the contact each stands for, and the next one.
  datatype Directory = Directory(ids: seq<U64>, of: map<U64, Draft>, next: U64)

  const NO_CONTACTS := Directory([], map[], 1)

  // Some contact other than the excepted one has the destination.
  predicate Used(d: Directory, destination: Wide, except: set<U64>) {
    exists id :: id in d.of && id !in except && d.of[id].destination == destination
  }

  function Omit(ids: seq<U64>, id: U64): seq<U64> {
    if ids == [] then [] else (if ids[0] == id then [] else [ids[0]]) + Omit(ids[1..], id)
  }

  function Apply(d: Directory, op: BookOp): (Directory, ContactResult) {
    match op
    case AddOp(draft) =>
      if !ValidDraft(draft) then (d, Invalid)
      else if Used(d, draft.destination, {}) then (d, Duplicate)
      else if |d.ids| >= 500 then (d, Full)
      else if d.next == 0 then (d, Exhausted)
      else (Directory(d.ids + [d.next], d.of[d.next := draft], if d.next == MAX64 then 0 else d.next + 1), Done)
    case UpdateOp(id, draft) =>
      if id !in d.of then (d, NotFound)
      else if !ValidDraft(draft) then (d, Invalid)
      else if Used(d, draft.destination, {id}) then (d, Duplicate)
      else (d.(of := d.of[id := draft]), Done)
    case RemoveOp(id) =>
      if id !in d.of then (d, NotFound) else (d.(ids := Omit(d.ids, id), of := d.of - {id}), Done)
    case FavoriteOp(id, favorite) =>
      if id !in d.of then (d, NotFound) else (d.(of := d.of[id := d.of[id].(favorite := favorite)]), Done)
  }

  function ApplyAll(d: Directory, ops: seq<BookOp>): Directory
    decreases |ops|
  {
    if ops == [] then d else ApplyAll(Apply(d, ops[0]).0, ops[1..])
  }

  // What the book answers to an operation.
  function Answer(b: Book, op: BookOp): ContactResult {
    match op
    case AddOp(d) => Add(b, d).1
    case UpdateOp(id, d) => Update(b, id, d).1
    case RemoveOp(id) => Remove(b, id).1
    case FavoriteOp(id, f) => SetFavorite(b, id, f).1
  }

  predicate Shows(b: Book, d: Directory) {
    && b.nextId == d.next && |b.items| == |d.ids|
    && (forall i :: 0 <= i < |d.ids| ==> d.ids[i] == b.items[i].id && d.ids[i] in d.of && d.of[d.ids[i]] == b.items[i].ToDraft())
    && (forall id :: id in d.of ==> id in d.ids)
  }

  lemma IdHasPosition(b: Book, d: Directory, id: U64)
    requires Inv(b) && Shows(b, d)
    ensures id in d.of <==> Position(b.items, id) < |b.items|
    ensures id in d.of ==> d.of[id] == b.items[Position(b.items, id)].ToDraft()
    ensures id in d.of ==> Position(b.items, id) < |d.ids| && d.ids[Position(b.items, id)] == id
  {
    hide ValidDraft;
    if id in d.of {
      var i :| 0 <= i < |d.ids| && d.ids[i] == id;
      assert b.items[i].id == id;
    }
  }

  lemma UsedIsTaken(b: Book, d: Directory, destination: Wide, except: U64)
    requires Inv(b) && Shows(b, d)
    ensures Used(d, destination, {except}) <==> Taken(b.items, destination, except)
    ensures Used(d, destination, {}) <==> exists i :: 0 <= i < |b.items| && b.items[i].destination == destination
  {
    hide ValidDraft;
    forall id | id in d.of && d.of[id].destination == destination
      ensures exists i :: 0 <= i < |b.items| && b.items[i].id == id && b.items[i].destination == destination
    {
      var i :| 0 <= i < |d.ids| && d.ids[i] == id;
      assert b.items[i].id == id && b.items[i].ToDraft().destination == destination;
    }
    forall i | 0 <= i < |b.items| && b.items[i].destination == destination
      ensures d.ids[i] in d.of && d.ids[i] == b.items[i].id && d.of[d.ids[i]].destination == destination
    {
    }
  }

  lemma {:induction false} OmitAt(ids: seq<U64>, k: nat)
    requires k < |ids| && forall i, j :: 0 <= i < j < |ids| ==> ids[i] != ids[j]
    ensures Omit(ids, ids[k]) == ids[..k] + ids[k + 1..]
  {
    var tail := ids[1..];
    assert forall i :: 0 <= i < |tail| ==> tail[i] == ids[i + 1];
    if k == 0 {
      OmitNothing(tail, ids[0]);
    } else {
      assert forall i, j :: 0 <= i < j < |tail| ==> tail[i] != tail[j];
      OmitAt(tail, k - 1);
      assert ids[0] != ids[k] == tail[k - 1];
      OmitSplit(ids, k);
    }
  }

  lemma OmitSplit(ids: seq<U64>, k: nat)
    requires 0 < k < |ids|
    ensures [ids[0]] + (ids[1..][..k - 1] + ids[1..][k..]) == ids[..k] + ids[k + 1..]
  {
  }

  lemma {:induction false} OmitNothing(ids: seq<U64>, id: U64)
    requires id !in ids
    ensures Omit(ids, id) == ids
  {
    if ids != [] {
      OmitNothing(ids[1..], id);
    }
  }

  lemma {:induction false} AddShows(b: Book, d: Directory, draft: Draft)
    requires Inv(b) && Shows(b, d)
    ensures var r := Apply(d, AddOp(draft));
            Shows(Add(b, draft).0, r.0) && Add(b, draft).1 == r.1
  {
    hide ValidDraft;
    UsedIsTaken(b, d, draft.destination, 0);
    if Add(b, draft).1 == Done {
      forall i | 0 <= i < |d.ids| ensures d.ids[i] != d.next {
        assert Issued(b, b.items[i].id);
      }
    }
  }

  lemma {:induction false} ReplaceShows(b: Book, d: Directory, id: U64, c: Contact)
    requires Inv(b) && Shows(b, d) && id in d.of && c.id == id
    ensures Shows(b.(items := b.items[Position(b.items, id) := c]), d.(of := d.of[id := c.ToDraft()]))
  {
    hide ValidDraft;
    IdHasPosition(b, d, id);
    var k := Position(b.items, id);
    forall i | 0 <= i < |d.ids| && i != k ensures d.ids[i] != id {
      assert b.items[i].id != b.items[k].id;
    }
  }

  lemma IdsAreDistinct(b: Book, d: Directory)
    requires Inv(b) && Shows(b, d)
    ensures forall i, j :: 0 <= i < j < |d.ids| ==> d.ids[i] != d.ids[j]
  {
    hide ValidDraft;
    forall i, j | 0 <= i < j < |d.ids| ensures d.ids[i] != d.ids[j] {
      assert b.items[i].id != b.items[j].id;
    }
  }

  lemma {:induction false} WithoutShows(b: Book, d: Directory, k: nat)
    requires Shows(b, d) && k < |d.ids| && forall i, j :: 0 <= i < j < |d.ids| ==> d.ids[i] != d.ids[j]
    ensures Shows(b.(items := b.items[..k] + b.items[k + 1..]), d.(ids := d.ids[..k] + d.ids[k + 1..], of := d.of - {d.ids[k]}))
  {
    var rest, items, of := d.ids[..k] + d.ids[k + 1..], b.items[..k] + b.items[k + 1..], d.of - {d.ids[k]};
    forall i | 0 <= i < |rest| ensures rest[i] == items[i].id && rest[i] in of && of[rest[i]] == items[i].ToDraft() {
      var j := if i < k then i else i + 1;
      assert rest[i] == d.ids[j] && items[i] == b.items[j];
    }
    forall id | id in of ensures id in rest {
      var i :| 0 <= i < |d.ids| && d.ids[i] == id;
      assert rest[if i < k then i else i - 1] == id;
    }
  }

  lemma {:induction false} RemoveShows(b: Book, d: Directory, id: U64)
    requires Inv(b) && Shows(b, d) && id in d.of
    ensures Shows(Remove(b, id).0, Apply(d, RemoveOp(id)).0) && Remove(b, id).1 == Done
  {
    hide Inv, Shows, Position;
    IdHasPosition(b, d, id);
    IdsAreDistinct(b, d);
    var k := Position(b.items, id);
    OmitAt(d.ids, k);
    WithoutShows(b, d, k);
  }

  // Each operation does to the book what it does to the directory, and answers
  // the same.
  lemma {:induction false} StepShows(b: Book, d: Directory, op: BookOp)
    requires Inv(b) && Shows(b, d)
    ensures Shows(Step(b, op), Apply(d, op).0) && Answer(b, op) == Apply(d, op).1
  {
    hide ValidDraft, Inv, Shows, Taken, Used;
    match op
    case AddOp(draft) => AddShows(b, d, draft);
    case UpdateOp(id, draft) =>
      IdHasPosition(b, d, id);
      UsedIsTaken(b, d, draft.destination, id);
      var c := Contact(id, draft.name, draft.destination, draft.favorite);
      assert c.ToDraft() == draft;
      if id in d.of { ReplaceShows(b, d, id, c); }
    case RemoveOp(id) =>
      IdHasPosition(b, d, id);
      if id in d.of { RemoveShows(b, d, id); }
    case FavoriteOp(id, favorite) =>
      IdHasPosition(b, d, id);
      if id in d.of { ReplaceShows(b, d, id, b.items[Position(b.items, id)].(favorite := favorite)); }
  }

  // After any operations the book shows the directory they lead to.
  lemma {:induction false} RunShows(b: Book, d: Directory, ops: seq<BookOp>)
    requires Inv(b) && Shows(b, d)
    ensures Shows(Run(b, ops), ApplyAll(d, ops))
    decreases |ops|
  {
    hide Inv, Shows, Step, Apply;
    if ops != [] {
      StepShows(b, d, ops[0]);
      StepKeepsInv(b, ops[0]);
      RunShows(Step(b, ops[0]), Apply(d, ops[0]).0, ops[1..]);
    }
  }

  lemma BooksAreDirectories(ops: seq<BookOp>)
    ensures Shows(Run(EMPTY, ops), ApplyAll(NO_CONTACTS, ops))
  {
    RunShows(EMPTY, NO_CONTACTS, ops);
  }
}
