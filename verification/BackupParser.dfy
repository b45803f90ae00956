// The hand-written reader of contact backups: first as functions on positions
// in the input, then as the parser object whose methods advance one position.
module BackupParser {
  import opened Common
  import opened Utf8
  import opened SipAddress
  import opened ContactBook

  const COMMA: Byte := 44
  const COLON_SIGN: Byte := 58
  const OPEN_BRACE: Byte := 123
  const CLOSE_BRACE: Byte := 125
  const OPEN_BRACKET: Byte := 91
  const CLOSE_BRACKET: Byte := 93
  const SLASH: Byte := 47
  const LETTER_U: Byte := 117

  const NAME_KEY: Bytes := [110, 97, 109, 101]                                          // name
  const DESTINATION_KEY: Bytes := [100, 101, 115, 116, 105, 110, 97, 116, 105, 111, 110] // destination
  const FAVORITE_KEY: Bytes := [102, 97, 118, 111, 114, 105, 116, 101]                  // favorite
  const VERSION_KEY: Bytes := [118, 101, 114, 115, 105, 111, 110]                       // version
  const CONTACTS_KEY: Bytes := [99, 111, 110, 116, 97, 99, 116, 115]                    // contacts
  const TRUE_WORD: Bytes := [116, 114, 117, 101]                                        // true
  const FALSE_WORD: Bytes := [102, 97, 108, 115, 101]                                   // false
  const VERSION_ONE: Bytes := [49]                                                      // 1

  // --- Tokens ----------------------------------------------------------------

  predicate IsSpaceByte(c: Byte) {
    c == 32 || c == 13 || c == 10 || c == 9
  }

  function SkipSpace(input: Bytes, pos: nat): (r: nat)
    requires pos <= |input|
    ensures pos <= r <= |input|
    decreases |input| - pos
  {
    if pos < |input| && IsSpaceByte(input[pos]) then SkipSpace(input, pos + 1) else pos
  }

  // Whether a token was there, and where reading continues either way.
  datatype Took = Took(ok: bool, next: nat)

  function Take(input: Bytes, pos: nat, c: Byte): (r: Took)
    requires pos <= |input|
    ensures pos <= r.next <= |input| && (r.ok ==> pos < r.next)
  {
    var p := SkipSpace(input, pos);
    if p < |input| && input[p] == c then Took(true, p + 1) else Took(false, p)
  }

  function Literal(input: Bytes, pos: nat, s: Bytes): (r: Took)
    requires pos <= |input|
    ensures pos <= r.next <= |input|
  {
    var p := SkipSpace(input, pos);
    if At(input, p, s) then Took(true, p + |s|) else Took(false, p)
  }

  // 16 for anything that is not a hexadecimal digit.
  function HexValue(c: Byte): (v: nat)
    ensures v <= 16
  {
    if 48 <= c <= 57 then c - 48
    else if 97 <= c <= 102 then c - 97 + 10
    else if 65 <= c <= 70 then c - 65 + 10
    else 16
  }

  // One more than what 4 - n digits can denote.
  function HexBound(n: nat): nat
    requires n <= 4
  {
    if n == 4 then 1 else if n == 3 then 16 else if n == 2 then 256 else if n == 1 then 4096 else 65536
  }

  function HexRun(input: Bytes, pos: nat, n: nat, cp: nat): (r: Parsed<nat>)
    requires pos <= |input| && n <= 4 && cp < HexBound(n)
    ensures r.Good? ==> r.next == pos + n <= |input| && r.value <= 0xFFFF
    decreases n
  {
    if n == 0 then Good(cp, pos)
    else if pos == |input| || HexValue(input[pos]) == 16 then Bad
    else HexRun(input, pos + 1, n - 1, cp * 16 + HexValue(input[pos]))
  }

  function Hex4(input: Bytes, pos: nat): (r: Parsed<nat>)
    requires pos <= |input|
    ensures r.Good? ==> r.next == pos + 4 <= |input| && r.value <= 0xFFFF
  {
    HexRun(input, pos, 4, 0)
  }

  // --- Strings ---------------------------------------------------------------

  // The second half of an escaped surrogate pair.
  function LowHalf(input: Bytes, pos: nat, high: nat): (r: Parsed<nat>)
    requires pos <= |input| && IsHigh(high)
    ensures r.Good? ==> pos < r.next <= |input| && r.value <= 0x10FFFF
  {
    if !At(input, pos, [BACKSLASH, LETTER_U]) then Bad
    else
      var low := Hex4(input, pos + 2);
      if low.Good? && IsLow(low.value) then Good(0x10000 + (high - 0xD800) * 1024 + (low.value - 0xDC00), low.next) else Bad
  }

  // What follows a backslash. Every other JSON escape denotes a control.
  function Escape(input: Bytes, pos: nat): (r: Parsed<nat>)
    requires pos <= |input|
    ensures r.Good? ==> pos < r.next <= |input| && r.value <= 0x10FFFF
  {
    if pos == |input| then Bad
    else if input[pos] == QUOTE || input[pos] == BACKSLASH || input[pos] == SLASH then Good(input[pos], pos + 1)
    else if input[pos] != LETTER_U then Bad
    else
      var unit := Hex4(input, pos + 1);
      if unit.Bad? || IsLow(unit.value) then Bad
      else if IsHigh(unit.value) then LowHalf(input, unit.next, unit.value)
      else unit
  }

  function Element(input: Bytes, pos: nat): (r: Parsed<nat>)
    requires pos < |input|
    ensures r.Good? ==> pos < r.next <= |input| && r.value <= 0x10FFFF
  {
    if input[pos] == BACKSLASH then Escape(input, pos + 1) else Decode(input, pos)
  }

  predicate Permitted(cp: nat, ascii: bool) {
    !IsControlPoint(cp) && (ascii ==> cp < 0x7F)
  }

  // From after the opening quote; units counts what was already read.
  function StringBody(input: Bytes, pos: nat, units: nat, limit: nat, ascii: bool): (r: Parsed<Wide>)
    requires pos <= |input|
    ensures r.Good? ==> pos < r.next <= |input|
    decreases |input| - pos
  {
    if pos == |input| then Bad
    else if input[pos] == QUOTE then Good([], pos + 1)
    else
      var e := Element(input, pos);
      if e.Bad? || !Permitted(e.value, ascii) || units + |Units(e.value)| > limit then Bad
      else
        var rest := StringBody(input, e.next, units + |Units(e.value)|, limit, ascii);
        if rest.Bad? then Bad else Good(Units(e.value) + rest.value, rest.next)
  }

  function Text(input: Bytes, pos: nat, limit: nat, ascii: bool): (r: Parsed<Wide>)
    requires pos <= |input|
    ensures r.Good? ==> pos < r.next <= |input|
  {
    var open := Take(input, pos, QUOTE);
    if !open.ok then Bad else StringBody(input, open.next, 0, limit, ascii)
  }

  // --- Objects ---------------------------------------------------------------

  datatype Fields = Fields(name: bool, destination: bool, favorite: bool) {
    predicate All() { name && destination && favorite }
  }

  const NO_FIELDS := Fields(false, false, false)
  const NO_DRAFT := Draft([], [], false)

  datatype Partial = Partial(fields: Fields, draft: Draft)

  function Flag(input: Bytes, pos: nat): (r: Parsed<bool>)
    requires pos <= |input|
    ensures r.Good? ==> pos <= r.next <= |input|
  {
    var yes := Literal(input, pos, TRUE_WORD);
    var no := Literal(input, yes.next, FALSE_WORD);
    if yes.ok then Good(true, yes.next)
    else if no.ok then Good(false, no.next)
    else Bad
  }

  datatype ContactKey = NameMember | DestinationMember | FavoriteMember | UnknownMember

  function KeyOf(key: Wide): ContactKey {
    if key == NAME_KEY then NameMember
    else if key == DESTINATION_KEY then DestinationMember
    else if key == FAVORITE_KEY then FavoriteMember
    else UnknownMember
  }

  // The value of a key that may come once.
  function FieldValue(input: Bytes, pos: nat, key: ContactKey, p: Partial): (r: Parsed<Partial>)
    requires pos <= |input|
    ensures r.Good? ==> pos <= r.next <= |input|
  {
    match key
    case NameMember =>
      var v := Text(input, pos, 64, false);
      if v.Bad? || p.fields.name then Bad
      else Good(Partial(p.fields.(name := true), p.draft.(name := v.value)), v.next)
    case DestinationMember =>
      var v := Text(input, pos, 128, true);
      if v.Bad? || p.fields.destination then Bad
      else Good(Partial(p.fields.(destination := true), p.draft.(destination := v.value)), v.next)
    case FavoriteMember =>
      var v := Flag(input, pos);
      if v.Bad? || p.fields.favorite then Bad
      else Good(Partial(p.fields.(favorite := true), p.draft.(favorite := v.value)), v.next)
    case UnknownMember => Bad
  }

  function Field(input: Bytes, pos: nat, p: Partial): (r: Parsed<Partial>)
    requires pos <= |input|
    ensures r.Good? ==> pos < r.next <= |input|
  {
    var key := Text(input, pos, 11, true);
    if key.Bad? then Bad
    else
      var colon := Take(input, key.next, COLON_SIGN);
      if !colon.ok then Bad else FieldValue(input, colon.next, KeyOf(key.value), p)
  }

  function ContactLoop(input: Bytes, pos: nat, p: Partial): (r: Parsed<Draft>)
    requires pos <= |input|
    ensures r.Good? ==> pos < r.next <= |input| && ValidDraft(r.value)
    decreases |input| - pos
  {
    var f := Field(input, pos, p);
    if f.Bad? then Bad
    else
      var more := Take(input, f.next, COMMA);
      if more.ok then ContactLoop(input, more.next, f.value)
      else
        var close := Take(input, more.next, CLOSE_BRACE);
        if close.ok && f.value.fields.All() && ValidDraft(f.value.draft) then Good(f.value.draft, close.next) else Bad
  }

  function ContactObject(input: Bytes, pos: nat): (r: Parsed<Draft>)
    requires pos <= |input|
    ensures r.Good? ==> pos < r.next <= |input| && ValidDraft(r.value)
  {
    var open := Take(input, pos, OPEN_BRACE);
    if !open.ok then Bad else ContactLoop(input, open.next, Partial(NO_FIELDS, NO_DRAFT))
  }

  predicate HasDestination(out: seq<Draft>, destination: Wide) {
    exists i :: 0 <= i < |out| && out[i].destination == destination
  }

  function ListLoop(input: Bytes, pos: nat, out: seq<Draft>): (r: Parsed<seq<Draft>>)
    requires pos <= |input|
    ensures r.Good? ==> pos < r.next <= |input|
    decreases |input| - pos
  {
    if |out| == CAPACITY then Bad
    else
      var c := ContactObject(input, pos);
      if c.Bad? || HasDestination(out, c.value.destination) then Bad
      else
        var more := Take(input, c.next, COMMA);
        if more.ok then ListLoop(input, more.next, out + [c.value])
        else
          var close := Take(input, more.next, CLOSE_BRACKET);
          if close.ok then Good(out + [c.value], close.next) else Bad
  }

  function ContactList(input: Bytes, pos: nat, out: seq<Draft>): (r: Parsed<seq<Draft>>)
    requires pos <= |input|
    ensures r.Good? ==> pos < r.next <= |input|
  {
    var open := Take(input, pos, OPEN_BRACKET);
    if !open.ok then Bad
    else
      var empty := Take(input, open.next, CLOSE_BRACKET);
      if empty.ok then Good(out, empty.next) else ListLoop(input, empty.next, out)
  }

  datatype Document = Document(version: bool, listed: bool, out: seq<Draft>)

  function Member(input: Bytes, pos: nat, d: Document): (r: Parsed<Document>)
    requires pos <= |input|
    ensures r.Good? ==> pos < r.next <= |input|
  {
    var key := Text(input, pos, 8, true);
    if key.Bad? then Bad
    else
      var colon := Take(input, key.next, COLON_SIGN);
      if !colon.ok then Bad
      else if key.value == VERSION_KEY && !d.version then
        var one := Literal(input, colon.next, VERSION_ONE);
        if one.ok then Good(d.(version := true), one.next) else Bad
      else if key.value == CONTACTS_KEY && !d.listed then
        var list := ContactList(input, colon.next, d.out);
        if list.Bad? then Bad else Good(d.(listed := true, out := list.value), list.next)
      else Bad
  }

  function DocumentLoop(input: Bytes, pos: nat, d: Document): Option<seq<Draft>>
    requires pos <= |input|
    decreases |input| - pos
  {
    var m := Member(input, pos, d);
    if m.Bad? then None
    else
      var more := Take(input, m.next, COMMA);
      if more.ok then DocumentLoop(input, more.next, m.value)
      else
        var close := Take(input, more.next, CLOSE_BRACE);
        if close.ok && m.value.version && m.value.listed && SkipSpace(input, close.next) == |input|
        then Some(m.value.out) else None
  }

  function ParseDocument(input: Bytes): Option<seq<Draft>> {
    var open := Take(input, 0, OPEN_BRACE);
    if !open.ok then None else DocumentLoop(input, open.next, Document(false, false, []))
  }

  method FindDestination(out: seq<Draft>, destination: Wide) returns (found: bool)
    ensures found == HasDestination(out, destination)
  {
    for i := 0 to |out|
      invariant forall j :: 0 <= j < i ==> out[j].destination != destination
    {
      if out[i].destination == destination { return true; }
    }
    return false;
  }

  // --- The parser object -----------------------------------------------------

  class Parser {
    const input: Bytes
    const loc: Locale
    var pos: nat

    ghost predicate Valid()
      reads this
    {
      pos <= |input|
    }

    constructor (input: Bytes, loc: Locale)
      ensures Valid() && this.input == input && this.loc == loc && pos == 0
    {
      this.input, this.loc, pos := input, loc, 0;
    }

    method Space()
      requires Valid()
      modifies this`pos
      ensures pos == SkipSpace(input, old(pos))
    {
      while pos < |input| && IsSpaceByte(input[pos])
        invariant pos <= |input| && SkipSpace(input, pos) == SkipSpace(input, old(pos))
      {
        pos := pos + 1;
      }
    }

    method TakeByte(c: Byte) returns (ok: bool)
      requires Valid()
      modifies this`pos
      ensures Take(input, old(pos), c) == Took(ok, pos)
    {
      Space();
      if pos == |input| || input[pos] != c { return false; }
      pos := pos + 1;
      return true;
    }

    method TakeLiteral(s: Bytes) returns (ok: bool)
      requires Valid()
      modifies this`pos
      ensures Literal(input, old(pos), s) == Took(ok, pos)
    {
      Space();
      if !At(input, pos, s) { return false; }
      pos := pos + |s|;
      return true;
    }

    method ReadHex() returns (ok: bool, cp: nat)
      requires Valid()
      modifies this`pos
      ensures Valid() && Hex4(input, old(pos)) == if ok then Good(cp, pos) else Bad
    {
      cp := 0;
      for n := 0 to 4
        invariant Valid() && cp < HexBound(4 - n)
        invariant HexRun(input, pos, 4 - n, cp) == HexRun(input, old(pos), 4, 0)
      {
        if pos == |input| { return false, cp; }
        var v := HexValue(input[pos]);
        if v == 16 { return false, cp; }
        pos := pos + 1;
        cp := cp * 16 + v;
      }
      return true, cp;
    }

    method ReadCodepoint() returns (ok: bool, cp: nat)
      requires Valid()
      modifies this`pos
      ensures Valid() && Decode(input, old(pos)) == if ok then Good(cp, pos) else Bad
    {
      cp := 0;
      if pos == |input| { return false, cp; }
      var first := input[pos];
      pos := pos + 1;
      if first < 0x80 { return true, first; }
      var lead := LeadByte(first);
      if lead.NoLead? { return false, cp; }
      var count := lead.count;
      cp := lead.bits;
      while count > 0
        invariant Valid()
        invariant Continuation(input, pos, count, cp) == Continuation(input, old(pos) + 1, lead.count, lead.bits)
      {
        count := count - 1;
        if pos == |input| || !IsTail(input[pos]) { return false, cp; }
        cp := cp * 64 + (input[pos] as int - 0x80);
        pos := pos + 1;
      }
      return cp >= lead.minimum && Scalar(cp), cp;
    }

    method ReadEscape() returns (ok: bool, cp: nat)
      requires Valid()
      modifies this`pos
      ensures Valid() && Escape(input, old(pos)) == if ok then Good(cp, pos) else Bad
    {
      cp := 0;
      if pos == |input| { return false, cp; }
      var escape := input[pos];
      pos := pos + 1;
      if escape == QUOTE || escape == BACKSLASH || escape == SLASH { return true, escape; }
      if escape != LETTER_U { return false, cp; }
      ok, cp := ReadHex();
      if !ok { return; }
      if IsHigh(cp) {
        if !At(input, pos, [BACKSLASH, LETTER_U]) { return false, cp; }
        pos := pos + 2;
        var low;
        ok, low := ReadHex();
        if !ok || !IsLow(low) { return false, cp; }
        return true, 0x10000 + (cp - 0xD800) * 1024 + (low - 0xDC00);
      }
      return !IsLow(cp), cp;
    }

    method ReadElement() returns (ok: bool, cp: nat)
      requires Valid() && pos < |input|
      modifies this`pos
      ensures Valid() && Element(input, old(pos)) == if ok then Good(cp, pos) else Bad
    {
      if input[pos] == BACKSLASH {
        pos := pos + 1;
        ok, cp := ReadEscape();
      } else {
        ok, cp := ReadCodepoint();
      }
    }

    method ReadString(limit: nat, ascii: bool) returns (ok: bool, out: Wide)
      requires Valid()
      modifies this`pos
      ensures Valid() && Text(input, old(pos), limit, ascii) == if ok then Good(out, pos) else Bad
    {
      out := [];
      ok := TakeByte(QUOTE);
      if !ok { return; }
      ghost var start := pos;
      var units := 0;
      PrefixedNothing(StringBody(input, start, 0, limit, ascii));
      while pos < |input|
        invariant Valid() && units == |out|
        invariant StringBody(input, start, 0, limit, ascii)
               == Prefixed(out, StringBody(input, pos, units, limit, ascii))
        decreases |input| - pos
      {
        if input[pos] == QUOTE {
          pos := pos + 1;
          assert out + [] == out;
          return true, out;
        }
        var cp;
        ok, cp := ReadElement();
        if !ok || !Permitted(cp, ascii) { return false, out; }
        units := units + if cp > 0xFFFF then 2 else 1;
        if units > limit { return false, out; }
        PrefixedTwice(out, Units(cp), StringBody(input, pos, units, limit, ascii));
        out := out + Units(cp);
      }
      return false, out;
    }

    method ReadField(p: Partial) returns (ok: bool, q: Partial)
      requires Valid()
      modifies this`pos
      ensures Valid() && Field(input, old(pos), p) == if ok then Good(q, pos) else Bad
    {
      q := p;
      var key;
      ok, key := ReadString(11, true);
      if !ok { return; }
      ok := TakeByte(COLON_SIGN);
      if !ok { return; }
      match KeyOf(key) {
        case NameMember =>
          if p.fields.name { return false, p; }
          var name;
          ok, name := ReadString(64, false);
          q := Partial(p.fields.(name := true), p.draft.(name := name));
        case DestinationMember =>
          if p.fields.destination { return false, p; }
          var destination;
          ok, destination := ReadString(128, true);
          q := Partial(p.fields.(destination := true), p.draft.(destination := destination));
        case FavoriteMember =>
          if p.fields.favorite { return false, p; }
          var yes := TakeLiteral(TRUE_WORD);
          ok := yes;
          if !ok { ok := TakeLiteral(FALSE_WORD); }
          q := Partial(p.fields.(favorite := true), p.draft.(favorite := yes));
        case UnknownMember => ok := false;
      }
    }

    method ReadContact() returns (ok: bool, draft: Draft)
      requires Valid()
      modifies this`pos
      ensures Valid() && ContactObject(input, old(pos)) == if ok then Good(draft, pos) else Bad
    {
      draft := NO_DRAFT;
      ok := TakeByte(OPEN_BRACE);
      if !ok { return; }
      ghost var start := pos;
      var p := Partial(NO_FIELDS, NO_DRAFT);
      var more := true;
      while more
        invariant Valid()
        invariant more ==> ContactLoop(input, pos, p) == ContactLoop(input, start, Partial(NO_FIELDS, NO_DRAFT))
        invariant !more ==> ContactLoop(input, start, Partial(NO_FIELDS, NO_DRAFT)) == Closed(input, pos, p)
        decreases more, |input| - pos
      {
        ok, p := ReadField(p);
        if !ok { return; }
        more := TakeByte(COMMA);
      }
      ok := TakeByte(CLOSE_BRACE);
      var valid := CheckDraft(loc, p.draft);
      return ok && p.fields.All() && valid, p.draft;
    }

    method ReadContacts(before: seq<Draft>) returns (ok: bool, out: seq<Draft>)
      requires Valid()
      modifies this`pos
      ensures Valid() && ContactList(input, old(pos), before) == if ok then Good(out, pos) else Bad
    {
      out := before;
      ok := TakeByte(OPEN_BRACKET);
      if !ok { return; }
      var empty := TakeByte(CLOSE_BRACKET);
      if empty { return; }
      ghost var start := pos;
      var more := true;
      while more
        invariant Valid()
        invariant more ==> ListLoop(input, pos, out) == ListLoop(input, start, before)
        invariant !more ==> ListLoop(input, start, before) == ClosedList(input, pos, out)
        decreases more, |input| - pos
      {
        if |out| == CAPACITY { return false, out; }
        var draft;
        ok, draft := ReadContact();
        if !ok { return; }
        var repeated := FindDestination(out, draft.destination);
        if repeated { return false, out; }
        out := out + [draft];
        more := TakeByte(COMMA);
      }
      ok := TakeByte(CLOSE_BRACKET);
    }

    method ReadMember(d: Document) returns (ok: bool, e: Document)
      requires Valid()
      modifies this`pos
      ensures Valid() && Member(input, old(pos), d) == if ok then Good(e, pos) else Bad
    {
      e := d;
      var key;
      ok, key := ReadString(8, true);
      if !ok { return; }
      ok := TakeByte(COLON_SIGN);
      if !ok { return; }
      if key == VERSION_KEY && !d.version {
        ok := TakeLiteral(VERSION_ONE);
        e := d.(version := true);
      } else if key == CONTACTS_KEY && !d.listed {
        var out;
        ok, out := ReadContacts(d.out);
        e := d.(listed := true, out := out);
      } else {
        ok := false;
      }
    }

    method Parse() returns (r: Option<seq<Draft>>)
      requires Valid() && pos == 0
      modifies this`pos
      ensures r == ParseDocument(input)
    {
      var ok := TakeByte(OPEN_BRACE);
      if !ok { return None; }
      ghost var start := pos;
      var d := Document(false, false, []);
      var more := true;
      while more
        invariant Valid()
        invariant more ==> DocumentLoop(input, pos, d) == DocumentLoop(input, start, Document(false, false, []))
        invariant !more ==> DocumentLoop(input, start, Document(false, false, [])) == ClosedDocument(input, pos, d)
        decreases more, |input| - pos
      {
        ok, d := ReadMember(d);
        if !ok { return None; }
        more := TakeByte(COMMA);
      }
      ok := TakeByte(CLOSE_BRACE);
      if !ok || !d.version || !d.listed { return None; }
      Space();
      return if pos == |input| then Some(d.out) else None;
    }
  }

  // What a loop still has to do once no comma follows.
  ghost function Closed(input: Bytes, pos: nat, p: Partial): Parsed<Draft>
    requires pos <= |input|
  {
    var close := Take(input, pos, CLOSE_BRACE);
    if close.ok && p.fields.All() && ValidDraft(p.draft) then Good(p.draft, close.next) else Bad
  }

  ghost function ClosedList(input: Bytes, pos: nat, out: seq<Draft>): Parsed<seq<Draft>>
    requires pos <= |input|
  {
    var close := Take(input, pos, CLOSE_BRACKET);
    if close.ok then Good(out, close.next) else Bad
  }

  ghost function ClosedDocument(input: Bytes, pos: nat, d: Document): Option<seq<Draft>>
    requires pos <= |input|
  {
    var close := Take(input, pos, CLOSE_BRACE);
    if close.ok && d.version && d.listed && SkipSpace(input, close.next) == |input| then Some(d.out) else None
  }

  ghost function Prefixed(out: Wide, r: Parsed<Wide>): Parsed<Wide> {
    if r.Bad? then Bad else Good(out + r.value, r.next)
  }

  lemma PrefixedNothing(r: Parsed<Wide>)
    ensures Prefixed([], r) == r
  {
    if r.Good? { assert [] + r.value == r.value; }
  }

  lemma PrefixedTwice(a: Wide, b: Wide, r: Parsed<Wide>)
    ensures Prefixed(a + b, r) == Prefixed(a, Prefixed(b, r))
  {
    if r.Good? { assert a + b + r.value == a + (b + r.value); }
  }
}
