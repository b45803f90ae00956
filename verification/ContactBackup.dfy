// Encoding a contact book as a backup and reading it back.
module ContactBackup {
  import opened Common
  import opened Utf8
  import opened SipHost
  import opened SipAddress
  import opened NativeDestination
  import opened ContactBook
  import opened BackupParser

  const BACKUP_LIMIT: nat := 524288

  // --- The encoder -----------------------------------------------------------

  function Escaped(cp: nat): Bytes
    requires cp <= 0x10FFFF
  {
    if cp == 34 || cp == 92 then [BACKSLASH] + Encode(cp) else Encode(cp)
  }

  function QuotedBody(units: Wide): Bytes
    requires WellPaired(units)
  {
    if units == [] then [] else Escaped(First(units)) + QuotedBody(units[Width(units)..])
  }

  function QuotedText(units: Wide): Bytes
    requires WellPaired(units)
  {
    [QUOTE] + (QuotedBody(units) + [QUOTE])
  }

  // The code point that starts at unit i, and the unit after it.
  method NextCodePoint(units: Wide, i: nat) returns (cp: nat, next: nat)
    requires i < |units| && WellPaired(units[i..])
    ensures cp == First(units[i..]) && next == i + Width(units[i..])
    ensures next <= |units| && units[next..] == units[i..][Width(units[i..])..]
  {
    cp, next := units[i], i;
    if IsHigh(cp) {
      next := next + 1;
      assert units[i..][1] == units[next];
      cp := 0x10000 + (cp - 0xD800) * 1024 + (units[next] as int - 0xDC00);
    }
    next := next + 1;
  }

  lemma QuotedStep(units: Wide)
    requires units != [] && WellPaired(units)
    ensures WellPaired(units[Width(units)..])
    ensures QuotedBody(units) == Escaped(First(units)) + QuotedBody(units[Width(units)..])
  {
  }

  method AppendQuoted(buffer: Bytes, units: Wide) returns (out: Bytes)
    requires WellPaired(units)
    ensures out == buffer + QuotedText(units)
  {
    out := [];
    var i := 0;
    while i < |units|
      invariant i <= |units| && WellPaired(units[i..])
      invariant QuotedBody(units) == out + QuotedBody(units[i..])
    {
      hide *;
      var cp, next := NextCodePoint(units, i);
      QuotedStep(units[i..]);
      Regroup(out, [], Escaped(cp), QuotedBody(units[next..]));
      out := out + Escaped(cp);
      i := next;
    }
    assert units[|units|..] == [];
    assert out + [] == out;
    out := buffer + ([QUOTE] + (out + [QUOTE]));
  }

  // {"version":1,"contacts":[
  const HEAD: Bytes := [123, 34, 118, 101, 114, 115, 105, 111, 110, 34, 58, 49, 44,
                        34, 99, 111, 110, 116, 97, 99, 116, 115, 34, 58, 91]

  // A key between quotes; keys hold only lower-case letters.
  function QuotedKey(key: Bytes): Bytes {
    [QUOTE] + (key + [QUOTE])
  }

  function FlagWord(favorite: bool): Bytes {
    if favorite then TRUE_WORD else FALSE_WORD
  }

  function MemberText(key: Bytes, value: Bytes): Bytes {
    QuotedKey(key) + ([COLON_SIGN] + value)
  }

  // {"name":"...","destination":"...","favorite":...}
  function ContactText(d: Draft): Bytes
    requires WellPaired(d.name) && WellPaired(d.destination)
  {
    [OPEN_BRACE] + (MemberText(NAME_KEY, QuotedText(d.name)) + ([COMMA] +
      (MemberText(DESTINATION_KEY, QuotedText(d.destination)) + ([COMMA] +
        (MemberText(FAVORITE_KEY, FlagWord(d.favorite)) + [CLOSE_BRACE])))))
  }

  predicate Writable(drafts: seq<Draft>) {
    forall i :: 0 <= i < |drafts| ==> ValidDraft(drafts[i])
  }

  // The contacts after the first, each preceded by a comma.
  function MoreText(drafts: seq<Draft>): Bytes
    requires Writable(drafts)
  {
    if drafts == [] then []
    else
      DraftIsPaired(drafts[0]);
      [COMMA] + (ContactText(drafts[0]) + MoreText(drafts[1..]))
  }

  function ListText(drafts: seq<Draft>): Bytes
    requires Writable(drafts)
  {
    if drafts == [] then []
    else
      DraftIsPaired(drafts[0]);
      ContactText(drafts[0]) + MoreText(drafts[1..])
  }

  // {"version":1,"contacts":[...]}
  function BackupText(drafts: seq<Draft>): Bytes
    requires Writable(drafts)
  {
    [OPEN_BRACE] + (MemberText(VERSION_KEY, VERSION_ONE) + ([COMMA] +
      (MemberText(CONTACTS_KEY, [OPEN_BRACKET] + (ListText(drafts) + [CLOSE_BRACKET])) + [CLOSE_BRACE])))
  }

  function Drafts(items: seq<Contact>): (r: seq<Draft>)
    ensures |r| == |items| && forall i :: 0 <= i < |r| ==> r[i] == items[i].ToDraft()
  {
    if items == [] then [] else [items[0].ToDraft()] + Drafts(items[1..])
  }

  lemma {:induction false} PlainIsPaired(units: Wide)
    requires forall i :: 0 <= i < |units| ==> units[i] < 0xD800
    ensures WellPaired(units)
  {
    if units != [] {
      PlainIsPaired(units[1..]);
    }
  }

  lemma DraftIsPaired(d: Draft)
    requires ValidDraft(d)
    ensures WellPaired(d.name) && WellPaired(d.destination)
  {
    PlainIsPaired(d.destination);
  }

  function Backup(items: seq<Contact>): Option<Bytes> {
    var drafts := Drafts(items);
    if |items| <= CAPACITY && Writable(drafts) && |BackupText(drafts)| <= BACKUP_LIMIT
    then Some(BackupText(drafts)) else None
  }

  function Restore(bytes: Bytes): Option<seq<Draft>> {
    if |bytes| > BACKUP_LIMIT then None else ParseDocument(bytes)
  }

  // The pieces as the encoder appends them.
  lemma HeadAndList(list: Bytes)
    ensures [OPEN_BRACE] + (MemberText(VERSION_KEY, VERSION_ONE) + ([COMMA] +
              (MemberText(CONTACTS_KEY, [OPEN_BRACKET] + (list + [CLOSE_BRACKET])) + [CLOSE_BRACE])))
         == HEAD + list + [CLOSE_BRACKET, CLOSE_BRACE]
  {
    var inner := [OPEN_BRACKET] + (list + [CLOSE_BRACKET]);
    var version := MemberText(VERSION_KEY, VERSION_ONE);
    var contacts := QuotedKey(CONTACTS_KEY) + [COLON_SIGN];
    HeadPieces(version, contacts);
    hide *;
    Reassociate(version, contacts, list);
    assert MemberText(CONTACTS_KEY, inner) == contacts + inner by {
      KeyFirst(CONTACTS_KEY, inner);
    }
  }

  lemma KeyFirst(key: Bytes, value: Bytes)
    ensures MemberText(key, value) == QuotedKey(key) + [COLON_SIGN] + value
  {
    hide QuotedKey;
  }

  lemma HeadPieces(version: Bytes, contacts: Bytes)
    requires version == MemberText(VERSION_KEY, VERSION_ONE)
    requires contacts == QuotedKey(CONTACTS_KEY) + [COLON_SIGN]
    ensures HEAD == [OPEN_BRACE] + version + [COMMA] + contacts + [OPEN_BRACKET]
  {
  }

  lemma Reassociate(version: Bytes, contacts: Bytes, list: Bytes)
    ensures [OPEN_BRACE] + (version + ([COMMA] + ((contacts + ([OPEN_BRACKET] + (list + [CLOSE_BRACKET]))) + [CLOSE_BRACE])))
         == [OPEN_BRACE] + version + [COMMA] + contacts + [OPEN_BRACKET] + list + [CLOSE_BRACKET, CLOSE_BRACE]
  {
    hide *;
  }

  method AppendContact(buffer: Bytes, d: Draft) returns (out: Bytes)
    requires WellPaired(d.name) && WellPaired(d.destination)
    ensures out == buffer + ContactText(d)
  {
    var name := AppendQuoted(QuotedKey(NAME_KEY) + [COLON_SIGN], d.name);
    var destination := AppendQuoted(QuotedKey(DESTINATION_KEY) + [COLON_SIGN], d.destination);
    var favorite := QuotedKey(FAVORITE_KEY) + [COLON_SIGN] + FlagWord(d.favorite) + [CLOSE_BRACE];
    assert name == MemberText(NAME_KEY, QuotedText(d.name));
    assert destination == MemberText(DESTINATION_KEY, QuotedText(d.destination));
    assert favorite == MemberText(FAVORITE_KEY, FlagWord(d.favorite)) + [CLOSE_BRACE];
    out := buffer + ([OPEN_BRACE] + (name + ([COMMA] + (destination + ([COMMA] + favorite)))));
  }

  method AppendNext(loc: Locale, buffer: Bytes, d: Draft, first: bool) returns (valid: bool, out: Bytes)
    ensures valid == ValidDraft(d)
    ensures valid ==> WellPaired(d.name) && WellPaired(d.destination)
    ensures valid ==> out == (if first then buffer else buffer + [COMMA]) + ContactText(d)
  {
    out := buffer;
    valid := CheckDraft(loc, d);
    if !valid { return; }
    DraftIsPaired(d);
    if !first { out := out + [COMMA]; }
    out := AppendContact(out, d);
  }

  // What is still to come when the next contact is, or is not, the first.
  ghost function Remaining(drafts: seq<Draft>, first: bool): Bytes
    requires Writable(drafts)
  {
    if first then ListText(drafts) else MoreText(drafts)
  }

  // The first i contacts are valid and written, if the rest are valid at all.
  ghost predicate Encoded(drafts: seq<Draft>, i: nat, out: Bytes) {
    && i <= |drafts|
    && AllWritten(drafts, i)
    && (Writable(drafts[i..]) ==> Writable(drafts))
    && (Writable(drafts) ==> Writable(drafts[i..]) && HEAD + ListText(drafts) == out + Remaining(drafts[i..], i == 0))
  }

  ghost predicate AllWritten(drafts: seq<Draft>, i: nat)
    requires i <= |drafts|
  {
    forall j :: 0 <= j < i ==> ValidDraft(drafts[j])
  }

  lemma NothingEncoded(drafts: seq<Draft>)
    ensures Encoded(drafts, 0, HEAD)
  {
    hide Writable, ListText;
    assert drafts[0..] == drafts;
  }

  lemma WritableCons(d: Draft, rest: seq<Draft>)
    ensures Writable([d] + rest) <==> ValidDraft(d) && Writable(rest)
  {
    hide ValidDraft;
    var all := [d] + rest;
    assert all[0] == d;
    assert forall i :: 0 <= i < |rest| ==> all[i + 1] == rest[i];
  }

  lemma RemainingStep(d: Draft, rest: seq<Draft>, first: bool, before: Bytes, after: Bytes)
    requires Writable([d] + rest) && Writable(rest) && WellPaired(d.name) && WellPaired(d.destination)
    requires after == (if first then before else before + [COMMA]) + ContactText(d)
    ensures before + Remaining([d] + rest, first) == after + Remaining(rest, false)
  {
    hide ContactText, ValidDraft, WellPaired, Writable;
    var all := [d] + rest;
    assert all[0] == d && all[1..] == rest;
    Regroup(before, [COMMA], ContactText(d), MoreText(rest));
  }

  lemma Regroup(a: Bytes, b: Bytes, c: Bytes, d: Bytes)
    ensures a + (c + d) == (a + c) + d
    ensures a + (b + (c + d)) == ((a + b) + c) + d
  {
  }

  lemma {:induction false} EncodeStep(drafts: seq<Draft>, i: nat, before: Bytes, after: Bytes)
    requires i < |drafts| && Encoded(drafts, i, before) && ValidDraft(drafts[i])
    requires WellPaired(drafts[i].name) && WellPaired(drafts[i].destination)
    requires after == (if i == 0 then before else before + [COMMA]) + ContactText(drafts[i])
    ensures Encoded(drafts, i + 1, after)
  {
    hide ContactText, ValidDraft, WellPaired, Writable, ListText, MoreText, Remaining;
    var now, rest := drafts[i..], drafts[i + 1..];
    assert now == [drafts[i]] + rest;
    WritableCons(drafts[i], rest);
    if Writable(now) {
      RemainingStep(drafts[i], rest, i == 0, before, after);
    }
  }

  lemma {:induction false} TooLong(items: seq<Contact>, i: nat, out: Bytes)
    requires Encoded(Drafts(items), i, out) && |out| > BACKUP_LIMIT
    ensures Backup(items) == None
  {
    hide ListText, BackupText, HEAD, Writable;
    var drafts := Drafts(items);
    if Writable(drafts) {
      BackupIsHeadAndList(drafts);
    }
  }

  lemma RefusedDraft(items: seq<Contact>, i: nat)
    requires i < |items| && !ValidDraft(items[i].ToDraft())
    ensures Backup(items) == None
  {
    hide ValidDraft, BackupText;
    assert !ValidDraft(Drafts(items)[i]);
  }

  lemma EncodedList(drafts: seq<Draft>, out: Bytes)
    requires Encoded(drafts, |drafts|, out)
    ensures Writable(drafts) && HEAD + ListText(drafts) == out
  {
    var none := drafts[|drafts|..];
    assert none == [];
    assert Writable(none);
    assert out + Remaining(none, |drafts| == 0) == out;
    hide ListText, Writable, Remaining, ValidDraft;
  }

  lemma {:induction false} AllEncoded(items: seq<Contact>, out: Bytes)
    requires |items| <= CAPACITY && Encoded(Drafts(items), |items|, out)
    ensures Backup(items) ==
            if |out| + 2 <= BACKUP_LIMIT then Some(out + [CLOSE_BRACKET, CLOSE_BRACE]) else None
  {
    hide ListText, Writable, Encoded, BackupText, HEAD;
    EncodedList(Drafts(items), out);
    BackupIsHeadAndList(Drafts(items));
  }

  lemma {:induction false} BackupIsHeadAndList(drafts: seq<Draft>)
    requires Writable(drafts)
    ensures BackupText(drafts) == HEAD + ListText(drafts) + [CLOSE_BRACKET, CLOSE_BRACE]
  {
    hide ListText, Writable, MemberText, HEAD;
    HeadAndList(ListText(drafts));
  }

  method EncodeContactBackup(loc: Locale, items: seq<Contact>) returns (r: Option<Bytes>)
    ensures r == Backup(items)
  {
    if |items| > CAPACITY { return None; }
    hide *;
    NothingEncoded(Drafts(items));
    var out := HEAD;
    var first := true;
    for i := 0 to |items|
      invariant first <==> i == 0
      invariant Encoded(Drafts(items), i, out)
    {
      var valid, next := AppendNext(loc, out, items[i].ToDraft(), first);
      if !valid {
        RefusedDraft(items, i);
        return None;
      }
      EncodeStep(Drafts(items), i, out, next);
      out := next;
      first := false;
      if |out| > BACKUP_LIMIT {
        TooLong(items, i + 1, out);
        return None;
      }
    }
    AllEncoded(items, out);
    out := out + [CLOSE_BRACKET, CLOSE_BRACE];
    if |out| > BACKUP_LIMIT { return None; }
    return Some(out);
  }

  method DecodeContactBackup(loc: Locale, bytes: Bytes) returns (r: Option<seq<Draft>>)
    ensures r == Restore(bytes)
  {
    if |bytes| > BACKUP_LIMIT { return None; }
    var parser := new Parser(bytes, loc);
    r := parser.Parse();
  }

  // --- Reading back tokens ---------------------------------------------------

  lemma TakeToken(input: Bytes, pos: nat, c: Byte, c': Byte)
    requires At(input, pos, [c]) && !IsSpaceByte(c)
    ensures Take(input, pos, c') == if c == c' then Took(true, pos + 1) else Took(false, pos)
  {
    AtIndex(input, pos, [c], 0);
  }

  // What stands at pos starts with c.
  lemma TakeHead(input: Bytes, pos: nat, text: Bytes, c': Byte)
    requires At(input, pos, text) && text != [] && !IsSpaceByte(text[0])
    ensures Take(input, pos, c') == if text[0] == c' then Took(true, pos + 1) else Took(false, pos)
  {
    AtIndex(input, pos, text, 0);
  }

  lemma ElementRoundTrip(input: Bytes, pos: nat, cp: nat)
    requires Scalar(cp) && At(input, pos, Escaped(cp))
    ensures pos < |input| && input[pos] != QUOTE
    ensures Element(input, pos) == Good(cp, pos + |Escaped(cp)|)
  {
    AtIndex(input, pos, Escaped(cp), 0);
    if cp == 34 || cp == 92 {
      AtIndex(input, pos, Escaped(cp), 1);
    } else {
      DecodeInvertsEncode(input, pos, cp);
    }
  }

  predicate AllPermitted(units: Wide, ascii: bool)
    requires WellPaired(units)
  {
    forall i :: 0 <= i < |CodePoints(units)| ==> Permitted(CodePoints(units)[i], ascii)
  }

  lemma BodyStep(units: Wide)
    requires units != [] && WellPaired(units)
    ensures WellPaired(units[Width(units)..])
    ensures QuotedBody(units) + [QUOTE] == Escaped(First(units)) + (QuotedBody(units[Width(units)..]) + [QUOTE])
  {
    hide First, Escaped, Units;
  }

  lemma UnitsStep(units: Wide)
    requires units != [] && WellPaired(units)
    ensures Units(First(units)) + units[Width(units)..] == units
  {
    UnitsOfFirst(units);
    hide First, Units, WellPaired;
  }

  lemma PermittedStep(units: Wide, ascii: bool)
    requires units != [] && WellPaired(units) && AllPermitted(units, ascii)
    ensures Permitted(First(units), ascii) && AllPermitted(units[Width(units)..], ascii)
  {
    hide First, Permitted;
    var all, rest := CodePoints(units), CodePoints(units[Width(units)..]);
    assert all == [First(units)] + rest;
    assert Permitted(all[0], ascii);
    forall i | 0 <= i < |rest| ensures Permitted(rest[i], ascii) {
      assert Permitted(all[i + 1], ascii);
    }
  }

  lemma StringEnd(input: Bytes, pos: nat, read: nat, limit: nat, ascii: bool)
    requires At(input, pos, [QUOTE])
    ensures StringBody(input, pos, read, limit, ascii) == Good([], pos + 1)
  {
    AtIndex(input, pos, [QUOTE], 0);
  }

  // One element of a string, and then the rest of it.
  lemma StringStep(input: Bytes, pos: nat, cp: nat, next: nat, read: nat, limit: nat, ascii: bool, rest: Parsed<Wide>)
    requires pos < |input| && input[pos] != QUOTE && cp <= 0x10FFFF
    requires Element(input, pos) == Good(cp, next)
    requires Permitted(cp, ascii) && read + |Units(cp)| <= limit
    requires StringBody(input, next, read + |Units(cp)|, limit, ascii) == rest
    ensures StringBody(input, pos, read, limit, ascii) == Prefixed(Units(cp), rest)
  {
  }

  // The first element of a quoted text, and what is left of it.
  lemma {:induction false} FirstElement(input: Bytes, pos: nat, units: Wide, ascii: bool) returns (cp: nat, rest: Wide, next: nat)
    requires units != [] && WellPaired(units) && AllPermitted(units, ascii)
    requires At(input, pos, QuotedBody(units) + [QUOTE])
    ensures pos < |input| && input[pos] != QUOTE
    ensures cp <= 0x10FFFF && Permitted(cp, ascii) && Units(cp) + rest == units
    ensures |rest| < |units| && WellPaired(rest) && AllPermitted(rest, ascii)
    ensures Element(input, pos) == Good(cp, next)
    ensures At(input, next, QuotedBody(rest) + [QUOTE])
    ensures pos + |QuotedBody(units)| == next + |QuotedBody(rest)|
  {
    cp, rest := First(units), units[Width(units)..];
    next := pos + |Escaped(cp)|;
    BodyStep(units);
    UnitsStep(units);
    PermittedStep(units, ascii);
    AtConcat(input, pos, Escaped(cp), QuotedBody(rest) + [QUOTE]);
    ElementRoundTrip(input, pos, cp);
  }

  lemma {:induction false} BodyRoundTrip(input: Bytes, pos: nat, units: Wide, read: nat, limit: nat, ascii: bool)
    requires WellPaired(units) && AllPermitted(units, ascii) && read + |units| <= limit
    requires At(input, pos, QuotedBody(units) + [QUOTE])
    ensures StringBody(input, pos, read, limit, ascii) == Good(units, pos + |QuotedBody(units)| + 1)
    decreases |units|
  {
    if units == [] {
      assert QuotedBody(units) + [QUOTE] == [QUOTE];
      StringEnd(input, pos, read, limit, ascii);
    } else {
      var cp, rest, next := FirstElement(input, pos, units, ascii);
      BodyRoundTrip(input, next, rest, read + |Units(cp)|, limit, ascii);
      StringStep(input, pos, cp, next, read, limit, ascii, Good(rest, next + |QuotedBody(rest)| + 1));
    }
  }

  lemma TextRoundTrip(input: Bytes, pos: nat, units: Wide, limit: nat, ascii: bool)
    requires WellPaired(units) && AllPermitted(units, ascii) && |units| <= limit
    requires At(input, pos, QuotedText(units))
    ensures Text(input, pos, limit, ascii) == Good(units, pos + |QuotedText(units)|)
  {
    AtConcat(input, pos, [QUOTE], QuotedBody(units) + [QUOTE]);
    TakeToken(input, pos, QUOTE, QUOTE);
    BodyRoundTrip(input, pos + 1, units, 0, limit, ascii);
  }

  predicate IsKey(key: Bytes) {
    forall i :: 0 <= i < |key| ==> 97 <= key[i] <= 122
  }

  lemma {:induction false} KeyIsQuoted(key: Bytes)
    requires IsKey(key)
    ensures WellPaired(key) && AllPermitted(key, true) && QuotedBody(key) == key
  {
    if key != [] {
      KeyIsQuoted(key[1..]);
      assert CodePoints(key) == [First(key)] + CodePoints(key[1..]);
      assert key == [key[0]] + key[1..];
    }
  }

  lemma KeyRoundTrip(input: Bytes, pos: nat, key: Bytes, limit: nat)
    requires IsKey(key) && |key| <= limit && At(input, pos, QuotedKey(key))
    ensures Text(input, pos, limit, true) == Good(key, pos + |QuotedKey(key)|)
  {
    KeyIsQuoted(key);
    TextRoundTrip(input, pos, key, limit, true);
  }

  // --- Reading back objects --------------------------------------------------

  lemma NameIsPermitted(d: Draft)
    requires ValidDraft(d)
    ensures WellPaired(d.name) && AllPermitted(d.name, false) && |d.name| <= 64
  {
    forall i | 0 <= i < |CodePoints(d.name)| ensures Permitted(CodePoints(d.name)[i], false) {
      assert !NameForbids(CodePoints(d.name)[i]);
    }
  }

  lemma {:induction false} GraphicIsPermitted(units: Wide)
    requires Graphic(units)
    ensures WellPaired(units) && AllPermitted(units, true)
  {
    if units != [] {
      GraphicIsPermitted(units[1..]);
      assert CodePoints(units) == [First(units)] + CodePoints(units[1..]);
    }
  }

  // A key and its colon, then whatever the value is.
  lemma MemberKey(input: Bytes, pos: nat, key: Bytes, value: Bytes, limit: nat)
    requires IsKey(key) && |key| <= limit && At(input, pos, MemberText(key, value))
    ensures Text(input, pos, limit, true) == Good(key, pos + |QuotedKey(key)|)
    ensures Take(input, pos + |QuotedKey(key)|, COLON_SIGN) == Took(true, pos + |QuotedKey(key)| + 1)
    ensures At(input, pos + |QuotedKey(key)| + 1, value)
  {
    AtConcat(input, pos, QuotedKey(key), [COLON_SIGN] + value);
    AtConcat(input, pos + |QuotedKey(key)|, [COLON_SIGN], value);
    KeyRoundTrip(input, pos, key, limit);
    TakeToken(input, pos + |QuotedKey(key)|, COLON_SIGN, COLON_SIGN);
  }

  // A known key, its colon, and a value whose reading is known.
  lemma {:induction false} KeyedField(input: Bytes, pos: nat, key: Bytes, value: Bytes, p: Partial, q: Partial)
    requires IsKey(key) && |key| <= 11
    requires At(input, pos, MemberText(key, value))
    requires var start := pos + |QuotedKey(key)| + 1;
             At(input, start, value) ==> FieldValue(input, start, KeyOf(key), p) == Good(q, start + |value|)
    ensures Field(input, pos, p) == Good(q, pos + |MemberText(key, value)|)
  {
    MemberTextSize(key, value);
    hide Text, Take, At, MemberText, QuotedKey, FieldValue, KeyOf, IsKey;
    MemberKey(input, pos, key, value, 11);
  }

  lemma KeysAreDistinct()
    ensures KeyOf(NAME_KEY) == NameMember && KeyOf(DESTINATION_KEY) == DestinationMember
    ensures KeyOf(FAVORITE_KEY) == FavoriteMember
  {
    assert |NAME_KEY| == 4 && |DESTINATION_KEY| == 11 && |FAVORITE_KEY| == 8;
  }

  lemma {:induction false} NameValue(input: Bytes, start: nat, d: Draft, p: Partial)
    requires ValidDraft(d) && WellPaired(d.name) && !p.fields.name
    requires At(input, start, QuotedText(d.name))
    ensures FieldValue(input, start, NameMember, p)
         == Good(Partial(p.fields.(name := true), p.draft.(name := d.name)), start + |QuotedText(d.name)|)
  {
    NameIsPermitted(d);
    hide Text, At, QuotedText, ValidDraft, AllPermitted, WellPaired, Flag;
    TextRoundTrip(input, start, d.name, 64, false);
  }

  lemma {:induction false} NameField(input: Bytes, pos: nat, d: Draft, p: Partial)
    requires ValidDraft(d) && WellPaired(d.name) && !p.fields.name
    requires At(input, pos, MemberText(NAME_KEY, QuotedText(d.name)))
    ensures Field(input, pos, p)
         == Good(Partial(p.fields.(name := true), p.draft.(name := d.name)), pos + |MemberText(NAME_KEY, QuotedText(d.name))|)
  {
    KeysAreDistinct();
    KeysAreKeys();
    hide *;
    var value := QuotedText(d.name);
    var start := pos + |QuotedKey(NAME_KEY)| + 1;
    if At(input, start, value) { NameValue(input, start, d, p); }
    KeyedField(input, pos, NAME_KEY, value, p, Partial(p.fields.(name := true), p.draft.(name := d.name)));
  }

  lemma {:induction false} DestinationValue(input: Bytes, start: nat, d: Draft, p: Partial)
    requires ValidDraft(d) && WellPaired(d.destination) && !p.fields.destination
    requires At(input, start, QuotedText(d.destination))
    ensures FieldValue(input, start, DestinationMember, p)
         == Good(Partial(p.fields.(destination := true), p.draft.(destination := d.destination)),
                 start + |QuotedText(d.destination)|)
  {
    GraphicIsPermitted(d.destination);
    assert |d.destination| <= 128;
    hide Text, At, QuotedText, ValidDraft, AllPermitted, WellPaired, Flag;
    TextRoundTrip(input, start, d.destination, 128, true);
  }

  lemma DestinationField(input: Bytes, pos: nat, d: Draft, p: Partial)
    requires ValidDraft(d) && WellPaired(d.destination) && !p.fields.destination
    requires At(input, pos, MemberText(DESTINATION_KEY, QuotedText(d.destination)))
    ensures Field(input, pos, p)
         == Good(Partial(p.fields.(destination := true), p.draft.(destination := d.destination)),
                 pos + |MemberText(DESTINATION_KEY, QuotedText(d.destination))|)
  {
    KeysAreDistinct();
    KeysAreKeys();
    hide *;
    var value := QuotedText(d.destination);
    var start := pos + |QuotedKey(DESTINATION_KEY)| + 1;
    if At(input, start, value) { DestinationValue(input, start, d, p); }
    KeyedField(input, pos, DESTINATION_KEY, value, p,
               Partial(p.fields.(destination := true), p.draft.(destination := d.destination)));
  }

  lemma KeysAreKeys()
    ensures IsKey(NAME_KEY) && |NAME_KEY| <= 11
    ensures IsKey(DESTINATION_KEY) && |DESTINATION_KEY| <= 11
    ensures IsKey(FAVORITE_KEY) && |FAVORITE_KEY| <= 11
  {
  }

  lemma MemberTextSize(key: Bytes, value: Bytes)
    ensures |MemberText(key, value)| == |QuotedKey(key)| + 1 + |value|
  {
  }

  lemma FlagRoundTrip(input: Bytes, pos: nat, favorite: bool)
    requires At(input, pos, FlagWord(favorite))
    ensures Flag(input, pos) == Good(favorite, pos + |FlagWord(favorite)|)
  {
    AtIndex(input, pos, FlagWord(favorite), 0);
    if !favorite && At(input, pos, TRUE_WORD) {
      AtIndex(input, pos, TRUE_WORD, 0);
    }
  }

  lemma FavoriteValue(input: Bytes, start: nat, favorite: bool, p: Partial)
    requires !p.fields.favorite && At(input, start, FlagWord(favorite))
    ensures FieldValue(input, start, FavoriteMember, p)
         == Good(Partial(p.fields.(favorite := true), p.draft.(favorite := favorite)), start + |FlagWord(favorite)|)
  {
    hide At, Text, Flag, FlagWord;
    FlagRoundTrip(input, start, favorite);
  }

  lemma FavoriteField(input: Bytes, pos: nat, favorite: bool, p: Partial)
    requires !p.fields.favorite
    requires At(input, pos, MemberText(FAVORITE_KEY, FlagWord(favorite)))
    ensures Field(input, pos, p)
         == Good(Partial(p.fields.(favorite := true), p.draft.(favorite := favorite)),
                 pos + |MemberText(FAVORITE_KEY, FlagWord(favorite))|)
  {
    KeysAreDistinct();
    KeysAreKeys();
    hide *;
    var value := FlagWord(favorite);
    var start := pos + |QuotedKey(FAVORITE_KEY)| + 1;
    if At(input, start, value) { FavoriteValue(input, start, favorite, p); }
    KeyedField(input, pos, FAVORITE_KEY, value, p, Partial(p.fields.(favorite := true), p.draft.(favorite := favorite)));
  }

  // A field followed by the closing brace.
  lemma {:induction false} FieldThenClose(input: Bytes, pos: nat, p: Partial, q: Partial, text: Bytes)
    requires At(input, pos, text + [CLOSE_BRACE])
    requires At(input, pos, text) ==> Field(input, pos, p) == Good(q, pos + |text|)
    requires q.fields.All() && ValidDraft(q.draft)
    ensures ContactLoop(input, pos, p) == Good(q.draft, pos + |text| + 1)
  {
    hide Field, At, Take, ValidDraft;
    AtConcat(input, pos, text, [CLOSE_BRACE]);
    TakeToken(input, pos + |text|, CLOSE_BRACE, COMMA);
    TakeToken(input, pos + |text|, CLOSE_BRACE, CLOSE_BRACE);
  }

  // From the third field on: it closes the object.
  lemma LastFieldRoundTrip(input: Bytes, pos: nat, d: Draft)
    requires ValidDraft(d)
    requires At(input, pos, MemberText(FAVORITE_KEY, FlagWord(d.favorite)) + [CLOSE_BRACE])
    ensures ContactLoop(input, pos, Partial(Fields(true, true, false), d.(favorite := false)))
         == Good(d, pos + |MemberText(FAVORITE_KEY, FlagWord(d.favorite)) + [CLOSE_BRACE]|)
  {
    hide Field, At, Take, ValidDraft, MemberText, FlagWord, ContactLoop;
    var text := MemberText(FAVORITE_KEY, FlagWord(d.favorite));
    var p := Partial(Fields(true, true, false), d.(favorite := false));
    if At(input, pos, text) { FavoriteField(input, pos, d.favorite, p); }
    FieldThenClose(input, pos, p, Partial(Fields(true, true, true), d), text);
  }

  // A field followed by a comma.
  lemma FieldThenMore(input: Bytes, pos: nat, p: Partial, q: Partial, text: Bytes, rest: Bytes)
    requires At(input, pos, text + ([COMMA] + rest))
    requires At(input, pos, text) ==> Field(input, pos, p) == Good(q, pos + |text|)
    ensures At(input, pos + |text| + 1, rest)
    ensures ContactLoop(input, pos, p) == ContactLoop(input, pos + |text| + 1, q)
  {
    hide Field, At, Take, ValidDraft;
    AtConcat(input, pos, text, [COMMA] + rest);
    AtConcat(input, pos + |text|, [COMMA], rest);
    TakeToken(input, pos + |text|, COMMA, COMMA);
  }

  // Two fields, each followed by a comma, and the rest of the object.
  lemma {:induction false} ThreeFields(input: Bytes, pos: nat, p0: Partial, p1: Partial, p2: Partial,
                    first: Bytes, second: Bytes, third: Bytes)
    requires At(input, pos, first + ([COMMA] + (second + ([COMMA] + third))))
    requires At(input, pos, first) ==> Field(input, pos, p0) == Good(p1, pos + |first|)
    requires var next := pos + |first| + 1;
             At(input, next, second) ==> Field(input, next, p1) == Good(p2, next + |second|)
    ensures var last := pos + |first| + 1 + |second| + 1;
            At(input, last, third) && ContactLoop(input, pos, p0) == ContactLoop(input, last, p2)
  {
    hide *;
    FieldThenMore(input, pos, p0, p1, first, second + ([COMMA] + third));
    FieldThenMore(input, pos + |first| + 1, p1, p2, second, third);
  }

  lemma OpenObject(input: Bytes, pos: nat, rest: Bytes)
    requires At(input, pos, [OPEN_BRACE] + rest)
    ensures At(input, pos + 1, rest)
    ensures ContactObject(input, pos) == ContactLoop(input, pos + 1, Partial(NO_FIELDS, NO_DRAFT))
  {
    AtConcat(input, pos, [OPEN_BRACE], rest);
    TakeToken(input, pos, OPEN_BRACE, OPEN_BRACE);
  }

  lemma ContactTextSplits(d: Draft) returns (name: Bytes, destination: Bytes, favorite: Bytes)
    requires WellPaired(d.name) && WellPaired(d.destination)
    ensures name == MemberText(NAME_KEY, QuotedText(d.name))
    ensures destination == MemberText(DESTINATION_KEY, QuotedText(d.destination))
    ensures favorite == MemberText(FAVORITE_KEY, FlagWord(d.favorite)) + [CLOSE_BRACE]
    ensures ContactText(d) == [OPEN_BRACE] + (name + ([COMMA] + (destination + ([COMMA] + favorite))))
    ensures |ContactText(d)| == 1 + |name| + 1 + |destination| + 1 + |favorite|
  {
    hide QuotedText, MemberText, FlagWord;
    name := MemberText(NAME_KEY, QuotedText(d.name));
    destination := MemberText(DESTINATION_KEY, QuotedText(d.destination));
    favorite := MemberText(FAVORITE_KEY, FlagWord(d.favorite)) + [CLOSE_BRACE];
  }

  lemma StartingPartial(d: Draft)
    ensures !NO_FIELDS.name && !NO_FIELDS.destination
    ensures Partial(NO_FIELDS.(name := true, destination := true),
                    NO_DRAFT.(name := d.name, destination := d.destination))
         == Partial(Fields(true, true, false), d.(favorite := false))
  {
  }

  lemma ContactRoundTrip(input: Bytes, pos: nat, d: Draft)
    requires ValidDraft(d) && WellPaired(d.name) && WellPaired(d.destination)
    requires At(input, pos, ContactText(d))
    ensures ContactObject(input, pos) == Good(d, pos + |ContactText(d)|)
  {
    hide *;
    var name, destination, favorite := ContactTextSplits(d);
    OpenObject(input, pos, name + ([COMMA] + (destination + ([COMMA] + favorite))));
    StartingPartial(d);
    FieldsRoundTrip(input, pos + 1, d, Partial(NO_FIELDS, NO_DRAFT), name, destination, favorite);
    LastFieldRoundTrip(input, pos + 1 + |name| + 1 + |destination| + 1, d);
  }

  lemma {:induction false} FieldsRoundTrip(input: Bytes, pos: nat, d: Draft, p0: Partial, name: Bytes, destination: Bytes, rest: Bytes)
    requires ValidDraft(d) && WellPaired(d.name) && WellPaired(d.destination)
    requires name == MemberText(NAME_KEY, QuotedText(d.name))
    requires destination == MemberText(DESTINATION_KEY, QuotedText(d.destination))
    requires At(input, pos, name + ([COMMA] + (destination + ([COMMA] + rest))))
    requires !p0.fields.name && !p0.fields.destination
    ensures var last := pos + |name| + 1 + |destination| + 1;
            && At(input, last, rest)
            && ContactLoop(input, pos, p0)
            == ContactLoop(input, last, Partial(p0.fields.(name := true, destination := true),
                                                p0.draft.(name := d.name, destination := d.destination)))
  {
    hide *;
    var p1 := Partial(p0.fields.(name := true), p0.draft.(name := d.name));
    var p2 := Partial(p1.fields.(destination := true), p1.draft.(destination := d.destination));
    var next := pos + |name| + 1;
    if At(input, pos, name) { NameField(input, pos, d, p0); }
    if At(input, next, destination) { DestinationField(input, next, d, p1); }
    ThreeFields(input, pos, p0, p1, p2, name, destination, rest);
  }

  predicate UniqueDrafts(drafts: seq<Draft>) {
    forall i, j :: 0 <= i < j < |drafts| ==> drafts[i].destination != drafts[j].destination
  }

  lemma NotYetListed(before: seq<Draft>, drafts: seq<Draft>)
    requires drafts != [] && UniqueDrafts(before + drafts)
    ensures !HasDestination(before, drafts[0].destination)
    ensures before + drafts == before + [drafts[0]] + drafts[1..]
  {
    var all := before + drafts;
    assert all[|before|] == drafts[0];
    assert forall i :: 0 <= i < |before| ==> all[i] == before[i];
  }

  lemma RestIsWritable(drafts: seq<Draft>)
    requires drafts != [] && Writable(drafts)
    ensures ValidDraft(drafts[0]) && Writable(drafts[1..])
  {
    hide ValidDraft;
  }

  // One contact of a list, whose reading is known, and what follows it.
  lemma ListStep(input: Bytes, pos: nat, before: seq<Draft>, d: Draft, text: Bytes, rest: Bytes)
    requires At(input, pos, text + rest) && rest != [] && (rest[0] == COMMA || rest == [CLOSE_BRACKET])
    requires At(input, pos, text) ==> ContactObject(input, pos) == Good(d, pos + |text|)
    requires |before| < CAPACITY && !HasDestination(before, d.destination)
    ensures rest[0] == COMMA ==>
            && At(input, pos + |text| + 1, rest[1..])
            && ListLoop(input, pos, before) == ListLoop(input, pos + |text| + 1, before + [d])
    ensures rest == [CLOSE_BRACKET] ==>
            ListLoop(input, pos, before) == Good(before + [d], pos + |text| + 1)
  {
    hide ContactObject, At, Take, HasDestination, ValidDraft, ContactLoop;
    var next := pos + |text|;
    AtConcat(input, pos, text, rest);
    AtConcat(input, next, [rest[0]], rest[1..]);
    assert [rest[0]] + rest[1..] == rest;
    TakeToken(input, next, rest[0], COMMA);
    TakeToken(input, next, rest[0], CLOSE_BRACKET);
  }

  lemma ListTextSplits(drafts: seq<Draft>) returns (tail: Bytes)
    requires drafts != [] && Writable(drafts)
    ensures Writable(drafts[1..])
    ensures WellPaired(drafts[0].name) && WellPaired(drafts[0].destination)
    ensures ListText(drafts) + [CLOSE_BRACKET] == ContactText(drafts[0]) + tail
    ensures |ListText(drafts)| + 1 == |ContactText(drafts[0])| + |tail|
    ensures |drafts| == 1 ==> tail == [CLOSE_BRACKET]
    ensures |drafts| > 1 ==> tail == [COMMA] + (ListText(drafts[1..]) + [CLOSE_BRACKET])
  {
    hide ContactText, ValidDraft, WellPaired;
    DraftIsPaired(drafts[0]);
    var rest := drafts[1..];
    tail := MoreText(rest) + [CLOSE_BRACKET];
    if rest != [] {
      assert MoreText(rest) == [COMMA] + ListText(rest);
    }
  }

  // The remaining contacts, up to and including the closing bracket.
  lemma {:induction false} ListRoundTrip(input: Bytes, pos: nat, before: seq<Draft>, drafts: seq<Draft>)
    requires drafts != [] && Writable(drafts) && UniqueDrafts(before + drafts) && |before + drafts| <= CAPACITY
    requires At(input, pos, ListText(drafts) + [CLOSE_BRACKET])
    ensures ListLoop(input, pos, before) == Good(before + drafts, pos + |ListText(drafts)| + 1)
    decreases |drafts|
  {
    hide *;
    var d, rest := drafts[0], drafts[1..];
    var tail := ListTextSplits(drafts);
    RestIsWritable(drafts);
    NotYetListed(before, drafts);
    var text := ContactText(d);
    if At(input, pos, text) { ContactRoundTrip(input, pos, d); }
    ListStep(input, pos, before, d, text, tail);
    if |drafts| > 1 {
      assert tail[1..] == ListText(rest) + [CLOSE_BRACKET];
      ListRoundTrip(input, pos + |text| + 1, before + [d], rest);
    } else {
      assert before + drafts == before + [d];
    }
  }

  lemma ListTextHead(drafts: seq<Draft>)
    requires drafts != [] && Writable(drafts)
    ensures ListText(drafts) != [] && !IsSpaceByte(ListText(drafts)[0]) && ListText(drafts)[0] != CLOSE_BRACKET
  {
    DraftIsPaired(drafts[0]);
  }

  lemma OpenList(input: Bytes, pos: nat, rest: Bytes)
    requires At(input, pos, [OPEN_BRACKET] + rest) && rest != [] && !IsSpaceByte(rest[0])
    ensures At(input, pos + 1, rest)
    ensures ContactList(input, pos, []) ==
            if rest[0] == CLOSE_BRACKET then Good([], pos + 2) else ListLoop(input, pos + 1, [])
  {
    AtConcat(input, pos, [OPEN_BRACKET], rest);
    TakeToken(input, pos, OPEN_BRACKET, OPEN_BRACKET);
    TakeHead(input, pos + 1, rest, CLOSE_BRACKET);
    hide ListLoop;
  }

  lemma {:induction false} ContactListRoundTrip(input: Bytes, pos: nat, drafts: seq<Draft>)
    requires Writable(drafts) && UniqueDrafts(drafts) && |drafts| <= CAPACITY
    requires At(input, pos, [OPEN_BRACKET] + (ListText(drafts) + [CLOSE_BRACKET]))
    ensures ContactList(input, pos, []) == Good(drafts, pos + |ListText(drafts)| + 2)
  {
    if drafts == [] {
      assert ListText(drafts) + [CLOSE_BRACKET] == [CLOSE_BRACKET];
      OpenList(input, pos, [CLOSE_BRACKET]);
    } else {
      FullListRoundTrip(input, pos, drafts);
    }
  }

  lemma {:induction false} FullListRoundTrip(input: Bytes, pos: nat, drafts: seq<Draft>)
    requires drafts != [] && Writable(drafts) && UniqueDrafts(drafts) && |drafts| <= CAPACITY
    requires At(input, pos, [OPEN_BRACKET] + (ListText(drafts) + [CLOSE_BRACKET]))
    ensures ContactList(input, pos, []) == Good(drafts, pos + |ListText(drafts)| + 2)
  {
    hide *;
    ListTextHead(drafts);
    OpenList(input, pos, ListText(drafts) + [CLOSE_BRACKET]);
    assert [] + drafts == drafts;
    ListRoundTrip(input, pos + 1, [], drafts);
  }

  // --- The whole document ----------------------------------------------------

  lemma OpenDocument(input: Bytes, rest: Bytes)
    requires At(input, 0, [OPEN_BRACE] + rest)
    ensures At(input, 1, rest)
    ensures ParseDocument(input) == DocumentLoop(input, 1, Document(false, false, []))
  {
    AtConcat(input, 0, [OPEN_BRACE], rest);
    TakeToken(input, 0, OPEN_BRACE, OPEN_BRACE);
    hide DocumentLoop;
  }

  lemma OneRoundTrip(input: Bytes, pos: nat)
    requires At(input, pos, VERSION_ONE)
    ensures Literal(input, pos, VERSION_ONE) == Took(true, pos + 1)
  {
    AtIndex(input, pos, VERSION_ONE, 0);
  }

  lemma {:induction false} VersionRoundTrip(input: Bytes, pos: nat)
    requires At(input, pos, MemberText(VERSION_KEY, VERSION_ONE))
    ensures Member(input, pos, Document(false, false, []))
         == Good(Document(true, false, []), pos + |MemberText(VERSION_KEY, VERSION_ONE)|)
  {
    MemberTextSize(VERSION_KEY, VERSION_ONE);
    hide At, Text, Take, Literal, ContactList, QuotedKey, MemberText;
    MemberKey(input, pos, VERSION_KEY, VERSION_ONE, 8);
    OneRoundTrip(input, pos + |QuotedKey(VERSION_KEY)| + 1);
  }

  // One member of the document, and then the next or the end.
  lemma {:induction false} NextMember(input: Bytes, pos: nat, d: Document, e: Document, next: nat)
    requires pos <= |input| && Member(input, pos, d) == Good(e, next) && next <= |input|
    ensures var more := Take(input, next, COMMA);
            && (more.ok ==> DocumentLoop(input, pos, d) == DocumentLoop(input, more.next, e))
            && (!more.ok ==> DocumentLoop(input, pos, d) == ClosedDocument(input, more.next, e))
  {
    hide Member, Take;
  }

  lemma {:induction false} VersionMember(input: Bytes, pos: nat, rest: Bytes)
    requires At(input, pos, MemberText(VERSION_KEY, VERSION_ONE) + ([COMMA] + rest))
    ensures var next := pos + |MemberText(VERSION_KEY, VERSION_ONE)| + 1;
            && At(input, next, rest)
            && DocumentLoop(input, pos, Document(false, false, [])) == DocumentLoop(input, next, Document(true, false, []))
  {
    var text := MemberText(VERSION_KEY, VERSION_ONE);
    AtConcat(input, pos, text, [COMMA] + rest);
    AtConcat(input, pos + |text|, [COMMA], rest);
    hide Member, DocumentLoop, MemberText, At, Take;
    TakeToken(input, pos + |text|, COMMA, COMMA);
    VersionRoundTrip(input, pos);
    NextMember(input, pos, Document(false, false, []), Document(true, false, []), pos + |text|);
  }

  lemma ContactsMember(input: Bytes, pos: nat, list: Bytes, out: seq<Draft>)
    requires At(input, pos, MemberText(CONTACTS_KEY, list))
    requires var start := pos + |QuotedKey(CONTACTS_KEY)| + 1;
             At(input, start, list) ==> ContactList(input, start, []) == Good(out, start + |list|)
    ensures Member(input, pos, Document(true, false, [])) == Good(Document(true, true, out), pos + |MemberText(CONTACTS_KEY, list)|)
  {
    MemberTextSize(CONTACTS_KEY, list);
    hide At, Text, Take, Literal, ContactList, QuotedKey, MemberText;
    MemberKey(input, pos, CONTACTS_KEY, list, 8);
    assert CONTACTS_KEY != VERSION_KEY;
  }

  lemma {:induction false} CloseDocument(input: Bytes, pos: nat, next: nat, d: Document, e: Document)
    requires pos <= |input| && Member(input, pos, d) == Good(e, next)
    requires At(input, next, [CLOSE_BRACE]) && next + 1 == |input|
    requires e.version && e.listed
    ensures DocumentLoop(input, pos, d) == Some(e.out)
  {
    TakeToken(input, next, CLOSE_BRACE, COMMA);
    TakeToken(input, next, CLOSE_BRACE, CLOSE_BRACE);
    hide Member, At;
  }

  lemma {:induction false} LastMember(input: Bytes, pos: nat, list: Bytes, out: seq<Draft>)
    requires At(input, pos, MemberText(CONTACTS_KEY, list) + [CLOSE_BRACE])
    requires pos + |MemberText(CONTACTS_KEY, list)| + 1 == |input|
    requires var start := pos + |QuotedKey(CONTACTS_KEY)| + 1;
             At(input, start, list) ==> ContactList(input, start, []) == Good(out, start + |list|)
    ensures DocumentLoop(input, pos, Document(true, false, [])) == Some(out)
  {
    hide *;
    var text := MemberText(CONTACTS_KEY, list);
    AtConcat(input, pos, text, [CLOSE_BRACE]);
    ContactsMember(input, pos, list, out);
    CloseDocument(input, pos, pos + |text|, Document(true, false, []), Document(true, true, out));
  }

  // Reading a written backup gives the drafts back, in order.
  lemma {:induction false} DocumentRoundTrip(drafts: seq<Draft>)
    requires Writable(drafts) && UniqueDrafts(drafts) && |drafts| <= CAPACITY
    ensures ParseDocument(BackupText(drafts)) == Some(drafts)
  {
    var input := BackupText(drafts);
    var list := [OPEN_BRACKET] + (ListText(drafts) + [CLOSE_BRACKET]);
    var version := MemberText(VERSION_KEY, VERSION_ONE);
    var last := MemberText(CONTACTS_KEY, list) + [CLOSE_BRACE];
    assert At(input, 0, [OPEN_BRACE] + (version + ([COMMA] + last)));
    assert |input| == 1 + |version| + 1 + |last|;
    ReadDocument(input, drafts, list, version, last);
  }

  lemma {:induction false} ReadDocument(input: Bytes, drafts: seq<Draft>, list: Bytes, version: Bytes, last: Bytes)
    requires Writable(drafts) && UniqueDrafts(drafts) && |drafts| <= CAPACITY
    requires list == [OPEN_BRACKET] + (ListText(drafts) + [CLOSE_BRACKET])
    requires version == MemberText(VERSION_KEY, VERSION_ONE)
    requires last == MemberText(CONTACTS_KEY, list) + [CLOSE_BRACE]
    requires At(input, 0, [OPEN_BRACE] + (version + ([COMMA] + last)))
    requires |input| == 1 + |version| + 1 + |last|
    ensures ParseDocument(input) == Some(drafts)
  {
    hide *;
    OpenDocument(input, version + ([COMMA] + last));
    VersionMember(input, 1, last);
    var pos := 1 + |version| + 1;
    var start := pos + |QuotedKey(CONTACTS_KEY)| + 1;
    if At(input, start, list) { ContactListRoundTrip(input, start, drafts); }
    LastMember(input, pos, list, drafts);
  }

  // --- Size ------------------------------------------------------------------

  lemma {:induction false} BodySize(units: Wide)
    requires WellPaired(units)
    ensures |QuotedBody(units)| <= 3 * |units|
    decreases |units|
  {
    if units != [] {
      BodySize(units[Width(units)..]);
      assert |Escaped(First(units))| <= 3 * Width(units);
    }
  }

  lemma ContactSize(d: Draft)
    requires ValidDraft(d) && WellPaired(d.name) && WellPaired(d.destination)
    ensures |ContactText(d)| <= 621
  {
    BodySize(d.name);
    BodySize(d.destination);
    var name, destination, favorite := ContactTextSplits(d);
    assert |name| <= 6 + 1 + 194 && |destination| <= 13 + 1 + 386 && |favorite| <= 10 + 1 + 5 + 1;
  }

  lemma {:induction false} MoreSize(drafts: seq<Draft>)
    requires Writable(drafts)
    ensures |MoreText(drafts)| <= 622 * |drafts|
  {
    if drafts != [] {
      RestIsWritable(drafts);
      DraftIsPaired(drafts[0]);
      ContactSize(drafts[0]);
      MoreSize(drafts[1..]);
      hide ContactText;
    }
  }

  // 500 contacts always fit.
  lemma BackupFits(drafts: seq<Draft>)
    requires Writable(drafts) && |drafts| <= CAPACITY
    ensures |BackupText(drafts)| <= BACKUP_LIMIT
  {
    HeadAndList(ListText(drafts));
    MoreSize(drafts);
    assert |ListText(drafts)| <= |MoreText(drafts)|;
  }

  // --- The main results ------------------------------------------------------

  lemma BookIsWritable(b: Book)
    requires Inv(b)
    ensures Writable(Drafts(b.items)) && UniqueDrafts(Drafts(b.items))
  {
    hide ValidDraft;
  }

  // Every book reachable by any sequence of operations can be backed up, and
  // its backup restores exactly its contacts, in order.
  lemma {:induction false} ReachableBooksRoundTrip(ops: seq<BookOp>)
    ensures var items := Run(EMPTY, ops).items;
            Backup(items).Some? && Restore(Backup(items).value) == Some(Drafts(items))
  {
    var b := Run(EMPTY, ops);
    RunKeepsInv(EMPTY, ops);
    BookIsWritable(b);
    BackupFits(Drafts(b.items));
    DocumentRoundTrip(Drafts(b.items));
  }

  lemma {:induction false} ListLoopStep(input: Bytes, pos: nat, out: seq<Draft>) returns (d: Draft, more: Took)
    requires pos <= |input| && ListLoop(input, pos, out).Good? && |out| <= CAPACITY
    ensures |out| < CAPACITY && ValidDraft(d) && !HasDestination(out, d.destination)
    ensures pos < more.next <= |input|
    ensures more.ok ==> ListLoop(input, pos, out) == ListLoop(input, more.next, out + [d])
    ensures !more.ok ==> ListLoop(input, pos, out).value == out + [d]
  {
    hide ContactObject, Take, ValidDraft, HasDestination;
    var c := ContactObject(input, pos);
    d := c.value;
    more := Take(input, c.next, COMMA);
  }

  lemma AppendIsValid(out: seq<Draft>, d: Draft)
    requires Writable(out) && UniqueDrafts(out) && ValidDraft(d) && !HasDestination(out, d.destination)
    ensures Writable(out + [d]) && UniqueDrafts(out + [d])
  {
    hide ValidDraft;
  }

  lemma {:induction false} ListIsValid(input: Bytes, pos: nat, out: seq<Draft>)
    requires pos <= |input| && ListLoop(input, pos, out).Good?
    requires Writable(out) && UniqueDrafts(out) && |out| <= CAPACITY
    ensures var r := ListLoop(input, pos, out).value;
            Writable(r) && UniqueDrafts(r) && |r| <= CAPACITY
    decreases |input| - pos
  {
    hide *;
    var d, more := ListLoopStep(input, pos, out);
    AppendIsValid(out, d);
    if more.ok {
      ListIsValid(input, more.next, out + [d]);
    }
  }

  lemma {:induction false} DocumentIsValid(input: Bytes, pos: nat, d: Document)
    requires pos <= |input| && DocumentLoop(input, pos, d).Some?
    requires Writable(d.out) && UniqueDrafts(d.out) && |d.out| <= CAPACITY && (!d.listed ==> d.out == [])
    ensures var r := DocumentLoop(input, pos, d).value;
            Writable(r) && UniqueDrafts(r) && |r| <= CAPACITY
    decreases |input| - pos
  {
    var m := Member(input, pos, d);
    MemberIsValid(input, pos, d);
    var more := Take(input, m.next, COMMA);
    if more.ok {
      hide Writable, UniqueDrafts, Take, Member;
      DocumentIsValid(input, more.next, m.value);
    }
  }

  lemma {:induction false} MemberIsValid(input: Bytes, pos: nat, d: Document)
    requires pos <= |input| && Member(input, pos, d).Good?
    requires Writable(d.out) && UniqueDrafts(d.out) && |d.out| <= CAPACITY && (!d.listed ==> d.out == [])
    ensures var e := Member(input, pos, d).value;
            Writable(e.out) && UniqueDrafts(e.out) && |e.out| <= CAPACITY && (!e.listed ==> e.out == [])
  {
    hide Text, Take, ListLoop, Literal, Writable, UniqueDrafts;
    var key := Text(input, pos, 8, true);
    var colon := Take(input, key.next, COLON_SIGN);
    if key.value == CONTACTS_KEY && !d.listed {
      ContactListIsValid(input, colon.next);
    }
  }

  lemma {:induction false} ContactListIsValid(input: Bytes, pos: nat)
    requires pos <= |input| && ContactList(input, pos, []).Good?
    ensures var r := ContactList(input, pos, []).value;
            Writable(r) && UniqueDrafts(r) && |r| <= CAPACITY
  {
    hide ListLoop, Take, ValidDraft;
    var open := Take(input, pos, OPEN_BRACKET);
    var empty := Take(input, open.next, CLOSE_BRACKET);
    if !empty.ok {
      ListIsValid(input, empty.next, []);
    }
  }

  // Whatever bytes are restored, the result is a list a book can hold.
  lemma {:induction false} RestoredIsValid(bytes: Bytes)
    requires Restore(bytes).Some?
    ensures var r := Restore(bytes).value; Writable(r) && UniqueDrafts(r) && |r| <= CAPACITY
  {
    hide DocumentLoop;
    var open := Take(bytes, 0, OPEN_BRACE);
    DocumentIsValid(bytes, open.next, Document(false, false, []));
  }

  // Writing out what was restored is a fixed point: the canonical backup is
  // within the limit and restores the same contacts, however the original
  // bytes were spaced, ordered or escaped.
  lemma {:induction false} RestoreIsCanonical(bytes: Bytes)
    requires Restore(bytes).Some?
    ensures var r := Restore(bytes).value;
            Writable(r) && |BackupText(r)| <= BACKUP_LIMIT && Restore(BackupText(r)) == Some(r)
  {
    RestoredIsValid(bytes);
    BackupFits(Restore(bytes).value);
    DocumentRoundTrip(Restore(bytes).value);
  }

  // --- Loading a saved book --------------------------------------------------

  // Adding the drafts one by one; any refusal fails the load.
  function AddAll(b: Book, drafts: seq<Draft>): Option<Book>
    decreases |drafts|
  {
    if drafts == [] then Some(b)
    else
      var (next, r) := Add(b, drafts[0]);
      if r != Done then None else AddAll(next, drafts[1..])
  }

  function Load(bytes: Bytes): Option<Book> {
    match Restore(bytes)
    case None => None
    case Some(drafts) => AddAll(EMPTY, drafts)
  }

  lemma FreshIsAdded(b: Book, d: Draft)
    requires ValidDraft(d) && |b.items| < CAPACITY && b.nextId != 0
    requires forall i :: 0 <= i < |b.items| ==> b.items[i].destination != d.destination
    ensures var c := Contact(b.nextId, d.name, d.destination, d.favorite);
            Add(b, d) == (Book(b.items + [c], Next64(b.nextId)), Done) && c.ToDraft() == d
  {
    hide ValidDraft;
  }

  lemma DraftsAppend(items: seq<Contact>, c: Contact)
    ensures Drafts(items + [c]) == Drafts(items) + [c.ToDraft()]
  {
  }

  lemma {:induction false} AddAppends(b: Book, drafts: seq<Draft>)
    requires drafts != [] && Writable(drafts) && UniqueDrafts(Drafts(b.items) + drafts)
    requires |b.items| + |drafts| <= CAPACITY && b.nextId != 0
    ensures Add(b, drafts[0]).1 == Done
    ensures Add(b, drafts[0]).0.nextId == Next64(b.nextId)
    ensures Drafts(Add(b, drafts[0]).0.items) + drafts[1..] == Drafts(b.items) + drafts
  {
    NotYetListed(Drafts(b.items), drafts);
    RestIsWritable(drafts);
    forall i | 0 <= i < |b.items| ensures b.items[i].destination != drafts[0].destination {
      assert Drafts(b.items)[i].destination == b.items[i].destination;
    }
    hide Writable, UniqueDrafts, Add, ValidDraft;
    FreshIsAdded(b, drafts[0]);
    DraftsAppend(b.items, Contact(b.nextId, drafts[0].name, drafts[0].destination, drafts[0].favorite));
  }

  lemma {:induction false} AddAllAppends(b: Book, drafts: seq<Draft>)
    requires Writable(drafts) && UniqueDrafts(Drafts(b.items) + drafts)
    requires |b.items| + |drafts| <= CAPACITY && 0 < b.nextId && b.nextId as int + |drafts| <= MAX64
    ensures AddAll(b, drafts).Some? && Drafts(AddAll(b, drafts).value.items) == Drafts(b.items) + drafts
    decreases |drafts|
  {
    if drafts == [] {
      assert Drafts(b.items) + [] == Drafts(b.items);
    } else {
      AddAppends(b, drafts);
      RestIsWritable(drafts);
      hide Writable, UniqueDrafts, Add;
      AddAllAppends(Add(b, drafts[0]).0, drafts[1..]);
    }
  }

  // Any bytes that can be restored load into a book with those contacts: the
  // load's own refusals are never reached.
  lemma RestoredBytesLoad(bytes: Bytes)
    requires Restore(bytes).Some?
    ensures Load(bytes).Some? && Drafts(Load(bytes).value.items) == Restore(bytes).value
  {
    RestoredIsValid(bytes);
    var drafts := Restore(bytes).value;
    hide Restore, Writable, UniqueDrafts, AddAll;
    assert Drafts(EMPTY.items) + drafts == drafts;
    AddAllAppends(EMPTY, drafts);
  }

  // Save, then load: for every reachable book the loaded one holds the same
  // contacts in the same order.
  lemma {:induction false} SavedBooksLoad(ops: seq<BookOp>)
    ensures var items := Run(EMPTY, ops).items;
            && Backup(items).Some?
            && Load(Backup(items).value).Some?
            && Drafts(Load(Backup(items).value).value.items) == Drafts(items)
  {
    hide Backup, Restore, Load, Run;
    ReachableBooksRoundTrip(ops);
    RestoredBytesLoad(Backup(Run(EMPTY, ops).items).value);
  }
}
