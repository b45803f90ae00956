// The parser of contact backups reads exactly the texts of the grammar: what a
// tree prints is read as what the tree means, and whatever is read was printed
// by a tree.
module BackupReading {
  import opened Common
  import opened Utf8
  import opened ContactBook
  import opened BackupParser
  import opened ContactBackup
  import opened BackupGrammar

  // --- Tokens, both ways -----------------------------------------------------

  lemma {:induction false} SpaceEnds(input: Bytes, pos: nat, space: Bytes)
    requires AllSpace(space) && At(input, pos, space)
    requires pos + |space| == |input| || !IsSpaceByte(input[pos + |space|])
    ensures SkipSpace(input, pos) == pos + |space|
    decreases |space|
  {
    if space != [] {
      AtIndex(input, pos, space, 0);
      assert space == [space[0]] + space[1..];
      AtConcat(input, pos, [space[0]], space[1..]);
      SpaceEnds(input, pos + 1, space[1..]);
    }
  }

  lemma {:induction false} SkippedIsSpace(input: Bytes, pos: nat)
    requires pos <= |input|
    ensures forall i :: pos <= i < SkipSpace(input, pos) ==> IsSpaceByte(input[i])
    ensures SkipSpace(input, SkipSpace(input, pos)) == SkipSpace(input, pos)
    decreases |input| - pos
  {
    if pos < |input| && IsSpaceByte(input[pos]) {
      SkippedIsSpace(input, pos + 1);
    }
  }

  lemma SpaceIsSkipped(input: Bytes, pos: nat) returns (space: Bytes)
    requires pos <= |input|
    ensures AllSpace(space) && At(input, pos, space) && SkipSpace(input, pos) == pos + |space|
  {
    SkippedIsSpace(input, pos);
    space := input[pos..SkipSpace(input, pos)];
  }

  lemma {:induction false} TokenIsTaken(input: Bytes, pos: nat, space: Bytes, c: Byte, c': Byte)
    requires AllSpace(space) && !IsSpaceByte(c) && At(input, pos, space + [c])
    ensures pos + |space| < |input| && SkipSpace(input, pos) == pos + |space|
    ensures Take(input, pos, c) == Took(true, pos + |space| + 1)
    ensures c != c' ==> Take(input, pos, c') == Took(false, pos + |space|)
    ensures Take(input, pos + |space|, c) == Took(true, pos + |space| + 1)
  {
    AtConcat(input, pos, space, [c]);
    AtIndex(input, pos + |space|, [c], 0);
    SpaceEnds(input, pos, space);
  }

  lemma TakenIsToken(input: Bytes, pos: nat, c: Byte) returns (space: Bytes)
    requires pos <= |input| && Take(input, pos, c).ok
    ensures AllSpace(space) && At(input, pos, space + [c]) && Take(input, pos, c).next == pos + |space| + 1
  {
    space := SpaceIsSkipped(input, pos);
    AtConcat(input, pos, space, [c]);
  }

  // A token that was not there costs only the space before it.
  lemma TakeAgain(input: Bytes, pos: nat, c: Byte, c': Byte)
    requires pos <= |input| && !Take(input, pos, c).ok
    ensures Take(input, Take(input, pos, c).next, c') == Take(input, pos, c')
  {
    SkippedIsSpace(input, pos);
  }

  lemma AtFits(input: Bytes, pos: nat, piece: Bytes)
    requires At(input, pos, piece)
    ensures pos + |piece| <= |input|
  {
  }

  // --- Strings, both ways ----------------------------------------------------

  lemma HexIsRead(input: Bytes, pos: nat, hex: Bytes)
    requires HexDigits(hex) && At(input, pos, hex)
    ensures Hex4(input, pos) == Good(HexNumber(hex), pos + 4)
  {
    forall i | 0 <= i < 4 ensures input[pos + i] == hex[i] { AtIndex(input, pos, hex, i); }
    assert HexRun(input, pos + 4, 0, HexNumber(hex)) == Good(HexNumber(hex), pos + 4);
  }

  lemma ReadIsHex(input: Bytes, pos: nat) returns (hex: Bytes)
    requires pos <= |input| && Hex4(input, pos).Good?
    ensures HexDigits(hex) && At(input, pos, hex) && Hex4(input, pos) == Good(HexNumber(hex), pos + 4)
  {
    hex := input[pos..pos + 4];
    HexIsRead(input, pos, hex);
  }

  lemma {:induction false} CharIsRead(input: Bytes, pos: nat, c: Char)
    requires CharOk(c) && At(input, pos, CharText(c))
    ensures pos < |input| && input[pos] != QUOTE
    ensures Element(input, pos) == Good(CharPoint(c), pos + |CharText(c)|)
  {
    hide Hex4, HexNumber, HexDigits, Encode, Decode, At;
    match c
    case Itself(cp) => ElementRoundTrip(input, pos, cp);
    case Escaped1(b) =>
      AtIndex(input, pos, CharText(c), 0);
      AtIndex(input, pos, CharText(c), 1);
      AtFits(input, pos, CharText(c));
    case Numbered4(hex) => NumberIsRead(input, pos, hex);
    case NumberedPair(high, low) => PairIsRead(input, pos, high, low);
  }

  lemma {:induction false} PairIsRead(input: Bytes, pos: nat, high: Bytes, low: Bytes)
    requires CharOk(NumberedPair(high, low)) && At(input, pos, CharText(NumberedPair(high, low)))
    ensures pos < |input| && input[pos] == BACKSLASH
    ensures Element(input, pos) == Good(CharPoint(NumberedPair(high, low)), pos + |CharText(NumberedPair(high, low))|)
  {
    hide Hex4, HexNumber, HexDigits, At, Decode;
    AtConcat(input, pos, UNICODE_ESCAPE + high, UNICODE_ESCAPE + low);
    NumberIsRead(input, pos, high);
    NumberIsRead(input, pos + 6, low);
    AtConcat(input, pos + 6, UNICODE_ESCAPE, low);
  }

  lemma NumberIsRead(input: Bytes, pos: nat, hex: Bytes)
    requires HexDigits(hex) && At(input, pos, UNICODE_ESCAPE + hex)
    ensures |hex| == 4 && pos + 6 <= |input| && input[pos] == BACKSLASH && input[pos + 1] == LETTER_U
    ensures Hex4(input, pos + 2) == Good(HexNumber(hex), pos + 6)
  {
    AtConcat(input, pos, UNICODE_ESCAPE, hex);
    AtIndex(input, pos, UNICODE_ESCAPE, 0);
    AtIndex(input, pos, UNICODE_ESCAPE, 1);
    HexIsRead(input, pos + 2, hex);
  }

  lemma ReadIsNumber(input: Bytes, pos: nat) returns (hex: Bytes)
    requires pos + 2 <= |input| && input[pos] == BACKSLASH && input[pos + 1] == LETTER_U
    requires Hex4(input, pos + 2).Good?
    ensures HexDigits(hex) && At(input, pos, UNICODE_ESCAPE + hex)
    ensures Hex4(input, pos + 2) == Good(HexNumber(hex), pos + 6)
  {
    hex := ReadIsHex(input, pos + 2);
    assert input[pos..pos + 2] == UNICODE_ESCAPE;
    AtConcat(input, pos, UNICODE_ESCAPE, hex);
  }

  lemma {:induction false} ReadIsChar(input: Bytes, pos: nat) returns (c: Char)
    requires pos < |input| && input[pos] != QUOTE && Element(input, pos).Good?
    ensures CharOk(c) && At(input, pos, CharText(c))
  {
    hide Hex4, HexNumber, HexDigits, Decode, Encode;
    if input[pos] != BACKSLASH {
      DecodeIsRfc3629(input, pos);
      var r := Decode(input, pos);
      c := Itself(r.value);
      PlainIsItself(input, pos, r.value);
    } else if input[pos + 1] != LETTER_U {
      c := Escaped1(input[pos + 1]);
      assert input[pos..pos + 2] == CharText(c);
    } else {
      var hex := ReadIsNumber(input, pos);
      c := Numbered4(hex);
      if IsHigh(HexNumber(hex)) {
        AtIndex(input, pos + 6, [BACKSLASH, LETTER_U], 0);
        AtIndex(input, pos + 6, [BACKSLASH, LETTER_U], 1);
        var low := ReadIsNumber(input, pos + 6);
        c := NumberedPair(hex, low);
        AtConcat(input, pos, UNICODE_ESCAPE + hex, UNICODE_ESCAPE + low);
      }
    }
  }

  // A first byte that is neither quote nor backslash encodes neither.
  lemma PlainIsItself(input: Bytes, pos: nat, cp: nat)
    requires pos < |input| && input[pos] != QUOTE && input[pos] != BACKSLASH
    requires cp <= 0x10FFFF && At(input, pos, Encode(cp))
    ensures cp != QUOTE as int && cp != BACKSLASH as int
  {
    AtIndex(input, pos, Encode(cp), 0);
  }

  lemma CharsStep(chars: seq<Char>, ascii: bool)
    requires CharsOk(chars, ascii) && chars != []
    ensures CharOk(chars[0]) && Permitted(CharPoint(chars[0]), ascii) && CharsOk(chars[1..], ascii)
    ensures CharsText(chars, ascii) + [QUOTE] == CharText(chars[0]) + (CharsText(chars[1..], ascii) + [QUOTE])
    ensures CharsUnits(chars, ascii) == Units(CharPoint(chars[0])) + CharsUnits(chars[1..], ascii)
  {
    hide CharOk, CharText, CharPoint, Units, Permitted;
  }

  lemma {:induction false} CharsAreRead(input: Bytes, pos: nat, chars: seq<Char>, read: nat, limit: nat, ascii: bool)
    requires CharsOk(chars, ascii) && read + |CharsUnits(chars, ascii)| <= limit
    requires At(input, pos, CharsText(chars, ascii) + [QUOTE])
    ensures StringBody(input, pos, read, limit, ascii)
         == Good(CharsUnits(chars, ascii), pos + |CharsText(chars, ascii)| + 1)
    decreases |chars|
  {
    hide CharOk, CharText, CharPoint, Units, Permitted, StringBody, Element;
    if chars == [] {
      assert CharsText(chars, ascii) + [QUOTE] == [QUOTE];
      StringEnd(input, pos, read, limit, ascii);
    } else {
      var c, rest := chars[0], chars[1..];
      CharsStep(chars, ascii);
      AtConcat(input, pos, CharText(c), CharsText(rest, ascii) + [QUOTE]);
      CharIsRead(input, pos, c);
      var next := pos + |CharText(c)|;
      var units := Units(CharPoint(c));
      CharsAreRead(input, next, rest, read + |units|, limit, ascii);
      StringStep(input, pos, CharPoint(c), next, read, limit, ascii,
                 Good(CharsUnits(rest, ascii), next + |CharsText(rest, ascii)| + 1));
    }
  }

  lemma CharsCons(c: Char, rest: seq<Char>, ascii: bool)
    requires CharOk(c) && Permitted(CharPoint(c), ascii) && CharsOk(rest, ascii)
    ensures CharsOk([c] + rest, ascii)
    ensures CharsText([c] + rest, ascii) + [QUOTE] == CharText(c) + (CharsText(rest, ascii) + [QUOTE])
    ensures |CharsUnits([c] + rest, ascii)| == |Units(CharPoint(c))| + |CharsUnits(rest, ascii)|
  {
    hide CharOk, CharText, CharPoint, Units, Permitted;
    assert ([c] + rest)[1..] == rest;
  }

  lemma {:induction false} ReadAreChars(input: Bytes, pos: nat, read: nat, limit: nat, ascii: bool) returns (chars: seq<Char>)
    requires pos <= |input| && read <= limit && StringBody(input, pos, read, limit, ascii).Good?
    ensures CharsOk(chars, ascii) && read + |CharsUnits(chars, ascii)| <= limit
    ensures At(input, pos, CharsText(chars, ascii) + [QUOTE])
    decreases |input| - pos
  {
    hide CharOk, CharText, CharPoint, Units, Permitted, Element;
    if input[pos] == QUOTE {
      chars := [];
      assert CharsText(chars, ascii) + [QUOTE] == [QUOTE];
      assert input[pos..pos + 1] == [QUOTE];
    } else {
      var c := ReadIsChar(input, pos);
      CharIsRead(input, pos, c);
      var next := pos + |CharText(c)|;
      var rest := ReadAreChars(input, next, read + |Units(CharPoint(c))|, limit, ascii);
      CharsCons(c, rest, ascii);
      chars := [c] + rest;
      AtConcat(input, pos, CharText(c), CharsText(rest, ascii) + [QUOTE]);
    }
  }

  lemma {:induction false} StrIsRead(input: Bytes, pos: nat, s: Str, limit: nat, ascii: bool)
    requires StrOk(s, limit, ascii) && At(input, pos, StrText(s, ascii))
    ensures Text(input, pos, limit, ascii) == Good(CharsUnits(s.chars, ascii), pos + |StrText(s, ascii)|)
  {
    hide CharsText, CharsUnits, CharsOk, StringBody, Take, At, AllSpace;
    var body := CharsText(s.chars, ascii) + [QUOTE];
    assert StrText(s, ascii) == (s.space + [QUOTE]) + body;
    AtConcat(input, pos, s.space + [QUOTE], body);
    TokenIsTaken(input, pos, s.space, QUOTE, QUOTE);
    CharsAreRead(input, pos + |s.space| + 1, s.chars, 0, limit, ascii);
  }

  lemma {:induction false} ReadIsStr(input: Bytes, pos: nat, limit: nat, ascii: bool) returns (s: Str)
    requires pos <= |input| && Text(input, pos, limit, ascii).Good?
    ensures StrOk(s, limit, ascii) && At(input, pos, StrText(s, ascii))
    ensures Text(input, pos, limit, ascii) == Good(CharsUnits(s.chars, ascii), pos + |StrText(s, ascii)|)
  {
    hide CharsText, CharsUnits, CharsOk, StringBody, Take, At, AllSpace;
    var space := TakenIsToken(input, pos, QUOTE);
    var chars := ReadAreChars(input, pos + |space| + 1, 0, limit, ascii);
    s := Str(space, chars);
    var body := CharsText(chars, ascii) + [QUOTE];
    assert StrText(s, ascii) == (space + [QUOTE]) + body;
    AtConcat(input, pos, space + [QUOTE], body);
    StrIsRead(input, pos, s, limit, ascii);
  }

  // --- Members of a contact, both ways ---------------------------------------

  // The position where a member's value starts.
  lemma {:induction false} KeyIsRead(input: Bytes, pos: nat, key: Str, limit: nat, colon: Bytes, value: Bytes) returns (start: nat)
    requires StrOk(key, limit, true) && AllSpace(colon)
    requires At(input, pos, StrText(key, true) + ((colon + [COLON_SIGN]) + value))
    ensures pos <= start <= |input| && At(input, start, value)
    ensures start + |value| == pos + |StrText(key, true) + ((colon + [COLON_SIGN]) + value)|
    ensures Text(input, pos, limit, true).Good? && Text(input, pos, limit, true).value == CharsUnits(key.chars, true)
    ensures Take(input, Text(input, pos, limit, true).next, COLON_SIGN) == Took(true, start)
  {
    hide AllSpace, StrText, CharsUnits, CharsOk, Text, Take, At;
    var text := StrText(key, true);
    AtConcat(input, pos, text, (colon + [COLON_SIGN]) + value);
    AtConcat(input, pos + |text|, colon + [COLON_SIGN], value);
    StrIsRead(input, pos, key, limit, true);
    TokenIsTaken(input, pos + |text|, colon, COLON_SIGN, COLON_SIGN);
    start := pos + |text| + |colon| + 1;
    AtFits(input, start, value);
  }

  lemma {:induction false} ReadIsKey(input: Bytes, pos: nat, limit: nat) returns (key: Str, colon: Bytes)
    requires pos <= |input| && Text(input, pos, limit, true).Good?
    requires Take(input, Text(input, pos, limit, true).next, COLON_SIGN).ok
    ensures StrOk(key, limit, true) && AllSpace(colon)
    ensures Text(input, pos, limit, true).value == CharsUnits(key.chars, true)
    ensures forall value :: At(input, Take(input, Text(input, pos, limit, true).next, COLON_SIGN).next, value) ==>
              At(input, pos, StrText(key, true) + ((colon + [COLON_SIGN]) + value))
  {
    hide AllSpace, StrText, CharsUnits, CharsOk, Text, Take, At;
    key := ReadIsStr(input, pos, limit, true);
    var text := StrText(key, true);
    colon := TakenIsToken(input, pos + |text|, COLON_SIGN);
    forall value | At(input, pos + |text| + |colon| + 1, value)
      ensures At(input, pos, text + ((colon + [COLON_SIGN]) + value))
    {
      AtConcat(input, pos, text, (colon + [COLON_SIGN]) + value);
      AtConcat(input, pos + |text|, colon + [COLON_SIGN], value);
    }
  }

  lemma FlagIsRead(input: Bytes, pos: nat, space: Bytes, flag: bool)
    requires AllSpace(space) && At(input, pos, space + FlagWord(flag))
    ensures Flag(input, pos) == Good(flag, pos + |space + FlagWord(flag)|)
  {
    FlagIsAWord(flag);
    hide FlagWord, Flag, At, IsSpaceByte, SkipSpace, AllSpace;
    AtConcat(input, pos, space, FlagWord(flag));
    AtFits(input, pos + |space|, FlagWord(flag));
    AtIndex(input, pos + |space|, FlagWord(flag), 0);
    SpaceEnds(input, pos, space);
    FlagRoundTrip(input, pos + |space|, flag);
    FlagAfterSpace(input, pos);
  }

  lemma FlagIsAWord(flag: bool)
    ensures FlagWord(flag) != [] && !IsSpaceByte(FlagWord(flag)[0])
  {
  }

  lemma FlagAfterSpace(input: Bytes, pos: nat)
    requires pos <= |input|
    ensures Flag(input, SkipSpace(input, pos)) == Flag(input, pos)
  {
    SkippedIsSpace(input, pos);
  }

  lemma ReadIsFlag(input: Bytes, pos: nat) returns (space: Bytes)
    requires pos <= |input| && Flag(input, pos).Good?
    ensures AllSpace(space) && At(input, pos, space + FlagWord(Flag(input, pos).value))
  {
    space := SpaceIsSkipped(input, pos);
    SkippedIsSpace(input, pos);
    AtConcat(input, pos, space, FlagWord(Flag(input, pos).value));
  }

  predicate FieldIsNew(f: FieldTree, p: Partial) {
    match f
    case NameTree(_, _, _) => !p.fields.name
    case DestinationTree(_, _, _) => !p.fields.destination
    case FavoriteTree(_, _, _, _) => !p.fields.favorite
  }

  // A contact with one more member read.
  function WithField(f: FieldTree, p: Partial): Partial
    requires FieldOk(f)
  {
    match f
    case NameTree(_, _, text) => Partial(p.fields.(name := true), p.draft.(name := CharsUnits(text.chars, false)))
    case DestinationTree(_, _, text) =>
      Partial(p.fields.(destination := true), p.draft.(destination := CharsUnits(text.chars, true)))
    case FavoriteTree(_, _, _, flag) => Partial(p.fields.(favorite := true), p.draft.(favorite := flag))
  }

  lemma {:induction false} KindIsKey(f: FieldTree)
    requires FieldOk(f)
    ensures StrOk(f.key, 11, true) && KeyOf(CharsUnits(f.key.chars, true)) == KindOf(f)
  {
    hide CharsUnits, CharsOk, AllSpace;
    KeysAreDistinct();
  }

  lemma {:induction false} ValueIsRead(input: Bytes, pos: nat, f: FieldTree, p: Partial)
    requires FieldOk(f) && FieldIsNew(f, p) && At(input, pos, ValueText(f)) && pos <= |input|
    ensures FieldValue(input, pos, KindOf(f), p) == Good(WithField(f, p), pos + |ValueText(f)|)
  {
    hide CharsUnits, CharsOk, AllSpace, At, Text, Flag, StrText, FlagWord, StrOk;
    match f
    case NameTree(_, _, text) => StrIsRead(input, pos, text, 64, false);
    case DestinationTree(_, _, text) => StrIsRead(input, pos, text, 128, true);
    case FavoriteTree(_, _, space, flag) => FlagIsRead(input, pos, space, flag);
  }

  lemma {:induction false} FieldIsRead(input: Bytes, pos: nat, f: FieldTree, p: Partial)
    requires FieldOk(f) && FieldIsNew(f, p) && At(input, pos, FieldText(f))
    ensures Field(input, pos, p) == Good(WithField(f, p), pos + |FieldText(f)|)
  {
    KindIsKey(f);
    hide CharsUnits, CharsOk, AllSpace, At, Text, Take, StrText, StrOk, FieldValue, ValueText, WithField, KeyOf;
    var start := KeyIsRead(input, pos, f.key, 11, f.colon, ValueText(f));
    ValueIsRead(input, start, f, p);
  }

  lemma {:induction false} ReadIsValue(input: Bytes, pos: nat, kind: ContactKey, p: Partial, key: Str, colon: Bytes) returns (f: FieldTree)
    requires pos <= |input| && FieldValue(input, pos, kind, p).Good?
    requires StrOk(key, 11, true) && KeyOf(CharsUnits(key.chars, true)) == kind && AllSpace(colon)
    ensures f.key == key && f.colon == colon
    ensures FieldOk(f) && FieldIsNew(f, p) && At(input, pos, ValueText(f))
  {
    hide CharsUnits, CharsOk, AllSpace, At, Text, Flag, StrText, FlagWord, StrOk;
    match kind
    case NameMember =>
      var text := ReadIsStr(input, pos, 64, false);
      f := NameTree(key, colon, text);
    case DestinationMember =>
      var text := ReadIsStr(input, pos, 128, true);
      f := DestinationTree(key, colon, text);
    case FavoriteMember =>
      var space := ReadIsFlag(input, pos);
      f := FavoriteTree(key, colon, space, Flag(input, pos).value);
  }

  lemma {:induction false} ReadIsField(input: Bytes, pos: nat, p: Partial) returns (f: FieldTree)
    requires pos <= |input| && Field(input, pos, p).Good?
    ensures FieldOk(f) && FieldIsNew(f, p) && At(input, pos, FieldText(f))
    ensures Field(input, pos, p) == Good(WithField(f, p), pos + |FieldText(f)|)
  {
    hide CharsUnits, CharsOk, AllSpace, At, Text, Take, StrText, StrOk, FieldValue, ValueText, WithField, KeyOf, FieldOk;
    var key, colon := ReadIsKey(input, pos, 11);
    var start := Take(input, Text(input, pos, 11, true).next, COLON_SIGN).next;
    f := ReadIsValue(input, start, KeyOf(Text(input, pos, 11, true).value), p, key, colon);
    FieldIsRead(input, pos, f, p);
  }

  // --- Contacts, both ways ---------------------------------------------------

  // What follows an item: more behind a comma, or the end.
  lemma {:induction false} CommaIsRead(input: Bytes, pos: nat, text: Bytes, comma: Bytes, rest: Bytes)
    requires AllSpace(comma) && At(input, pos, text + ((comma + [COMMA]) + rest))
    ensures At(input, pos, text) && pos + |text| <= |input|
    ensures Take(input, pos + |text|, COMMA) == Took(true, pos + |text| + |comma| + 1)
    ensures At(input, pos + |text| + |comma| + 1, rest)
  {
    AtConcat(input, pos, text, (comma + [COMMA]) + rest);
    AtConcat(input, pos + |text|, comma + [COMMA], rest);
    TokenIsTaken(input, pos + |text|, comma, COMMA, COMMA);
  }

  lemma {:induction false} EndIsRead(input: Bytes, pos: nat, text: Bytes, close: Bytes, c: Byte)
    requires AllSpace(close) && At(input, pos, text + (close + [c])) && !IsSpaceByte(c) && c != COMMA
    ensures At(input, pos, text) && pos + |text| <= |input| && !Take(input, pos + |text|, COMMA).ok
    ensures Take(input, Take(input, pos + |text|, COMMA).next, c) == Took(true, pos + |text + (close + [c])|)
  {
    AtConcat(input, pos, text, close + [c]);
    TokenIsTaken(input, pos + |text|, close, c, COMMA);
  }

  lemma {:induction false} ReadIsComma(input: Bytes, pos: nat, text: Bytes) returns (comma: Bytes)
    requires At(input, pos, text) && pos + |text| <= |input| && Take(input, pos + |text|, COMMA).ok
    ensures AllSpace(comma) && Take(input, pos + |text|, COMMA).next == pos + |text| + |comma| + 1
    ensures forall rest :: At(input, Take(input, pos + |text|, COMMA).next, rest) ==>
              At(input, pos, text + ((comma + [COMMA]) + rest))
  {
    hide At, AllSpace, Take;
    comma := TakenIsToken(input, pos + |text|, COMMA);
    forall rest | At(input, Take(input, pos + |text|, COMMA).next, rest)
      ensures At(input, pos, text + ((comma + [COMMA]) + rest))
    {
      AtConcat(input, pos, text, (comma + [COMMA]) + rest);
      AtConcat(input, pos + |text|, comma + [COMMA], rest);
    }
  }

  lemma {:induction false} ReadIsEnd(input: Bytes, pos: nat, text: Bytes, c: Byte) returns (close: Bytes)
    requires At(input, pos, text) && pos + |text| <= |input| && !Take(input, pos + |text|, COMMA).ok
    requires Take(input, Take(input, pos + |text|, COMMA).next, c).ok
    ensures AllSpace(close) && At(input, pos, text + (close + [c]))
  {
    hide At, AllSpace, Take;
    TakeAgain(input, pos + |text|, COMMA, c);
    close := TakenIsToken(input, pos + |text|, c);
    AtConcat(input, pos, text, close + [c]);
  }

  const EMPTY_CONTACT := Partial(NO_FIELDS, NO_DRAFT)

  lemma {:induction false} NextField(input: Bytes, pos: nat, p: Partial, q: Partial, next: nat)
    requires pos <= |input| && Field(input, pos, p) == Good(q, next) && next <= |input|
    ensures var more := Take(input, next, COMMA);
            && (more.ok ==> ContactLoop(input, pos, p) == ContactLoop(input, more.next, q))
            && (!more.ok ==> ContactLoop(input, pos, p) == Closed(input, more.next, q))
  {
    hide Field, Take, ValidDraft;
  }

  lemma {:induction false} BadField(input: Bytes, pos: nat, p: Partial)
    requires pos <= |input| && ContactLoop(input, pos, p).Good?
    ensures Field(input, pos, p).Good?
  {
    hide Field;
  }

  // Nothing comes after all three members.
  lemma {:induction false} NoFourthField(input: Bytes, pos: nat, p: Partial)
    requires pos <= |input| && p.fields.All()
    ensures ContactLoop(input, pos, p) == Bad
  {
    hide Text, Take, Flag;
    assert Field(input, pos, p).Bad?;
  }

  // Reading three members in turn reads each once exactly when their keys differ.
  lemma {:induction false} ThreeMembers(a: FieldTree, b: FieldTree, c: FieldTree)
    requires FieldOk(a) && FieldOk(b) && FieldOk(c)
    ensures var p := WithField(a, EMPTY_CONTACT);
            var q := WithField(b, p);
            && FieldIsNew(a, EMPTY_CONTACT) && !p.fields.All() && !q.fields.All()
            && (FieldIsNew(b, p) && FieldIsNew(c, q) <==> ContactTree([], a, [], b, [], c, []).Kinds())
            && (FieldIsNew(b, p) && FieldIsNew(c, q) ==> WithField(c, q).fields.All())
  {
    hide FieldOk, CharsUnits;
  }

  lemma {:induction false} ThreeMembersMean(t: ContactTree)
    requires ContactShape(t)
    ensures WithField(t.c, WithField(t.b, WithField(t.a, EMPTY_CONTACT))).draft == ContactMeans(t)
  {
    hide CharsUnits, AllSpace, CharsOk, StrOk;
  }

  lemma {:induction false} MemberAndComma(input: Bytes, pos: nat, f: FieldTree, comma: Bytes, rest: Bytes, p: Partial) returns (next: nat, q: Partial)
    requires FieldOk(f) && AllSpace(comma) && FieldIsNew(f, p)
    requires At(input, pos, FieldText(f) + ((comma + [COMMA]) + rest))
    ensures q == WithField(f, p) && next == pos + |FieldText(f)| + |comma| + 1
    ensures next <= |input| && At(input, next, rest) && ContactLoop(input, pos, p) == ContactLoop(input, next, q)
  {
    hide At, Take, AllSpace, ContactLoop, Field, FieldText, FieldOk, FieldIsNew, WithField, Closed, ValidDraft, COMMA;
    var text := FieldText(f);
    q, next := WithField(f, p), pos + |text| + |comma| + 1;
    CommaIsRead(input, pos, text, comma, rest);
    FieldIsRead(input, pos, f, p);
    NextField(input, pos, p, q, pos + |text|);
    AtFits(input, next, rest);
  }

  lemma {:induction false} LastIsRead(input: Bytes, pos: nat, f: FieldTree, close: Bytes, p: Partial)
    requires FieldOk(f) && AllSpace(close) && FieldIsNew(f, p)
    requires WithField(f, p).fields.All() && ValidDraft(WithField(f, p).draft)
    requires At(input, pos, FieldText(f) + (close + [CLOSE_BRACE]))
    ensures ContactLoop(input, pos, p) == Good(WithField(f, p).draft, pos + |FieldText(f) + (close + [CLOSE_BRACE])|)
  {
    hide At, Take, AllSpace, ContactLoop, Field, FieldText, FieldOk, FieldIsNew, WithField, ValidDraft;
    EndIsRead(input, pos, FieldText(f), close, CLOSE_BRACE);
    FieldIsRead(input, pos, f, p);
    NextField(input, pos, p, WithField(f, p), pos + |FieldText(f)|);
  }

  lemma {:induction false} MembersAreRead(input: Bytes, pos: nat, t: ContactTree)
    requires ContactOk(t) && At(input, pos, MembersText(t))
    ensures ContactLoop(input, pos, EMPTY_CONTACT) == Good(ContactMeans(t), pos + |MembersText(t)|)
  {
    ThreeMembers(t.a, t.b, t.c);
    ThreeMembersMean(t);
    hide At, Take, AllSpace, ContactLoop, Field, FieldText, FieldOk, FieldIsNew, WithField, ValidDraft, ContactMeans;
    var third := FieldText(t.c) + (t.close + [CLOSE_BRACE]);
    var p1, q1 := MemberAndComma(input, pos, t.a, t.comma1, FieldText(t.b) + ((t.comma2 + [COMMA]) + third), EMPTY_CONTACT);
    var p2, q2 := MemberAndComma(input, p1, t.b, t.comma2, third, q1);
    LastIsRead(input, p2, t.c, t.close, q2);
  }

  lemma {:induction false} ContactIsRead(input: Bytes, pos: nat, t: ContactTree)
    requires ContactOk(t) && At(input, pos, ContactPrint(t))
    ensures ContactObject(input, pos) == Good(ContactMeans(t), pos + |ContactPrint(t)|)
  {
    hide At, Take, AllSpace, ContactLoop, MembersText, ContactMeans, ValidDraft, FieldOk;
    AtConcat(input, pos, t.open + [OPEN_BRACE], MembersText(t));
    TokenIsTaken(input, pos, t.open, OPEN_BRACE, OPEN_BRACE);
    MembersAreRead(input, pos + |t.open| + 1, t);
  }

  // One member that is not the last.
  lemma {:induction false} ReadIsMemberAndComma(input: Bytes, pos: nat, p: Partial) returns (f: FieldTree, comma: Bytes, next: nat)
    requires pos <= |input| && ContactLoop(input, pos, p).Good?
    requires forall f: FieldTree :: FieldOk(f) ==> !WithField(f, p).fields.All()
    ensures FieldOk(f) && FieldIsNew(f, p) && AllSpace(comma) && next <= |input|
    ensures ContactLoop(input, pos, p) == ContactLoop(input, next, WithField(f, p))
    ensures forall rest :: At(input, next, rest) ==> At(input, pos, FieldText(f) + ((comma + [COMMA]) + rest))
  {
    hide At, Take, AllSpace, ContactLoop, Field, FieldText, FieldOk, FieldIsNew, WithField, ValidDraft;
    BadField(input, pos, p);
    f := ReadIsField(input, pos, p);
    NextField(input, pos, p, WithField(f, p), pos + |FieldText(f)|);
    comma := ReadIsComma(input, pos, FieldText(f));
    next := Take(input, pos + |FieldText(f)|, COMMA).next;
  }

  lemma {:induction false} ReadIsLastMember(input: Bytes, pos: nat, p: Partial) returns (f: FieldTree, close: Bytes)
    requires pos <= |input| && ContactLoop(input, pos, p).Good?
    requires forall f: FieldTree :: FieldOk(f) && FieldIsNew(f, p) ==> WithField(f, p).fields.All()
    ensures FieldOk(f) && FieldIsNew(f, p) && AllSpace(close)
    ensures WithField(f, p).fields.All() && ValidDraft(WithField(f, p).draft)
    ensures At(input, pos, FieldText(f) + (close + [CLOSE_BRACE]))
  {
    hide At, Take, AllSpace, ContactLoop, Field, FieldText, FieldOk, FieldIsNew, WithField, ValidDraft;
    BadField(input, pos, p);
    f := ReadIsField(input, pos, p);
    NextField(input, pos, p, WithField(f, p), pos + |FieldText(f)|);
    if Take(input, pos + |FieldText(f)|, COMMA).ok {
      NoFourthField(input, Take(input, pos + |FieldText(f)|, COMMA).next, WithField(f, p));
    }
    close := ReadIsEnd(input, pos, FieldText(f), CLOSE_BRACE);
  }

  lemma {:induction false} OneIsNotAll(p: Partial)
    requires p == EMPTY_CONTACT || exists f :: FieldOk(f) && p == WithField(f, EMPTY_CONTACT)
    ensures forall g: FieldTree :: FieldOk(g) ==> !WithField(g, p).fields.All()
  {
    hide FieldOk, CharsUnits;
  }

  lemma {:induction false} TwoLackOne(a: FieldTree, b: FieldTree)
    requires FieldOk(a) && FieldOk(b) && FieldIsNew(b, WithField(a, EMPTY_CONTACT))
    ensures var q := WithField(b, WithField(a, EMPTY_CONTACT));
            forall g: FieldTree :: FieldOk(g) && FieldIsNew(g, q) ==> WithField(g, q).fields.All()
  {
    hide FieldOk, CharsUnits;
  }

  lemma {:induction false} ReadAreMembers(input: Bytes, pos: nat, open: Bytes) returns (t: ContactTree)
    requires pos <= |input| && ContactLoop(input, pos, EMPTY_CONTACT).Good? && AllSpace(open)
    ensures ContactOk(t) && t.open == open && At(input, pos, MembersText(t))
  {
    hide At, Take, AllSpace, ContactLoop, Field, FieldText, FieldOk, FieldIsNew, WithField, ValidDraft, ContactMeans;
    OneIsNotAll(EMPTY_CONTACT);
    var a, comma1, p1 := ReadIsMemberAndComma(input, pos, EMPTY_CONTACT);
    var q1 := WithField(a, EMPTY_CONTACT);
    OneIsNotAll(q1);
    var b, comma2, p2 := ReadIsMemberAndComma(input, p1, q1);
    TwoLackOne(a, b);
    var c, close := ReadIsLastMember(input, p2, WithField(b, q1));
    ThreeMembers(a, b, c);
    t := ContactTree(open, a, comma1, b, comma2, c, close);
    ThreeMembersMean(t);
  }

  lemma {:induction false} ReadIsContact(input: Bytes, pos: nat) returns (t: ContactTree)
    requires pos <= |input| && ContactObject(input, pos).Good?
    ensures ContactOk(t) && At(input, pos, ContactPrint(t))
    ensures ContactObject(input, pos) == Good(ContactMeans(t), pos + |ContactPrint(t)|)
  {
    hide At, Take, AllSpace, ContactLoop, MembersText, ContactMeans, ValidDraft, FieldOk;
    var open := TakenIsToken(input, pos, OPEN_BRACE);
    t := ReadAreMembers(input, pos + |open| + 1, open);
    AtConcat(input, pos, open + [OPEN_BRACE], MembersText(t));
    ContactIsRead(input, pos, t);
  }

  // --- The list, both ways ---------------------------------------------------

  lemma {:induction false} NextItem(input: Bytes, pos: nat, before: seq<Draft>, d: Draft, next: nat)
    requires pos <= |input| && |before| < CAPACITY && !HasDestination(before, d.destination)
    requires ContactObject(input, pos) == Good(d, next) && next <= |input|
    ensures var more := Take(input, next, COMMA);
            && (more.ok ==> ListLoop(input, pos, before) == ListLoop(input, more.next, before + [d]))
            && (!more.ok ==> ListLoop(input, pos, before) == ClosedList(input, more.next, before + [d]))
  {
    hide ContactObject, Take, HasDestination;
  }

  lemma {:induction false} ItemsAreRead(input: Bytes, pos: nat, t: ItemsTree, before: seq<Draft>)
    requires ItemsOk(t) && At(input, pos, ItemsText(t))
    requires |before + ItemsMean(t)| <= CAPACITY && UniqueDrafts(before + ItemsMean(t))
    ensures ListLoop(input, pos, before) == Good(before + ItemsMean(t), pos + |ItemsText(t)|)
    decreases t
  {
    hide ContactObject, ContactShape, ContactPrint, ContactMeans, ValidDraft, AllSpace, At, Take, HasDestination, ListLoop, UniqueDrafts;
    NotYetListed(before, ItemsMean(t));
    match t
    case LastItem(c, close) =>
      EndIsRead(input, pos, ContactPrint(c), close, CLOSE_BRACKET);
      ContactIsRead(input, pos, c);
      NextItem(input, pos, before, ContactMeans(c), pos + |ContactPrint(c)|);
    case MoreItems(c, comma, rest) =>
      CommaIsRead(input, pos, ContactPrint(c), comma, ItemsText(rest));
      ContactIsRead(input, pos, c);
      NextItem(input, pos, before, ContactMeans(c), pos + |ContactPrint(c)|);
      assert before + ItemsMean(t) == before + [ContactMeans(c)] + ItemsMean(rest);
      ItemsAreRead(input, pos + |ContactPrint(c)| + |comma| + 1, rest, before + [ContactMeans(c)]);
  }

  lemma {:induction false} ReadAreItems(input: Bytes, pos: nat, before: seq<Draft>) returns (t: ItemsTree)
    requires pos <= |input| && |before| <= CAPACITY && ListLoop(input, pos, before).Good?
    ensures ItemsOk(t) && At(input, pos, ItemsText(t))
    ensures ListLoop(input, pos, before).value == before + ItemsMean(t)
    decreases |input| - pos
  {
    hide ContactObject, ContactShape, ContactPrint, ContactMeans, ValidDraft, AllSpace, At, Take, HasDestination;
    var c := ReadIsContact(input, pos);
    var more := Take(input, pos + |ContactPrint(c)|, COMMA);
    if more.ok {
      var comma := ReadIsComma(input, pos, ContactPrint(c));
      var rest := ReadAreItems(input, more.next, before + [ContactMeans(c)]);
      t := MoreItems(c, comma, rest);
    } else {
      var close := ReadIsEnd(input, pos, ContactPrint(c), CLOSE_BRACKET);
      t := LastItem(c, close);
    }
  }

  lemma {:induction false} ContactAfterSpace(input: Bytes, pos: nat)
    requires pos <= |input|
    ensures ContactObject(input, SkipSpace(input, pos)) == ContactObject(input, pos)
  {
    TakeAfterSpace(input, pos, OPEN_BRACE);
    hide ContactLoop, SkipSpace, Take, ValidDraft;
  }

  lemma TakeAfterSpace(input: Bytes, pos: nat, c: Byte)
    requires pos <= |input|
    ensures Take(input, SkipSpace(input, pos), c) == Take(input, pos, c)
  {
    SkippedIsSpace(input, pos);
    hide SkipSpace, IsSpaceByte;
  }

  // The loop may start before or after white space.
  lemma {:induction false} ItemsAfterSpace(input: Bytes, pos: nat, before: seq<Draft>)
    requires pos <= |input| && |before| <= CAPACITY
    ensures ListLoop(input, SkipSpace(input, pos), before) == ListLoop(input, pos, before)
  {
    ContactAfterSpace(input, pos);
    hide *;
    ItemsByFirst(input, SkipSpace(input, pos), pos, before);
  }

  lemma {:induction false} BadItem(input: Bytes, pos: nat, before: seq<Draft>)
    requires pos <= |input|
    requires var c := ContactObject(input, pos);
             |before| == CAPACITY || c.Bad? || HasDestination(before, c.value.destination)
    ensures ListLoop(input, pos, before) == Bad
  {
    hide ContactObject, HasDestination, Take;
  }

  lemma {:induction false} ItemsByFirst(input: Bytes, p: nat, q: nat, before: seq<Draft>)
    requires p <= |input| && q <= |input| && |before| <= CAPACITY
    requires ContactObject(input, p) == ContactObject(input, q)
    ensures ListLoop(input, p, before) == ListLoop(input, q, before)
  {
    hide ListLoop, ContactObject, HasDestination, Take;
    var c := ContactObject(input, p);
    if |before| < CAPACITY && c.Good? && !HasDestination(before, c.value.destination) {
      NextItem(input, p, before, c.value, c.next);
      NextItem(input, q, before, c.value, c.next);
    } else {
      BadItem(input, p, before);
      BadItem(input, q, before);
    }
  }

  // A list with contacts starts with a brace, so it is not taken for an empty one.
  lemma {:induction false} ItemsStartWithBrace(t: ItemsTree) returns (space: Bytes, rest: Bytes)
    requires ItemsOk(t)
    ensures AllSpace(space) && ItemsText(t) == (space + [OPEN_BRACE]) + rest
  {
    hide MembersText, AllSpace, ContactMeans, ValidDraft, FieldOk;
    space := t.c.open;
    var end := if t.LastItem? then t.close + [CLOSE_BRACKET] else (t.comma + [COMMA]) + ItemsText(t.rest);
    rest := MembersText(t.c) + end;
    Regroup(space + [OPEN_BRACE], [], MembersText(t.c), end);
  }

  lemma {:induction false} ListIsRead(input: Bytes, pos: nat, t: ListTree)
    requires ListOk(t) && At(input, pos, ListPrint(t))
    ensures ContactList(input, pos, []) == Good(ListMeans(t), pos + |ListPrint(t)|)
  {
    hide At, AllSpace, ItemsText, ItemsOk, ItemsMean, ListLoop, SkipSpace;
    var rest := if t.EmptyList? then t.close + [CLOSE_BRACKET] else ItemsText(t.items);
    AtConcat(input, pos, t.open + [OPEN_BRACKET], rest);
    TokenIsTaken(input, pos, t.open, OPEN_BRACKET, OPEN_BRACKET);
    var start := pos + |t.open| + 1;
    if t.EmptyList? {
      TokenIsTaken(input, start, t.close, CLOSE_BRACKET, CLOSE_BRACKET);
    } else {
      var space, tail := ItemsStartWithBrace(t.items);
      AtConcat(input, start, space + [OPEN_BRACE], tail);
      TokenIsTaken(input, start, space, OPEN_BRACE, CLOSE_BRACKET);
      ItemsAfterSpace(input, start, []);
      assert [] + ItemsMean(t.items) == ItemsMean(t.items);
      ItemsAreRead(input, start, t.items, []);
    }
  }

  lemma {:induction false} ReadIsList(input: Bytes, pos: nat) returns (t: ListTree)
    requires pos <= |input| && ContactList(input, pos, []).Good?
    ensures ListOk(t) && At(input, pos, ListPrint(t))
    ensures ContactList(input, pos, []) == Good(ListMeans(t), pos + |ListPrint(t)|)
  {
    hide At, AllSpace, ItemsText, ItemsOk, ItemsMean, ListLoop, SkipSpace;
    var open := TakenIsToken(input, pos, OPEN_BRACKET);
    var start := pos + |open| + 1;
    if Take(input, start, CLOSE_BRACKET).ok {
      var close := TakenIsToken(input, start, CLOSE_BRACKET);
      t := EmptyList(open, close);
      AtConcat(input, pos, open + [OPEN_BRACKET], close + [CLOSE_BRACKET]);
    } else {
      ItemsAfterSpace(input, start, []);
      ListIsValid(input, start, []);
      var items := ReadAreItems(input, start, []);
      assert [] + ItemsMean(items) == ItemsMean(items);
      t := FullList(open, items);
      AtConcat(input, pos, open + [OPEN_BRACKET], ItemsText(items));
    }
    ListIsRead(input, pos, t);
  }

  // --- The document, both ways -----------------------------------------------

  predicate MemberIsNew(m: MemberTree, d: Document) {
    match m
    case VersionTree(_, _, _) => !d.version
    case ContactsTree(_, _, _) => !d.listed && d.out == []
  }

  function WithMember(m: MemberTree, d: Document): Document
    requires MemberOk(m)
  {
    match m
    case VersionTree(_, _, _) => d.(version := true)
    case ContactsTree(_, _, list) => d.(listed := true, out := ListMeans(list))
  }

  lemma OneIsRead(input: Bytes, pos: nat, space: Bytes)
    requires AllSpace(space) && At(input, pos, space + VERSION_ONE)
    ensures Literal(input, pos, VERSION_ONE) == Took(true, pos + |space| + 1)
  {
    AtConcat(input, pos, space, VERSION_ONE);
    AtIndex(input, pos + |space|, VERSION_ONE, 0);
    SpaceEnds(input, pos, space);
  }

  lemma ReadIsOne(input: Bytes, pos: nat) returns (space: Bytes)
    requires pos <= |input| && Literal(input, pos, VERSION_ONE).ok
    ensures AllSpace(space) && At(input, pos, space + VERSION_ONE)
  {
    space := SpaceIsSkipped(input, pos);
    AtConcat(input, pos, space, VERSION_ONE);
  }

  lemma VersionIsNotContacts()
    ensures VERSION_KEY != CONTACTS_KEY
  {
    assert |VERSION_KEY| != |CONTACTS_KEY|;
  }

  lemma {:induction false} MemberIsRead(input: Bytes, pos: nat, m: MemberTree, d: Document)
    requires MemberOk(m) && MemberIsNew(m, d) && At(input, pos, MemberPrint(m))
    ensures Member(input, pos, d) == Good(WithMember(m, d), pos + |MemberPrint(m)|)
  {
    VersionIsNotContacts();
    hide CharsUnits, CharsOk, AllSpace, At, Text, Take, StrText, Literal, ListPrint, ContactList, ListMeans, ListOk;
    var start := KeyIsRead(input, pos, m.key, 8, m.colon, MemberValue(m));
    match m
    case VersionTree(_, _, space) => OneIsRead(input, start, space);
    case ContactsTree(_, _, list) => ListIsRead(input, start, list);
  }

  lemma {:induction false} ReadIsMember(input: Bytes, pos: nat, d: Document) returns (m: MemberTree)
    requires pos <= |input| && Member(input, pos, d).Good? && (!d.listed ==> d.out == [])
    ensures MemberOk(m) && MemberIsNew(m, d) && At(input, pos, MemberPrint(m))
    ensures Member(input, pos, d) == Good(WithMember(m, d), pos + |MemberPrint(m)|)
  {
    VersionIsNotContacts();
    hide CharsUnits, CharsOk, AllSpace, At, Text, Take, StrText, Literal, ListPrint, ContactList, ListMeans, ListOk;
    var key, colon := ReadIsKey(input, pos, 8);
    var word := Text(input, pos, 8, true);
    var start := Take(input, word.next, COLON_SIGN).next;
    if word.value == VERSION_KEY {
      var space := ReadIsOne(input, start);
      m := VersionTree(key, colon, space);
    } else {
      var list := ReadIsList(input, start);
      m := ContactsTree(key, colon, list);
    }
    MemberIsRead(input, pos, m, d);
  }

  const NO_DOCUMENT := Document(false, false, [])

  lemma {:induction false} EndOfDocument(input: Bytes, pos: nat, text: Bytes, close: Bytes, end: Bytes)
    requires AllSpace(close) && AllSpace(end) && At(input, pos, text + ((close + [CLOSE_BRACE]) + end))
    requires |input| == pos + |text + ((close + [CLOSE_BRACE]) + end)|
    ensures At(input, pos, text) && pos + |text| <= |input| && !Take(input, pos + |text|, COMMA).ok
    ensures var last := Take(input, Take(input, pos + |text|, COMMA).next, CLOSE_BRACE);
            last.ok && SkipSpace(input, last.next) == |input|
  {
    assert text + ((close + [CLOSE_BRACE]) + end) == (text + (close + [CLOSE_BRACE])) + end;
    AtConcat(input, pos, text + (close + [CLOSE_BRACE]), end);
    EndIsRead(input, pos, text, close, CLOSE_BRACE);
    SpaceEnds(input, pos + |text| + |close| + 1, end);
  }

  // What some tree prints is read as what it means.
  lemma {:induction false} DocumentIsRead(input: Bytes, t: DocumentTree)
    requires DocumentOk(t) && DocumentPrint(t) == input
    ensures ParseDocument(input) == Some(DocumentMeans(t))
  {
    hide MemberOk, MemberPrint, Member, AllSpace, At, Take, ListMeans, SkipSpace, DocumentLoop;
    var last := MemberPrint(t.second) + ((t.close + [CLOSE_BRACE]) + t.end);
    var body := MemberPrint(t.first) + ((t.comma + [COMMA]) + last);
    WholeIsAt(input);
    AtConcat(input, 0, t.open + [OPEN_BRACE], body);
    TokenIsTaken(input, 0, t.open, OPEN_BRACE, OPEN_BRACE);
    var p := |t.open| + 1;
    CommaIsRead(input, p, MemberPrint(t.first), t.comma, last);
    MemberIsRead(input, p, t.first, NO_DOCUMENT);
    var d := WithMember(t.first, NO_DOCUMENT);
    NextMember(input, p, NO_DOCUMENT, d, p + |MemberPrint(t.first)|);
    var q := p + |MemberPrint(t.first)| + |t.comma| + 1;
    EndOfDocument(input, q, MemberPrint(t.second), t.close, t.end);
    MemberIsRead(input, q, t.second, d);
    NextMember(input, q, d, WithMember(t.second, d), q + |MemberPrint(t.second)|);
  }

  lemma WholeIsAt(input: Bytes)
    ensures At(input, 0, input)
  {
    assert input[0..|input|] == input;
  }

  lemma ReadIsLast(input: Bytes, pos: nat, text: Bytes) returns (close: Bytes, end: Bytes)
    requires At(input, pos, text) && pos + |text| <= |input| && !Take(input, pos + |text|, COMMA).ok
    requires var last := Take(input, Take(input, pos + |text|, COMMA).next, CLOSE_BRACE);
             last.ok && SkipSpace(input, last.next) == |input|
    ensures AllSpace(close) && AllSpace(end)
    ensures At(input, pos, text + ((close + [CLOSE_BRACE]) + end))
    ensures |input| == pos + |text + ((close + [CLOSE_BRACE]) + end)|
  {
    hide At, AllSpace, SkipSpace, Take;
    TakeAgain(input, pos + |text|, COMMA, CLOSE_BRACE);
    close := TakenIsToken(input, pos + |text|, CLOSE_BRACE);
    end := SpaceIsSkipped(input, pos + |text| + |close| + 1);
    AtConcat(input, pos + |text|, close + [CLOSE_BRACE], end);
    AtConcat(input, pos, text, (close + [CLOSE_BRACE]) + end);
  }

  lemma {:induction false} BadMember(input: Bytes, pos: nat, d: Document)
    requires pos <= |input| && DocumentLoop(input, pos, d).Some?
    ensures Member(input, pos, d).Good?
  {
    hide Member;
  }

  lemma WholeText(input: Bytes, text: Bytes)
    requires At(input, 0, text) && |text| == |input|
    ensures text == input
  {
  }

  // Nothing comes after both members.
  lemma {:induction false} NoThirdMember(input: Bytes, pos: nat, d: Document)
    requires pos <= |input| && d.version && d.listed
    ensures DocumentLoop(input, pos, d) == None
  {
    hide Text, Take, Literal, ContactList;
    assert Member(input, pos, d).Bad?;
  }

  lemma {:induction false} ReadIsDocument(input: Bytes) returns (t: DocumentTree)
    requires ParseDocument(input).Some?
    ensures DocumentOk(t) && DocumentPrint(t) == input
  {
    hide MemberOk, MemberPrint, Member, AllSpace, At, Take, ListMeans, SkipSpace, DocumentLoop;
    var open := TakenIsToken(input, 0, OPEN_BRACE);
    var p := |open| + 1;
    BadMember(input, p, NO_DOCUMENT);
    var first := ReadIsMember(input, p, NO_DOCUMENT);
    var d := WithMember(first, NO_DOCUMENT);
    NextMember(input, p, NO_DOCUMENT, d, p + |MemberPrint(first)|);
    var comma := ReadIsComma(input, p, MemberPrint(first));
    var q := Take(input, p + |MemberPrint(first)|, COMMA).next;
    BadMember(input, q, d);
    var second := ReadIsMember(input, q, d);
    NextMember(input, q, d, WithMember(second, d), q + |MemberPrint(second)|);
    if Take(input, q + |MemberPrint(second)|, COMMA).ok {
      NoThirdMember(input, Take(input, q + |MemberPrint(second)|, COMMA).next, WithMember(second, d));
    }
    var close, end := ReadIsLast(input, q, MemberPrint(second));
    t := DocumentTree(open, first, comma, second, close, end);
    var last := MemberPrint(second) + ((close + [CLOSE_BRACE]) + end);
    AtConcat(input, 0, open + [OPEN_BRACE], MemberPrint(first) + ((comma + [COMMA]) + last));
    WholeText(input, DocumentPrint(t));
  }

  // --- The theorem -----------------------------------------------------------

  // The backups that can be restored are the texts of the grammar, up to the
  // size limit, and what is restored is what they mean.
  lemma RestoredExactlyWhenSpelled(bytes: Bytes, drafts: seq<Draft>)
    ensures Restore(bytes) == Some(drafts) <==> |bytes| <= BACKUP_LIMIT && exists t :: Spells(t, bytes, drafts)
  {
    hide DocumentOk, DocumentPrint, DocumentMeans, ParseDocument;
    if t :| Spells(t, bytes, drafts) {
      DocumentIsRead(bytes, t);
    }
    if ParseDocument(bytes) == Some(drafts) {
      var t := ReadIsDocument(bytes);
      DocumentIsRead(bytes, t);
      assert Spells(t, bytes, drafts);
    }
  }

  // No text means two things.
  lemma MeaningIsUnique(t: DocumentTree, u: DocumentTree)
    requires DocumentOk(t) && DocumentOk(u) && DocumentPrint(t) == DocumentPrint(u)
    ensures DocumentMeans(t) == DocumentMeans(u)
  {
    hide DocumentOk, DocumentPrint, DocumentMeans, ParseDocument;
    DocumentIsRead(DocumentPrint(t), t);
    DocumentIsRead(DocumentPrint(u), u);
  }
}
