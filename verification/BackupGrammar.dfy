// Which bytes are a contact backup, said without a parser: concrete syntax trees
// of the JSON subset, what they print and what they mean. The parser accepts
// exactly what some tree prints, and returns what that tree means.
module BackupGrammar {
  import opened Common
  import opened Utf8
  import opened ContactBook
  import opened BackupParser
  import opened ContactBackup

  // --- Tokens ----------------------------------------------------------------

  // White space of section 2 of RFC 8259.
  predicate AllSpace(s: Bytes) {
    forall i :: 0 <= i < |s| ==> IsSpaceByte(s[i])
  }

  predicate HexDigits(h: Bytes) {
    |h| == 4 && forall i :: 0 <= i < 4 ==> HexValue(h[i]) < 16
  }

  function HexNumber(h: Bytes): (n: nat)
    requires HexDigits(h)
    ensures n <= 0xFFFF
  {
    ((HexValue(h[0]) * 16 + HexValue(h[1])) * 16 + HexValue(h[2])) * 16 + HexValue(h[3])
  }

  // --- Strings ---------------------------------------------------------------

  // A code point as it may be written: itself, after a backslash, by number, or
  // by the numbers of its two surrogates.
  datatype Char = Itself(cp: nat) | Escaped1(c: Byte) | Numbered4(hex: Bytes) | NumberedPair(high: Bytes, low: Bytes)

  predicate CharOk(c: Char) {
    match c
    case Itself(cp) => Scalar(cp) && cp != QUOTE as int && cp != BACKSLASH as int
    case Escaped1(b) => b == QUOTE || b == BACKSLASH || b == SLASH
    case Numbered4(hex) => HexDigits(hex) && !IsHigh(HexNumber(hex)) && !IsLow(HexNumber(hex))
    case NumberedPair(high, low) =>
      HexDigits(high) && HexDigits(low) && IsHigh(HexNumber(high)) && IsLow(HexNumber(low))
  }

  const UNICODE_ESCAPE: Bytes := [BACKSLASH, LETTER_U]

  function CharText(c: Char): (r: Bytes)
    requires CharOk(c)
    ensures r != []
  {
    match c
    case Itself(cp) => Encode(cp)
    case Escaped1(b) => [BACKSLASH, b]
    case Numbered4(hex) => UNICODE_ESCAPE + hex
    case NumberedPair(high, low) => (UNICODE_ESCAPE + high) + (UNICODE_ESCAPE + low)
  }

  function CharPoint(c: Char): (cp: nat)
    requires CharOk(c)
    ensures cp <= 0x10FFFF
  {
    match c
    case Itself(cp) => cp
    case Escaped1(b) => b
    case Numbered4(hex) => HexNumber(hex)
    case NumberedPair(high, low) => 0x10000 + (HexNumber(high) - 0xD800) * 1024 + (HexNumber(low) - 0xDC00)
  }

  predicate CharsOk(chars: seq<Char>, ascii: bool) {
    forall i :: 0 <= i < |chars| ==> CharOk(chars[i]) && Permitted(CharPoint(chars[i]), ascii)
  }

  function CharsText(chars: seq<Char>, ascii: bool): Bytes
    requires CharsOk(chars, ascii)
  {
    if chars == [] then [] else CharText(chars[0]) + CharsText(chars[1..], ascii)
  }

  function CharsUnits(chars: seq<Char>, ascii: bool): Wide
    requires CharsOk(chars, ascii)
  {
    if chars == [] then [] else Units(CharPoint(chars[0])) + CharsUnits(chars[1..], ascii)
  }

  // Space and a quoted string.
  datatype Str = Str(space: Bytes, chars: seq<Char>)

  predicate StrOk(s: Str, limit: nat, ascii: bool) {
    AllSpace(s.space) && CharsOk(s.chars, ascii) && |CharsUnits(s.chars, ascii)| <= limit
  }

  function StrText(s: Str, ascii: bool): Bytes
    requires CharsOk(s.chars, ascii)
  {
    s.space + ([QUOTE] + (CharsText(s.chars, ascii) + [QUOTE]))
  }

  // --- Objects ---------------------------------------------------------------

  datatype FieldTree =
    | NameTree(key: Str, colon: Bytes, text: Str)
    | DestinationTree(key: Str, colon: Bytes, text: Str)
    | FavoriteTree(key: Str, colon: Bytes, space: Bytes, flag: bool)

  predicate KeyIs(key: Str, limit: nat, name: Bytes) {
    StrOk(key, limit, true) && CharsUnits(key.chars, true) == name
  }

  predicate FieldOk(f: FieldTree) {
    && AllSpace(f.colon)
    && match f
       case NameTree(key, _, text) => KeyIs(key, 11, NAME_KEY) && StrOk(text, 64, false)
       case DestinationTree(key, _, text) => KeyIs(key, 11, DESTINATION_KEY) && StrOk(text, 128, true)
       case FavoriteTree(key, _, space, _) => KeyIs(key, 11, FAVORITE_KEY) && AllSpace(space)
  }

  function ValueText(f: FieldTree): Bytes
    requires FieldOk(f)
  {
    match f
    case NameTree(_, _, text) => StrText(text, false)
    case DestinationTree(_, _, text) => StrText(text, true)
    case FavoriteTree(_, _, space, flag) => space + FlagWord(flag)
  }

  function FieldText(f: FieldTree): Bytes
    requires FieldOk(f)
  {
    StrText(f.key, true) + ((f.colon + [COLON_SIGN]) + ValueText(f))
  }

  function KindOf(f: FieldTree): ContactKey {
    match f
    case NameTree(_, _, _) => NameMember
    case DestinationTree(_, _, _) => DestinationMember
    case FavoriteTree(_, _, _, _) => FavoriteMember
  }

  // The three members once each, in any order.
  datatype ContactTree =
    ContactTree(open: Bytes, a: FieldTree, comma1: Bytes, b: FieldTree, comma2: Bytes, c: FieldTree, close: Bytes)
  {
    predicate Kinds() {
      KindOf(a) != KindOf(b) && KindOf(a) != KindOf(c) && KindOf(b) != KindOf(c)
    }

    function Among(kind: ContactKey): FieldTree {
      if KindOf(a) == kind then a else if KindOf(b) == kind then b else c
    }
  }

  predicate ContactShape(t: ContactTree) {
    && AllSpace(t.open) && AllSpace(t.comma1) && AllSpace(t.comma2) && AllSpace(t.close)
    && FieldOk(t.a) && FieldOk(t.b) && FieldOk(t.c) && t.Kinds()
  }

  function ContactMeans(t: ContactTree): Draft
    requires ContactShape(t)
  {
    Draft(CharsUnits(t.Among(NameMember).text.chars, false),
          CharsUnits(t.Among(DestinationMember).text.chars, true),
          t.Among(FavoriteMember).flag)
  }

  predicate ContactOk(t: ContactTree) {
    ContactShape(t) && ValidDraft(ContactMeans(t))
  }

  function MembersText(t: ContactTree): Bytes
    requires ContactShape(t)
  {
    FieldText(t.a) + ((t.comma1 + [COMMA]) +
      (FieldText(t.b) + ((t.comma2 + [COMMA]) + (FieldText(t.c) + (t.close + [CLOSE_BRACE])))))
  }

  function ContactPrint(t: ContactTree): Bytes
    requires ContactShape(t)
  {
    (t.open + [OPEN_BRACE]) + MembersText(t)
  }

  // --- The list --------------------------------------------------------------

  datatype ItemsTree = LastItem(c: ContactTree, close: Bytes) | MoreItems(c: ContactTree, comma: Bytes, rest: ItemsTree)

  predicate ItemsOk(t: ItemsTree) {
    && ContactOk(t.c)
    && match t
       case LastItem(_, close) => AllSpace(close)
       case MoreItems(_, comma, rest) => AllSpace(comma) && ItemsOk(rest)
  }

  function ItemsText(t: ItemsTree): Bytes
    requires ItemsOk(t)
  {
    match t
    case LastItem(c, close) => ContactPrint(c) + (close + [CLOSE_BRACKET])
    case MoreItems(c, comma, rest) => ContactPrint(c) + ((comma + [COMMA]) + ItemsText(rest))
  }

  function ItemsMean(t: ItemsTree): seq<Draft>
    requires ItemsOk(t)
  {
    match t
    case LastItem(c, _) => [ContactMeans(c)]
    case MoreItems(c, _, rest) => [ContactMeans(c)] + ItemsMean(rest)
  }

  datatype ListTree = EmptyList(open: Bytes, close: Bytes) | FullList(open: Bytes, items: ItemsTree)

  // At most 500 contacts, no destination twice.
  predicate ListOk(t: ListTree) {
    && AllSpace(t.open)
    && match t
       case EmptyList(_, close) => AllSpace(close)
       case FullList(_, items) => ItemsOk(items) && |ItemsMean(items)| <= CAPACITY && UniqueDrafts(ItemsMean(items))
  }

  function ListPrint(t: ListTree): Bytes
    requires ListOk(t)
  {
    (t.open + [OPEN_BRACKET]) + (if t.EmptyList? then t.close + [CLOSE_BRACKET] else ItemsText(t.items))
  }

  function ListMeans(t: ListTree): seq<Draft>
    requires ListOk(t)
  {
    if t.EmptyList? then [] else ItemsMean(t.items)
  }

  // --- The document ----------------------------------------------------------

  datatype MemberTree =
    | VersionTree(key: Str, colon: Bytes, space: Bytes)
    | ContactsTree(key: Str, colon: Bytes, list: ListTree)

  predicate MemberOk(m: MemberTree) {
    && AllSpace(m.colon)
    && match m
       case VersionTree(key, _, space) => KeyIs(key, 8, VERSION_KEY) && AllSpace(space)
       case ContactsTree(key, _, list) => KeyIs(key, 8, CONTACTS_KEY) && ListOk(list)
  }

  function MemberValue(m: MemberTree): Bytes
    requires MemberOk(m)
  {
    match m
    case VersionTree(_, _, space) => space + VERSION_ONE
    case ContactsTree(_, _, list) => ListPrint(list)
  }

  function MemberPrint(m: MemberTree): Bytes
    requires MemberOk(m)
  {
    StrText(m.key, true) + ((m.colon + [COLON_SIGN]) + MemberValue(m))
  }

  // The two members once each, in either order.
  datatype DocumentTree = DocumentTree(open: Bytes, first: MemberTree, comma: Bytes, second: MemberTree, close: Bytes, end: Bytes)

  predicate DocumentOk(t: DocumentTree) {
    && AllSpace(t.open) && AllSpace(t.comma) && AllSpace(t.close) && AllSpace(t.end)
    && MemberOk(t.first) && MemberOk(t.second)
    && (t.first.VersionTree? <==> t.second.ContactsTree?)
  }

  function DocumentPrint(t: DocumentTree): Bytes
    requires DocumentOk(t)
  {
    (t.open + [OPEN_BRACE]) + (MemberPrint(t.first) + ((t.comma + [COMMA]) +
      (MemberPrint(t.second) + ((t.close + [CLOSE_BRACE]) + t.end))))
  }

  function DocumentMeans(t: DocumentTree): seq<Draft>
    requires DocumentOk(t)
  {
    ListMeans(if t.first.ContactsTree? then t.first.list else t.second.list)
  }

  // The tree spells the bytes and means the contacts.
  predicate Spells(t: DocumentTree, bytes: Bytes, drafts: seq<Draft>) {
    DocumentOk(t) && DocumentPrint(t) == bytes && DocumentMeans(t) == drafts
  }
}
