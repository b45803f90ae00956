// validate_address: the check every typed SIP destination passes through.
module SipAddress {
  import opened Common
  import opened SipHost

  const COLON: Wchar := 58
  const AT: Wchar := 64
  const PLUS: Wchar := 43
  const STAR: Wchar := 42
  const HASH: Wchar := 35
  const SIP_NAME: Wide := [115, 105, 112]                // sip
  const SIPS_NAME: Wide := [115, 105, 112, 115]          // sips
  const SIP_PREFIX: Wide := [115, 105, 112, 58]          // sip:
  const SIPS_PREFIX: Wide := [115, 105, 112, 115, 58]    // sips:

  // The C library's wide character classes. They are fixed on ASCII; beyond it
  // they belong to the locale and stay arbitrary.
  datatype Locale = Locale(spaces: set<Wchar>, controls: set<Wchar>, digits: set<Wchar>) {
    predicate IsSpace(c: Wchar) { if c < 128 then c == 32 || 9 <= c <= 13 else c in spaces }
    predicate IsControl(c: Wchar) { if c < 128 then c < 32 || c == 127 else c in controls }
    predicate IsDigit(c: Wchar) { if c < 128 then IsDecimal(c) else c in digits }
  }

  datatype AddressError = NoError | EmptyAddress | Whitespace | InvalidScheme | InvalidUser | InvalidHost | InvalidPort
  datatype AddressResult = AddressResult(error: AddressError, normalized: Wide) {
    predicate Ok() { error == NoError }
  }

  function Refuse(e: AddressError): AddressResult {
    AddressResult(e, [])
  }

  // < > \ " ? ;
  predicate Forbidden(c: Wchar) {
    c == 60 || c == 62 || c == 92 || c == 34 || c == 63 || c == 59
  }

  predicate Clean(loc: Locale, s: Wide) {
    forall i :: 0 <= i < |s| ==> !loc.IsSpace(s[i]) && !loc.IsControl(s[i])
  }

  predicate NoForbidden(s: Wide) {
    forall i :: 0 <= i < |s| ==> !Forbidden(s[i])
  }

  predicate DialCharacter(loc: Locale, c: Wchar) {
    loc.IsDigit(c) || c == PLUS || c == STAR || c == HASH
  }

  predicate DialString(loc: Locale, s: Wide) {
    forall i :: 0 <= i < |s| ==> DialCharacter(loc, s[i])
  }

  function DecimalValue(s: Wide): nat
    requires forall i :: 0 <= i < |s| ==> IsDecimal(s[i])
  {
    if s == [] then 0 else assert IsDecimal(s[|s| - 1]); DecimalValue(s[..|s| - 1]) * 10 + (s[|s| - 1] as int - 48)
  }

  predicate PortGrammar(s: Wide) {
    && 1 <= |s| <= 5
    && (forall i :: 0 <= i < |s| ==> IsDecimal(s[i]))
    && 1 <= DecimalValue(s) <= 65535
  }

  // The checks in the order the code makes them.
  function Address(loc: Locale, input: Wide): AddressResult {
    if input == [] then Refuse(EmptyAddress)
    else if !Clean(loc, input) then Refuse(Whitespace)
    else
      var colon := IndexOf(input, COLON);
      if colon < |input| && input[..colon] != SIP_NAME && input[..colon] != SIPS_NAME then Refuse(InvalidScheme)
      else
        UserPart(loc, if colon < |input| then input[colon + 1..] else input, input)
  }

  // What follows the scheme.
  function UserPart(loc: Locale, value: Wide, input: Wide): AddressResult {
    if value == [] || !NoForbidden(value) then Refuse(InvalidUser)
    else
      var at := IndexOf(value, AT);
      if at == |value| then
        if DialString(loc, value) then AddressResult(NoError, input) else Refuse(InvalidUser)
      else if at == 0 || at == |value| - 1 || AT in value[at + 1..] then Refuse(InvalidHost)
      else HostPart(value[at + 1..], if COLON in input then input else SIP_PREFIX + value)
  }

  function HostPart(host: Wide, normalized: Wide): AddressResult {
    var colon := IndexOf(host, COLON);
    if !HostGrammar(host[..colon]) then Refuse(InvalidHost)
    else if colon < |host| && !PortGrammar(host[colon + 1..]) then Refuse(InvalidPort)
    else AddressResult(NoError, normalized)
  }

  method FirstOffender(loc: Locale, input: Wide) returns (clean: bool)
    ensures clean == Clean(loc, input)
  {
    for i := 0 to |input|
      invariant forall j :: 0 <= j < i ==> !loc.IsSpace(input[j]) && !loc.IsControl(input[j])
    {
      if loc.IsSpace(input[i]) || loc.IsControl(input[i]) { return false; }
    }
    return true;
  }

  method ValidPort(port: Wide) returns (ok: bool)
    ensures ok == PortGrammar(port)
  {
    if |port| == 0 || |port| > 5 { return false; }
    var number: nat := 0;
    for i := 0 to |port|
      invariant forall j :: 0 <= j < i ==> IsDecimal(port[j])
      invariant number == DecimalValue(port[..i])
    {
      var c := port[i];
      if c < 48 || c > 57 { return false; }
      number := number * 10 + (c as int - 48);
      assert port[..i + 1][..i] == port[..i];
    }
    assert port[..|port|] == port;
    return number != 0 && number <= 65535;
  }

  method AddressUser(loc: Locale, value: Wide, input: Wide) returns (r: AddressResult)
    requires |input| != 0 && (COLON !in input ==> value == input)
    ensures r == UserPart(loc, value, input)
  {
    if |value| == 0 { return Refuse(InvalidUser); }
    for i := 0 to |value|
      invariant forall j :: 0 <= j < i ==> !Forbidden(value[j])
    {
      if Forbidden(value[i]) { return Refuse(InvalidUser); }
    }
    var at := IndexOf(value, AT);
    if at == |value| {
      for i := 0 to |value|
        invariant forall j :: 0 <= j < i ==> DialCharacter(loc, value[j])
      {
        if !DialCharacter(loc, value[i]) { return Refuse(InvalidUser); }
      }
      return AddressResult(NoError, if COLON !in input then value else input);
    }
    if at == 0 || at == |value| - 1 || AT in value[at + 1..] { return Refuse(InvalidHost); }
    var host := value[at + 1..];
    var portColon := IndexOf(host, COLON);
    var hostOk := ValidSipHost(host[..portColon]);
    if !hostOk { return Refuse(InvalidHost); }
    if portColon != |host| {
      var portOk := ValidPort(host[portColon + 1..]);
      if !portOk { return Refuse(InvalidPort); }
    }
    return AddressResult(NoError, if COLON !in input then SIP_PREFIX + value else input);
  }

  method ValidateAddress(loc: Locale, input: Wide) returns (r: AddressResult)
    ensures r == Address(loc, input)
  {
    if |input| == 0 { return Refuse(EmptyAddress); }
    var clean := FirstOffender(loc, input);
    if !clean { return Refuse(Whitespace); }
    var value := input;
    var colon := IndexOf(value, COLON);
    if colon != |input| {
      var scheme := value[..colon];
      if scheme != SIP_NAME && scheme != SIPS_NAME { return Refuse(InvalidScheme); }
      value := value[colon + 1..];
    }
    r := AddressUser(loc, value, input);
  }

  // --- What is accepted, as a grammar --------------------------------------

  // scheme user "@" host [":" port]; scheme is empty or ends in its colon, and
  // port is empty or starts with its own.
  datatype Parts = Parts(scheme: Wide, user: Wide, host: Wide, port: Wide) {
    function Text(): Wide { scheme + Value() }
    function Value(): Wide { user + [AT] + (host + port) }
  }

  predicate SchemeOk(s: Wide) {
    s == [] || s == SIP_PREFIX || s == SIPS_PREFIX
  }

  predicate UserOk(loc: Locale, user: Wide) {
    user != [] && AT !in user && Clean(loc, user) && NoForbidden(user)
  }

  predicate PartsOk(loc: Locale, p: Parts) {
    && SchemeOk(p.scheme)
    && UserOk(loc, p.user)
    && HostGrammar(p.host)
    && (p.port == [] || (p.port[0] == COLON && PortGrammar(p.port[1..])))
    // Without a scheme the first colon anywhere is read as one, so neither the
    // user nor a port may bring one.
    && (p.scheme == [] ==> COLON !in p.user && p.port == [])
  }

  // A dialled number, with or without a scheme.
  ghost predicate BareOk(loc: Locale, input: Wide) {
    exists scheme :: SchemeOk(scheme) && scheme <= input && IsBare(loc, input, |scheme|)
  }

  predicate IsBare(loc: Locale, input: Wide, n: nat) {
    n < |input| && DialString(loc, input[n..]) && Clean(loc, input)
  }

  lemma HostPartCharacters(loc: Locale, host: Wide, port: Wide)
    requires HostGrammar(host)
    requires port == [] || (port[0] == COLON && PortGrammar(port[1..]))
    ensures forall i :: 0 <= i < |host| ==> 32 < host[i] < 127 && host[i] !in {COLON, AT, 37} && !Forbidden(host[i])
    ensures forall i :: 0 <= i < |port| ==> 32 < port[i] < 127 && port[i] !in {AT, 37} && !Forbidden(port[i])
    ensures Clean(loc, host) && Clean(loc, port)
  {
    HostCharacters(host);
    if port != [] {
      forall i | 1 <= i < |port| ensures IsDecimal(port[i]) {
        assert port[i] == port[1..][i - 1];
      }
    }
  }

  lemma CleanConcat(loc: Locale, a: Wide, b: Wide)
    ensures Clean(loc, a + b) <==> Clean(loc, a) && Clean(loc, b)
  {
    assert forall i :: 0 <= i < |a| ==> a[i] == (a + b)[i];
    assert forall i :: 0 <= i < |b| ==> b[i] == (a + b)[|a| + i];
  }

  lemma NoForbiddenConcat(a: Wide, b: Wide)
    ensures NoForbidden(a + b) <==> NoForbidden(a) && NoForbidden(b)
  {
    assert forall i :: 0 <= i < |a| ==> a[i] == (a + b)[i];
    assert forall i :: 0 <= i < |b| ==> b[i] == (a + b)[|a| + i];
  }

  lemma HostPartAccepts(loc: Locale, host: Wide, port: Wide, normalized: Wide)
    requires HostGrammar(host)
    requires port == [] || (port[0] == COLON && PortGrammar(port[1..]))
    ensures HostPart(host + port, normalized) == AddressResult(NoError, normalized)
  {
    HostPartCharacters(loc, host, port);
    var tail := host + port;
    assert tail[..|host|] == host;
    if port == [] {
      assert tail == host;
    } else {
      IndexOfUnique(tail, COLON, |host|);
      assert tail[|host| + 1..] == port[1..];
    }
  }

  lemma ValueSplits(p: Parts)
    requires AT !in p.user
    ensures IndexOf(p.Value(), AT) == |p.user|
    ensures p.Value()[|p.user| + 1..] == p.host + p.port
  {
    var value := p.Value();
    assert value[..|p.user|] == p.user;
    IndexOfUnique(value, AT, |p.user|);
  }

  lemma ValueHasNoForbidden(loc: Locale, p: Parts)
    requires PartsOk(loc, p)
    ensures NoForbidden(p.Value())
    ensures AT !in p.host + p.port
  {
    HostPartCharacters(loc, p.host, p.port);
    NoForbiddenConcat(p.host, p.port);
    NoForbiddenConcat(p.user, [AT]);
    NoForbiddenConcat(p.user + [AT], p.host + p.port);
  }

  lemma UserPartAccepts(loc: Locale, p: Parts, input: Wide)
    requires PartsOk(loc, p)
    ensures UserPart(loc, p.Value(), input)
         == AddressResult(NoError, if COLON in input then input else SIP_PREFIX + p.Value())
  {
    ValueHasNoForbidden(loc, p);
    ValueSplits(p);
    HostPartAccepts(loc, p.host, p.port, if COLON in input then input else SIP_PREFIX + p.Value());
  }

  lemma TextIsClean(loc: Locale, p: Parts)
    requires PartsOk(loc, p)
    ensures Clean(loc, p.Text())
  {
    HostPartCharacters(loc, p.host, p.port);
    CleanConcat(loc, p.host, p.port);
    CleanConcat(loc, p.user, [AT]);
    CleanConcat(loc, p.user + [AT], p.host + p.port);
    CleanConcat(loc, p.scheme, p.Value());
  }

  lemma SchemeColon(scheme: Wide, value: Wide)
    requires scheme == SIP_PREFIX || scheme == SIPS_PREFIX
    ensures IndexOf(scheme + value, COLON) == |scheme| - 1
    ensures (scheme + value)[..|scheme| - 1] == scheme[..|scheme| - 1]
  {
    var input := scheme + value;
    assert input[|scheme| - 1] == scheme[|scheme| - 1] == COLON;
    assert input[..|scheme| - 1] == scheme[..|scheme| - 1];
    IndexOfUnique(input, COLON, |scheme| - 1);
  }

  // Every text the grammar describes is accepted, normalised by adding the
  // scheme when there is none.
  lemma GrammarIsAccepted(loc: Locale, p: Parts)
    requires PartsOk(loc, p)
    ensures Address(loc, p.Text()) == AddressResult(NoError, if p.scheme == [] then SIP_PREFIX + p.Text() else p.Text())
  {
    TextIsClean(loc, p);
    UserPartAccepts(loc, p, p.Text());
    if p.scheme == [] {
      UnschemedValueHasNoColon(loc, p);
      assert p.Text() == p.Value();
    } else {
      SchemeColon(p.scheme, p.Value());
      assert p.Text()[|p.scheme|..] == p.Value();
      assert p.scheme[..|p.scheme| - 1] == if p.scheme == SIP_PREFIX then SIP_NAME else SIPS_NAME;
    }
  }

  lemma UnschemedValueHasNoColon(loc: Locale, p: Parts)
    requires PartsOk(loc, p) && p.scheme == []
    ensures COLON !in p.Value()
  {
    HostPartCharacters(loc, p.host, p.port);
  }

  lemma UserPartOkMeans(loc: Locale, value: Wide, input: Wide)
    requires UserPart(loc, value, input).Ok() && AT in value
    ensures var at := IndexOf(value, AT);
            && 0 < at < |value| && NoForbidden(value)
            && AT !in value[at + 1..] && HostPart(value[at + 1..], input).Ok()
  {
  }

  lemma HostPartOkMeans(host: Wide, normalized: Wide)
    requires HostPart(host, normalized).Ok()
    ensures var k := IndexOf(host, COLON);
            && HostGrammar(host[..k])
            && (host[k..] == [] || (host[k..][0] == COLON && PortGrammar(host[k..][1..])))
  {
    hide HostGrammar, PortGrammar;
    var k := IndexOf(host, COLON);
    if k < |host| {
      assert host[k..][1..] == host[k + 1..];
    }
  }

  lemma CutAtSign(loc: Locale, value: Wide, at: nat) returns (user: Wide, tail: Wide)
    requires 0 < at < |value| && value[at] == AT && AT !in value[..at] && Clean(loc, value) && NoForbidden(value)
    ensures user == value[..at] && tail == value[at + 1..]
    ensures value == user + ([AT] + tail) && UserOk(loc, user)
  {
    hide Clean, NoForbidden;
    user, tail := value[..at], value[at + 1..];
    assert value == user + ([AT] + tail);
    CleanConcat(loc, user, [AT] + tail);
    NoForbiddenConcat(user, [AT] + tail);
  }

  lemma UserPartHasParts(loc: Locale, value: Wide, input: Wide) returns (p: Parts)
    requires UserPart(loc, value, input).Ok() && AT in value && Clean(loc, value)
    ensures p.scheme == [] && UserOk(loc, p.user) && HostGrammar(p.host)
    ensures p.port == [] || (p.port[0] == COLON && PortGrammar(p.port[1..]))
    ensures value == p.Value()
  {
    hide UserPart, HostPart, HostGrammar, PortGrammar, Clean, NoForbidden, IndexOf, UserOk;
    UserPartOkMeans(loc, value, input);
    var user, tail := CutAtSign(loc, value, IndexOf(value, AT));
    HostPartOkMeans(tail, input);
    var k := IndexOf(tail, COLON);
    p := Parts([], user, tail[..k], tail[k..]);
    PartsJoin(user, tail, k);
  }

  lemma PartsJoin(user: Wide, tail: Wide, k: nat)
    requires k <= |tail|
    ensures Parts([], user, tail[..k], tail[k..]).Value() == user + ([AT] + tail)
  {
    assert tail == tail[..k] + tail[k..];
  }

  lemma NamedScheme(name: Wide)
    requires name == SIP_NAME || name == SIPS_NAME
    ensures SchemeOk(name + [COLON]) && AT !in name + [COLON]
  {
    assert SIP_NAME + [COLON] == SIP_PREFIX;
    assert SIPS_NAME + [COLON] == SIPS_PREFIX;
  }

  lemma AcceptedMeans(loc: Locale, input: Wide)
    requires Address(loc, input).Ok()
    ensures Clean(loc, input)
    ensures var colon := IndexOf(input, COLON);
            && (colon == |input| ==> UserPart(loc, input, input).Ok())
            && (colon < |input| ==> input[..colon] == SIP_NAME || input[..colon] == SIPS_NAME)
            && (colon < |input| ==> UserPart(loc, input[colon + 1..], input).Ok())
  {
    hide Clean, UserPart, IndexOf;
  }

  lemma SchemePart(loc: Locale, input: Wide) returns (scheme: Wide, value: Wide)
    requires Address(loc, input).Ok()
    ensures input == scheme + value && SchemeOk(scheme) && AT !in scheme
    ensures scheme == [] ==> COLON !in value
    ensures Clean(loc, value) && UserPart(loc, value, input).Ok()
  {
    AcceptedMeans(loc, input);
    var colon := IndexOf(input, COLON);
    if colon == |input| {
      return [], input;
    }
    hide *;
    scheme, value := NamedSchemePart(loc, input, colon);
  }

  lemma NamedSchemePart(loc: Locale, input: Wide, colon: nat) returns (scheme: Wide, value: Wide)
    requires Clean(loc, input) && colon < |input| && input[colon] == COLON
    requires input[..colon] == SIP_NAME || input[..colon] == SIPS_NAME
    ensures value == input[colon + 1..] && input == scheme + value
    ensures SchemeOk(scheme) && AT !in scheme && scheme != []
    ensures Clean(loc, value)
  {
    NamedScheme(input[..colon]);
    hide *;
    scheme, value := input[..colon] + [COLON], input[colon + 1..];
    CleanConcat(loc, scheme, value);
  }

  lemma ColonFreeValue(p: Parts)
    requires p.port == [] || p.port[0] == COLON
    requires COLON !in p.Value()
    ensures COLON !in p.user && p.port == []
  {
    var v := p.Value();
    assert v[..|p.user|] == p.user;
    assert v[|p.user| + 1 + |p.host|..] == p.port;
  }

  lemma {:induction false} AcceptedHasParts(loc: Locale, input: Wide) returns (p: Parts)
    requires Address(loc, input).Ok() && AT in input
    ensures PartsOk(loc, p) && p.Text() == input
  {
    var scheme, value := SchemePart(loc, input);
    var q := UserPartHasParts(loc, value, input);
    p := q.(scheme := scheme);
    assert p.Value() == q.Value();
    if scheme == [] {
      ColonFreeValue(q);
    }
  }

  ghost predicate FullOk(loc: Locale, input: Wide) {
    exists p: Parts :: PartsOk(loc, p) && p.Text() == input
  }

  lemma BareIsAccepted(loc: Locale, input: Wide, scheme: Wide)
    requires SchemeOk(scheme) && scheme <= input && IsBare(loc, input, |scheme|)
    ensures Address(loc, input) == AddressResult(NoError, input)
  {
    var value := input[|scheme|..];
    forall i | 0 <= i < |value| ensures !Forbidden(value[i]) && value[i] != AT && value[i] != COLON {
      assert DialCharacter(loc, value[i]);
    }
    assert input == scheme + value;
    if scheme == [] {
      assert value == input;
      assert COLON !in input;
    } else {
      assert input[..|scheme| - 1] == scheme[..|scheme| - 1];
      IndexOfUnique(input, COLON, |scheme| - 1);
    }
  }

  lemma AcceptedBareHasScheme(loc: Locale, input: Wide)
    requires Address(loc, input).Ok() && AT !in input
    ensures BareOk(loc, input)
  {
    var scheme, value := SchemePart(loc, input);
    assert forall i :: 0 <= i < |value| ==> value[i] == input[|scheme| + i];
    assert input[|scheme|..] == value;
    assert SchemeOk(scheme) && scheme <= input && IsBare(loc, input, |scheme|);
  }

  // A text is accepted exactly when it is a dialled number or a full address.
  lemma {:induction false} AcceptedIffGrammar(loc: Locale, input: Wide)
    ensures Address(loc, input).Ok() <==> BareOk(loc, input) || FullOk(loc, input)
  {
    if Address(loc, input).Ok() {
      if AT in input {
        var p := AcceptedHasParts(loc, input);
      } else {
        AcceptedBareHasScheme(loc, input);
      }
    }
    if BareOk(loc, input) {
      var scheme :| SchemeOk(scheme) && scheme <= input && IsBare(loc, input, |scheme|);
      BareIsAccepted(loc, input, scheme);
    }
    if FullOk(loc, input) {
      var p: Parts :| PartsOk(loc, p) && p.Text() == input;
      GrammarIsAccepted(loc, p);
    }
  }

  lemma Reschemed(loc: Locale, p: Parts)
    requires PartsOk(loc, p) && p.scheme == []
    ensures PartsOk(loc, p.(scheme := SIP_PREFIX))
    ensures p.(scheme := SIP_PREFIX).Text() == SIP_PREFIX + p.Text()
  {
    assert p.Text() == p.Value();
    assert p.(scheme := SIP_PREFIX).Value() == p.Value();
  }

  // Checking a normalised destination again changes nothing.
  lemma {:induction false} NormalizationIsIdempotent(loc: Locale, input: Wide)
    requires Address(loc, input).Ok()
    ensures Address(loc, Address(loc, input).normalized) == Address(loc, input)
  {
    if AT in input {
      var p := AcceptedHasParts(loc, input);
      GrammarIsAccepted(loc, p);
      if p.scheme == [] {
        Reschemed(loc, p);
        GrammarIsAccepted(loc, p.(scheme := SIP_PREFIX));
      }
    }
  }

  lemma HostHasNoColon(host: Wide)
    requires HostGrammar(host)
    ensures COLON !in host
  {
    HostCharacters(host);
    hide HostGrammar;
  }

  // The first colon after pieces without one.
  lemma ColonAfter(head: Wide, port: Wide)
    requires COLON !in head && port != [] && port[0] == COLON
    ensures IndexOf(head + port, COLON) == |head|
  {
    assert (head + port)[..|head|] == head;
    IndexOfUnique(head + port, COLON, |head|);
  }

  lemma NoSchemeHoldsAt(text: Wide, i: nat)
    requires i < |text| && text[i] == AT
    ensures text != SIP_NAME && text != SIPS_NAME
  {
  }

  // A clean text whose first colon follows something else than a scheme.
  lemma OtherSchemeIsRefused(loc: Locale, input: Wide)
    requires input != [] && Clean(loc, input)
    requires var colon := IndexOf(input, COLON);
             colon < |input| && input[..colon] != SIP_NAME && input[..colon] != SIPS_NAME
    ensures Address(loc, input) == Refuse(InvalidScheme)
  {
    hide Clean, UserPart;
  }

  // The first colon anywhere is read as the end of a scheme. So an address that
  // is accepted with its scheme and a port is refused without the scheme.
  lemma UnschemedPortIsRefused(loc: Locale, p: Parts)
    requires PartsOk(loc, p) && p.scheme != [] && p.port != [] && COLON !in p.user
    ensures Address(loc, p.Text()).Ok()
    ensures Address(loc, p.Value()) == Refuse(InvalidScheme)
  {
    GrammarIsAccepted(loc, p);
    TextIsClean(loc, p);
    CleanConcat(loc, p.scheme, p.Value());
    HostHasNoColon(p.host);
    hide Address, HostGrammar, PortGrammar, NoForbidden, Clean, PartsOk, IndexOf;
    var value, head := p.Value(), p.user + [AT] + p.host;
    assert value == head + p.port;
    ColonAfter(head, p.port);
    assert value[..|head|] == head;
    NoSchemeHoldsAt(head, |p.user|);
    OtherSchemeIsRefused(loc, value);
  }

  const USER_AT_HOST_5060: Parts := Parts(SIP_PREFIX, [117], [104], [58, 53, 48, 54, 48])   // sip: u @ h :5060

  // The failing input: sip:u@h:5060 is accepted, u@h:5060 is not.
  lemma PortWithoutSchemeIsRefused(loc: Locale)
    ensures Address(loc, [115, 105, 112, 58, 117, 64, 104, 58, 53, 48, 54, 48]).Ok()
    ensures Address(loc, [117, 64, 104, 58, 53, 48, 54, 48]) == Refuse(InvalidScheme)
  {
    var p := USER_AT_HOST_5060;
    SingleLabelHost(104);
    Port5060();
    assert p.port[1..] == [53, 48, 54, 48];
    assert p.Value() == [117, 64, 104, 58, 53, 48, 54, 48];
    assert p.Text() == [115, 105, 112, 58, 117, 64, 104, 58, 53, 48, 54, 48];
    UnschemedPortIsRefused(loc, p);
    hide Address, HostGrammar, PortGrammar;
  }

  lemma SingleLabelHost(c: Wchar)
    requires IsAlnum(c)
    ensures HostGrammar([c])
  {
    var labels: seq<Wide> := [[c]];
    assert JoinDots(labels) == [c];
    SplitIsUnique(labels);
  }

  lemma Port5060()
    ensures PortGrammar([53, 48, 54, 48])
  {
    var s: Wide := [53, 48, 54, 48];
    assert s[..3] == [53, 48, 54] && s[..3][..2] == [53, 48] && s[..3][..2][..1] == [53] && s[..3][..2][..1][..0] == [];
    assert DecimalValue([53]) == 5;
    assert DecimalValue([53, 48]) == 50;
    assert DecimalValue([53, 48, 54]) == 506;
    assert DecimalValue(s) == 5060;
  }
}
