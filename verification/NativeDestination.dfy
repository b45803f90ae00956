// Routing a typed destination through the configured account, and the second,
// independently written check a call transfer applies to the resulting URI.
// Narrow strings keep their bytes as code units; all of them are ASCII here.
module NativeDestination {
  import opened Common
  import opened SipHost
  import opened SipAddress

  const SEMICOLON: Wchar := 59
  const PERCENT: Wchar := 37
  const DOUBLE_QUOTE: Wchar := 34
  const MAX_URI: nat := 512
  // ";transport=tls" and ";transport=udp"
  const TLS_SUFFIX: Wide := [59, 116, 114, 97, 110, 115, 112, 111, 114, 116, 61, 116, 108, 115]
  const UDP_SUFFIX: Wide := [59, 116, 114, 97, 110, 115, 112, 111, 114, 116, 61, 117, 100, 112]
  // "validated-ca"
  const VALIDATED_CA: Wide := [118, 97, 108, 105, 100, 97, 116, 101, 100, 45, 99, 97]

  type Port = x: int | 0 <= x <= 65535

  datatype SipAccount = SipAccount(server: Wide, username: Wide, port: Port, useTls: bool, codecMode: nat)

  datatype DestinationError = Accepted | BadAddress | TransportMismatch | UnsupportedCharacters | TooLong | InvalidAccount
  datatype DestinationResult = DestinationResult(error: DestinationError, uri: Wide) {
    predicate Ok() { error == Accepted && uri != [] }
  }

  function Reject(e: DestinationError): DestinationResult {
    DestinationResult(e, [])
  }

  predicate Printable(s: Wide) {
    forall i :: 0 <= i < |s| ==> 32 <= s[i] <= 126
  }

  // The empty text stands for "not representable", as in the source.
  function NativeAscii(value: Wide): Wide {
    if Printable(value) then value else []
  }

  method ToNativeAscii(value: Wide) returns (out: Wide)
    ensures out == NativeAscii(value)
  {
    out := [];
    for i := 0 to |value|
      invariant out == value[..i] && Printable(value[..i])
    {
      if value[i] < 32 || value[i] > 126 {
        assert !Printable(value);
        return [];
      }
      out := out + [value[i]];
    }
    assert value[..|value|] == value;
  }

  predicate AccountUserCharacter(c: Wchar) {
    IsAlnum(c) || c == 95 || c == 46 || c == 45 || c == PLUS
  }

  predicate UserCharacter(c: Wchar) {
    AccountUserCharacter(c) || c == STAR || c == HASH
  }

  predicate ValidAccount(a: SipAccount) {
    && a.port != 0
    && HostGrammar(a.server)
    && a.username != []
    && forall i :: 0 <= i < |a.username| ==> AccountUserCharacter(a.username[i])
  }

  // Whether a native configuration exists for the account (default audio).
  predicate AccountConfigValid(a: SipAccount, ca: Wide) {
    && a.codecMode <= 2
    && ValidAccount(a)
    && |a.username| <= 128
    && (a.useTls ==>
          var trust := NativeAscii(ca);
          trust != [] && |trust| <= 240 && DOUBLE_QUOTE !in trust && trust[0] != HASH)
  }

  function DecimalDigits(n: nat): (r: Wide)
    ensures |r| >= 1
    ensures forall i :: 0 <= i < |r| ==> IsDecimal(r[i])
    ensures DecimalValue(r) == n
  {
    if n < 10 then
      assert [n + 48][..0] == [];
      [n + 48]
    else
      var front := DecimalDigits(n / 10);
      var r := front + [n % 10 + 48];
      assert r[..|r| - 1] == front;
      r
  }

  // A port prints as a port.
  lemma {:induction false} PortDigits(port: Port)
    requires port != 0
    ensures PortGrammar(DecimalDigits(port))
  {
    assert |DecimalDigits(port / 10000)| == 1;
    assert port / 10 / 10 / 10 / 10 == port / 10000;
    assert |DecimalDigits(port / 10 / 10 / 10)| <= 2;
    assert |DecimalDigits(port / 10 / 10)| <= 3;
    assert |DecimalDigits(port / 10)| <= 4;
  }

  // Where the user part starts.
  function UserStart(uri: Wide): nat {
    if SIPS_PREFIX <= uri then 5 else 4
  }

  predicate UserCharacters(uri: Wide, start: nat, at: nat)
    requires at <= |uri|
  {
    forall i :: start <= i < at ==> UserCharacter(uri[i])
  }

  function FinalCheck(uri: Wide): (r: DestinationResult)
    ensures r.error == Accepted ==> r.uri == uri && |uri| <= MAX_URI
  {
    if |uri| > MAX_URI then Reject(TooLong)
    else
      var at := IndexOf(uri, AT);
      if at == |uri| || at <= UserStart(uri) then Reject(BadAddress)
      else if !UserCharacters(uri, UserStart(uri), at) then Reject(UnsupportedCharacters)
      else DestinationResult(Accepted, uri)
  }

  function AccountSuffix(a: SipAccount): Wide {
    if a.useTls then TLS_SUFFIX else UDP_SUFFIX
  }

  function AccountScheme(a: SipAccount): Wide {
    if a.useTls then SIPS_PREFIX else SIP_PREFIX
  }

  // The dialled number, without its scheme, sent through the account.
  function RoutedParts(number: Wide, a: SipAccount): Parts {
    Parts(AccountScheme(a), number, NativeAscii(a.server), [COLON] + DecimalDigits(a.port))
  }

  function CallDestination(loc: Locale, typed: Wide, a: SipAccount): DestinationResult {
    if |typed| > MAX_URI then Reject(TooLong)
    else
      var parsed := Address(loc, typed);
      if !parsed.Ok() then Reject(BadAddress)
      else
        var uri := NativeAscii(parsed.normalized);
        if uri == [] then Reject(UnsupportedCharacters) else RouteUri(uri, a)
  }

  function RouteUri(uri: Wide, a: SipAccount): (r: DestinationResult)
    ensures r.error == Accepted ==> |r.uri| <= MAX_URI
  {
    var secure := SIPS_PREFIX <= uri;
    var plain := SIP_PREFIX <= uri;
    if (secure && !a.useTls) || (plain && a.useTls) then Reject(TransportMismatch)
    else if AT in uri then FinalCheck(uri)
    else if !AccountConfigValid(a, if a.useTls then VALIDATED_CA else []) then Reject(InvalidAccount)
    else FinalCheck(RoutedParts(WithoutScheme(uri), a).Text() + AccountSuffix(a))
  }

  function WithoutScheme(uri: Wide): Wide {
    if SIPS_PREFIX <= uri then uri[5..] else if SIP_PREFIX <= uri then uri[4..] else uri
  }

  method NativeCallDestination(loc: Locale, typed: Wide, a: SipAccount) returns (r: DestinationResult)
    ensures r == CallDestination(loc, typed, a)
  {
    if |typed| > 512 { return Reject(TooLong); }
    var parsed := ValidateAddress(loc, typed);
    if !parsed.Ok() { return Reject(BadAddress); }
    var uri := ToNativeAscii(parsed.normalized);
    if |uri| == 0 { return Reject(UnsupportedCharacters); }
    var secure := SIPS_PREFIX <= uri;
    var plain := SIP_PREFIX <= uri;
    if (secure && !a.useTls) || (plain && a.useTls) { return Reject(TransportMismatch); }
    if AT !in uri {
      if !AccountConfigValid(a, if a.useTls then VALIDATED_CA else []) { return Reject(InvalidAccount); }
      if secure { uri := uri[5..]; } else if plain { uri := uri[4..]; }
      var server := ToNativeAscii(a.server);
      ghost var parts := RoutedParts(uri, a);
      var tail := server + ([COLON] + DecimalDigits(a.port));
      uri := (if a.useTls then SIPS_PREFIX else SIP_PREFIX) + (uri + [AT] + tail);
      assert uri == parts.Text();
      uri := uri + (if a.useTls then TLS_SUFFIX else UDP_SUFFIX);
    }
    r := CheckUser(uri);
  }

  method CheckUser(uri: Wide) returns (r: DestinationResult)
    ensures r == FinalCheck(uri)
  {
    if |uri| > 512 { return Reject(TooLong); }
    var start := if SIPS_PREFIX <= uri then 5 else 4;
    var at := IndexOf(uri, AT);
    if at == |uri| || at <= start { return Reject(BadAddress); }
    for i := start to at
      invariant forall j :: start <= j < i ==> UserCharacter(uri[j])
    {
      if !UserCharacter(uri[i]) { return Reject(UnsupportedCharacters); }
    }
    return DestinationResult(Accepted, uri);
  }

  // --- The transfer check ---------------------------------------------------

  predicate TransferCharacter(c: Wchar) {
    32 < c < 127 && c != PERCENT && c != 63 && c != 34 && c != 92 && c != 60 && c != 62
  }

  predicate TransferCharacters(uri: Wide) {
    forall i :: 0 <= i < |uri| ==> TransferCharacter(uri[i])
  }

  predicate SuffixOk(suffix: Wide, secure: bool) {
    suffix == [] || suffix == TLS_SUFFIX || (suffix == UDP_SUFFIX && !secure)
  }

  predicate BaseOk(loc: Locale, base: Wide, start: nat) {
    && var at := IndexOf(base, AT);
    && at != |base| && at > start
    && UserCharacters(base, start, at)
    && Address(loc, base) == AddressResult(NoError, base)
  }

  predicate Schemed(uri: Wide) {
    SIPS_PREFIX <= uri || SIP_PREFIX <= uri
  }

  predicate TransferUri(loc: Locale, uri: Wide) {
    && 1 <= |uri| <= MAX_URI
    && TransferCharacters(uri)
    && Schemed(uri)
    && var split := IndexOf(uri, SEMICOLON);
    && SuffixOk(uri[split..], SIPS_PREFIX <= uri)
    && BaseOk(loc, uri[..split], UserStart(uri))
  }

  method ValidNativeTransferUri(loc: Locale, uri: Wide) returns (ok: bool)
    ensures ok == TransferUri(loc, uri)
  {
    if |uri| == 0 || |uri| > 512 { return false; }
    for i := 0 to |uri|
      invariant forall j :: 0 <= j < i ==> TransferCharacter(uri[j])
    {
      if !TransferCharacter(uri[i]) { return false; }
    }
    var secure := SIPS_PREFIX <= uri;
    if !secure && !(SIP_PREFIX <= uri) { return false; }
    var split := IndexOf(uri, SEMICOLON);
    var base := uri[..split];
    if split != |uri| {
      var suffix := uri[split..];
      if suffix != TLS_SUFFIX && suffix != UDP_SUFFIX { return false; }
      if secure && suffix != TLS_SUFFIX { return false; }
    }
    var at := IndexOf(base, AT);
    var start := if secure then 5 else 4;
    if at == |base| || at <= start { return false; }
    for i := start to at
      invariant forall j :: start <= j < i ==> UserCharacter(base[j])
    {
      if !UserCharacter(base[i]) { return false; }
    }
    var parsed := ValidateAddress(loc, base);
    return parsed.Ok() && parsed.normalized == base;
  }

  // Transfer routing refuses what the transfer check refuses.
  method NativeTransferDestination(loc: Locale, typed: Wide, a: SipAccount) returns (r: DestinationResult)
    ensures r == CallDestination(loc, typed, a)
  {
    r := NativeCallDestination(loc, typed, a);
    var valid := ValidNativeTransferUri(loc, r.uri);
    if r.Ok() {
      AcceptedCallsAreTransferable(loc, typed, a);
      assert valid;
    }
    if !r.Ok() || valid { return r; }
    return Reject(BadAddress);
  }

  // --- The two checks agree --------------------------------------------------

  predicate UserPlain(user: Wide) {
    forall i :: 0 <= i < |user| ==> UserCharacter(user[i])
  }

  lemma {:induction false} ConcatTransfer(a: Wide, b: Wide)
    ensures TransferCharacters(a + b) <==> TransferCharacters(a) && TransferCharacters(b)
  {
    assert forall i :: 0 <= i < |a| ==> a[i] == (a + b)[i];
    assert forall i :: 0 <= i < |b| ==> b[i] == (a + b)[|a| + i];
  }

  lemma {:induction false} TextIsTransferable(loc: Locale, p: Parts)
    requires PartsOk(loc, p) && UserPlain(p.user)
    ensures TransferCharacters(p.Text())
  {
    HostPartCharacters(loc, p.host, p.port);
    ConcatTransfer(p.host, p.port);
    ConcatTransfer(p.user, [AT]);
    ConcatTransfer(p.user + [AT], p.host + p.port);
    ConcatTransfer(p.scheme, p.Value());
  }

  lemma {:induction false} TextHasNoSemicolon(loc: Locale, p: Parts)
    requires PartsOk(loc, p) && UserPlain(p.user)
    ensures SEMICOLON !in p.Text()
  {
    HostPartCharacters(loc, p.host, p.port);
    assert SEMICOLON !in p.user;
    assert SEMICOLON !in p.host && SEMICOLON !in p.port;
    assert SEMICOLON !in p.Value();
  }

  lemma {:induction false} TextUser(p: Parts)
    requires AT !in p.scheme && AT !in p.user
    ensures IndexOf(p.Text(), AT) == |p.scheme| + |p.user|
    ensures p.Text()[|p.scheme|..|p.scheme| + |p.user|] == p.user
  {
    var t := p.Text();
    var n := |p.scheme| + |p.user|;
    assert t[..n] == p.scheme + p.user;
    assert t[n] == AT;
    IndexOfUnique(t, AT, n);
  }

  lemma {:induction false} SchemeStart(p: Parts, suffix: Wide)
    requires p.scheme == SIP_PREFIX || p.scheme == SIPS_PREFIX
    ensures UserStart(p.Text() + suffix) == UserStart(p.Text()) == |p.scheme|
    ensures SIPS_PREFIX <= p.Text() + suffix <==> p.scheme == SIPS_PREFIX
    ensures SIP_PREFIX <= p.Text() + suffix <==> p.scheme == SIP_PREFIX
  {
    var u := p.Text() + suffix;
    assert u[..|p.scheme|] == p.scheme;
    assert p.Text()[..|p.scheme|] == p.scheme;
    assert |u| > 4 && |p.Text()| > 4;
    assert u[3] == p.scheme[3] && p.Text()[3] == p.scheme[3];
  }

  lemma {:induction false} UserRange(p: Parts, text: Wide)
    requires p.Text() <= text && UserPlain(p.user)
    ensures forall i :: |p.scheme| <= i < |p.scheme| + |p.user| ==> UserCharacter(text[i])
  {
    assert forall i :: |p.scheme| <= i < |p.scheme| + |p.user| ==> p.Text()[i] == p.user[i - |p.scheme|];
  }

  lemma {:induction false} SplitAtSuffix(base: Wide, suffix: Wide)
    requires SEMICOLON !in base
    requires suffix == [] || suffix[0] == SEMICOLON
    ensures IndexOf(base + suffix, SEMICOLON) == |base|
    ensures (base + suffix)[..|base|] == base && (base + suffix)[|base|..] == suffix
  {
    var uri := base + suffix;
    assert uri[..|base|] == base;
    if suffix == [] {
      assert uri == base;
    } else {
      IndexOfUnique(uri, SEMICOLON, |base|);
    }
  }

  lemma {:induction false} BaseAccepted(loc: Locale, p: Parts)
    requires PartsOk(loc, p) && UserPlain(p.user) && p.scheme != []
    ensures BaseOk(loc, p.Text(), |p.scheme|)
  {
    TextUser(p);
    UserRange(p, p.Text());
    GrammarIsAccepted(loc, p);
  }

  // A full address with a plain user, and at most the one suffix its scheme
  // allows, passes the transfer check.
  lemma {:induction false} TransferAccepts(loc: Locale, p: Parts, suffix: Wide)
    requires PartsOk(loc, p) && UserPlain(p.user)
    requires p.scheme == SIP_PREFIX || p.scheme == SIPS_PREFIX
    requires SuffixOk(suffix, p.scheme == SIPS_PREFIX)
    requires |p.Text() + suffix| <= MAX_URI
    ensures TransferUri(loc, p.Text() + suffix)
  {
    var uri := p.Text() + suffix;
    assert TransferCharacters(uri) by {
      TextIsTransferable(loc, p);
      ConcatTransfer(p.Text(), suffix);
    }
    assert |uri| >= 1 && Schemed(uri) && UserStart(uri) == |p.scheme| by {
      SchemeStart(p, suffix);
    }
    var split := IndexOf(uri, SEMICOLON);
    assert uri[..split] == p.Text() && uri[split..] == suffix by {
      TextHasNoSemicolon(loc, p);
      SplitAtSuffix(p.Text(), suffix);
    }
    assert SIPS_PREFIX <= uri <==> p.scheme == SIPS_PREFIX by {
      SchemeStart(p, suffix);
    }
    BaseAccepted(loc, p);
  }

  // Normalisation never adds or removes the at sign; a bare number is its own
  // normal form.
  lemma {:induction false} NormalizedAt(loc: Locale, typed: Wide)
    requires Address(loc, typed).Ok()
    ensures AT in Address(loc, typed).normalized <==> AT in typed
    ensures AT !in typed ==> Address(loc, typed).normalized == typed
  {
    if AT in typed {
      var p := AcceptedHasParts(loc, typed);
      GrammarIsAccepted(loc, p);
    }
  }

  lemma {:induction false} NormalizedParts(loc: Locale, typed: Wide) returns (p: Parts)
    requires Address(loc, typed).Ok() && AT in typed
    ensures PartsOk(loc, p) && p.scheme != [] && p.Text() == Address(loc, typed).normalized
  {
    p := AcceptedHasParts(loc, typed);
    GrammarIsAccepted(loc, p);
    if p.scheme == [] {
      Reschemed(loc, p);
      p := p.(scheme := SIP_PREFIX);
    }
  }

  lemma {:induction false} CheckedUserIsPlain(p: Parts)
    requires AT !in p.user && (p.scheme == SIP_PREFIX || p.scheme == SIPS_PREFIX)
    requires FinalCheck(p.Text()).Ok()
    ensures UserPlain(p.user)
  {
    var uri := p.Text();
    SchemeStart(p, []);
    assert uri + [] == uri;
    TextUser(p);
    forall i | 0 <= i < |p.user| ensures UserCharacter(p.user[i]) {
      assert uri[|p.scheme| + i] == p.user[i];
    }
  }

  lemma {:induction false} FullDestination(loc: Locale, typed: Wide, a: SipAccount) returns (p: Parts)
    requires CallDestination(loc, typed, a).Ok() && AT in typed
    ensures PartsOk(loc, p) && UserPlain(p.user)
    ensures p.scheme == AccountScheme(a)
    ensures CallDestination(loc, typed, a).uri == p.Text()
  {
    NormalizedAt(loc, typed);
    p := NormalizedParts(loc, typed);
    assert NativeAscii(p.Text()) == p.Text();
    assert FinalCheck(p.Text()).Ok();
    CheckedUserIsPlain(p);
    SchemeStart(p, []);
    assert p.Text() + [] == p.Text();
  }

  lemma {:induction false} SchemePrefixHasColon(t: Wide)
    ensures SIP_PREFIX <= t || SIPS_PREFIX <= t ==> COLON in t
  {
    if SIP_PREFIX <= t { assert t[3] == COLON; }
    if SIPS_PREFIX <= t { assert t[4] == COLON; }
  }

  lemma {:induction false} BareNumber(loc: Locale, typed: Wide, number: Wide)
    requires Printable(typed) && Address(loc, typed).Ok() && AT !in typed
    requires number == WithoutScheme(typed)
    ensures number != [] && forall i :: 0 <= i < |number| ==> IsDecimal(number[i]) || number[i] in {PLUS, STAR, HASH}
  {
    var scheme, value := SchemePart(loc, typed);
    assert DialString(loc, value);
    assert forall i :: 0 <= i < |value| ==> typed[|scheme| + i] == value[i];
    if scheme == [] {
      assert typed == value;
      SchemePrefixHasColon(typed);
      assert number == value;
    } else {
      assert typed[..|scheme|] == scheme;
      assert typed[|scheme|..] == value;
      assert scheme == SIPS_PREFIX ==> SIPS_PREFIX <= typed;
      assert scheme == SIP_PREFIX ==> SIP_PREFIX <= typed && typed[3] == COLON;
      assert number == value;
    }
    forall i | 0 <= i < |value| ensures IsDecimal(value[i]) || value[i] in {PLUS, STAR, HASH} {
      assert DialCharacter(loc, value[i]);
      assert value[i] == typed[|scheme| + i];
    }
  }

  lemma {:induction false} RoutedPartsOk(loc: Locale, number: Wide, a: SipAccount)
    requires ValidAccount(a)
    requires number != [] && forall i :: 0 <= i < |number| ==> IsDecimal(number[i]) || number[i] in {PLUS, STAR, HASH}
    ensures PartsOk(loc, RoutedParts(number, a)) && UserPlain(number)
  {
    HostPartCharacters(loc, a.server, []);
    assert NativeAscii(a.server) == a.server;
    PortDigits(a.port);
    assert ([COLON] + DecimalDigits(a.port))[1..] == DecimalDigits(a.port);
    assert UserOk(loc, number);
  }

  lemma {:induction false} RoutedDestination(loc: Locale, typed: Wide, a: SipAccount) returns (p: Parts)
    requires CallDestination(loc, typed, a).Ok() && AT !in typed
    ensures PartsOk(loc, p) && UserPlain(p.user)
    ensures p.scheme == AccountScheme(a)
    ensures CallDestination(loc, typed, a).uri == p.Text() + AccountSuffix(a)
  {
    NormalizedAt(loc, typed);
    var number := WithoutScheme(typed);
    BareNumber(loc, typed, number);
    RoutedPartsOk(loc, number, a);
    p := RoutedParts(number, a);
  }

  lemma {:induction false} AcceptedIsBounded(loc: Locale, typed: Wide, a: SipAccount)
    requires CallDestination(loc, typed, a).Ok()
    ensures |CallDestination(loc, typed, a).uri| <= MAX_URI
  {
  }

  lemma {:induction false} AcceptedShape(loc: Locale, typed: Wide, a: SipAccount) returns (p: Parts, suffix: Wide)
    requires CallDestination(loc, typed, a).Ok()
    ensures PartsOk(loc, p) && UserPlain(p.user) && p.scheme == AccountScheme(a)
    ensures SuffixOk(suffix, a.useTls)
    ensures CallDestination(loc, typed, a).uri == p.Text() + suffix
    ensures |p.Text() + suffix| <= MAX_URI
  {
    AcceptedIsBounded(loc, typed, a);
    if AT in typed {
      p := FullDestination(loc, typed, a);
      suffix := [];
      assert p.Text() + [] == p.Text();
    } else {
      p := RoutedDestination(loc, typed, a);
      suffix := AccountSuffix(a);
    }
  }

  // Whatever a call may be placed to, a call may be transferred to: the extra
  // refusal after routing a transfer can never be reached. The accepted URI is
  // printable, bounded, and uses the account's transport.
  lemma {:induction false} AcceptedCallsAreTransferable(loc: Locale, typed: Wide, a: SipAccount)
    requires CallDestination(loc, typed, a).Ok()
    ensures var uri := CallDestination(loc, typed, a).uri;
            && TransferUri(loc, uri)
            && |uri| <= MAX_URI
            && TransferCharacters(uri)
            && (SIPS_PREFIX <= uri <==> a.useTls)
            && (SIP_PREFIX <= uri <==> !a.useTls)
  {
    var p, suffix := AcceptedShape(loc, typed, a);
    TransferAccepts(loc, p, suffix);
    SchemeStart(p, suffix);
  }

  lemma {:induction false} AcceptedHasNoSemicolon(loc: Locale, typed: Wide)
    requires Address(loc, typed).Ok()
    ensures SEMICOLON !in typed
  {
    var scheme, value := SchemePart(loc, typed);
    assert SEMICOLON !in scheme && SEMICOLON !in value;
  }

  lemma {:induction false} FullAddressesAreChecked(loc: Locale, uri: Wide, a: SipAccount)
    requires 1 <= |uri| <= MAX_URI && Printable(uri) && AT in uri
    requires Address(loc, uri) == AddressResult(NoError, uri)
    requires AccountScheme(a) <= uri
    ensures CallDestination(loc, uri, a) == FinalCheck(uri)
  {
    assert uri[3] == COLON <==> AccountScheme(a) == SIP_PREFIX;
  }

  lemma {:induction false} PlainTransferUriIsCallable(loc: Locale, uri: Wide, a: SipAccount)
    requires TransferUri(loc, uri) && SEMICOLON !in uri
    requires AccountScheme(a) <= uri
    ensures CallDestination(loc, uri, a) == DestinationResult(Accepted, uri)
  {
    assert uri[..|uri|] == uri;
    assert BaseOk(loc, uri, UserStart(uri));
    assert FinalCheck(uri) == DestinationResult(Accepted, uri);
    assert Printable(uri) by {
      assert forall i :: 0 <= i < |uri| ==> TransferCharacter(uri[i]);
    }
    FullAddressesAreChecked(loc, uri, a);
  }

  // Conversely a transfer URI in the account's transport is itself a callable
  // destination, unchanged, exactly when it carries no transport parameter.
  lemma {:induction false} TransferUriIsCallable(loc: Locale, uri: Wide, a: SipAccount)
    requires TransferUri(loc, uri)
    requires AccountScheme(a) <= uri
    ensures CallDestination(loc, uri, a) == DestinationResult(Accepted, uri) <==> SEMICOLON !in uri
  {
    if SEMICOLON !in uri {
      PlainTransferUriIsCallable(loc, uri, a);
    }
    if CallDestination(loc, uri, a).Ok() {
      AcceptedHasNoSemicolon(loc, uri);
    }
  }

  // The failing input: sip:u@h;transport=udp may be transferred to, but not called.
  lemma ParameterIsNotCallable(loc: Locale, a: SipAccount)
    requires !a.useTls
    ensures var uri := [115, 105, 112, 58, 117, 64, 104] + UDP_SUFFIX;
            TransferUri(loc, uri) && !CallDestination(loc, uri, a).Ok()
  {
    var p := Parts(SIP_PREFIX, [117], [104], []);
    var base: Wide := [115, 105, 112, 58, 117, 64, 104];
    SingleLabelHost(104);
    assert p.Text() == base;
    TransferAccepts(loc, p, UDP_SUFFIX);
    assert (base + UDP_SUFFIX)[|base|] == SEMICOLON;
    if CallDestination(loc, base + UDP_SUFFIX, a).Ok() {
      AcceptedHasNoSemicolon(loc, base + UDP_SUFFIX);
    }
    hide TransferUri, HostGrammar, CallDestination;
  }
}
