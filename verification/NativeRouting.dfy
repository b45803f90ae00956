// Where a typed destination goes: to the number typed, at the account's own
// server and port; or to the very address that was typed. And when it goes.
module NativeRouting {
  import opened Common
  import opened SipHost
  import opened SipAddress
  import opened NativeDestination

  // --- A number goes through the account -------------------------------------

  // A dialled number as it may be typed: alone, or behind a scheme.
  predicate TypedAs(typed: Wide, scheme: Wide, number: Wide) {
    (scheme == [] || scheme == SIP_PREFIX || scheme == SIPS_PREFIX) && typed == scheme + number && COLON !in number
  }

  // How a port is written.
  predicate WritesPort(digits: Wide, port: Port) {
    && digits != [] && digits[0] != 48
    && (forall i :: 0 <= i < |digits| ==> IsDecimal(digits[i])) && DecimalValue(digits) == port
  }

  lemma {:induction false} NoLeadingZero(n: nat)
    requires n != 0
    ensures DecimalDigits(n)[0] != 48
  {
    if n >= 10 {
      NoLeadingZero(n / 10);
    }
  }

  predicate Dialled(number: Wide) {
    number != [] && forall i :: 0 <= i < |number| ==> IsDecimal(number[i]) || number[i] in {PLUS, STAR, HASH}
  }

  lemma SchemeIsCut(typed: Wide) returns (scheme: Wide)
    ensures (scheme == [] || scheme == SIP_PREFIX || scheme == SIPS_PREFIX) && typed == scheme + WithoutScheme(typed)
  {
    scheme := typed[..|typed| - |WithoutScheme(typed)|];
  }

  lemma {:induction false} NumberIsTyped(loc: Locale, typed: Wide) returns (scheme: Wide, number: Wide)
    requires Address(loc, typed).Ok() && AT !in typed && Printable(typed)
    ensures TypedAs(typed, scheme, number) && number == WithoutScheme(typed) && Dialled(number)
  {
    hide Address, Printable, WithoutScheme;
    number := WithoutScheme(typed);
    scheme := SchemeIsCut(typed);
    BareNumber(loc, typed, number);
    assert forall i :: 0 <= i < |number| ==> number[i] != COLON;
  }

  // What accepting a number rests on.
  lemma {:induction false} RoutedThrough(loc: Locale, typed: Wide, a: SipAccount)
    requires CallDestination(loc, typed, a).Ok() && AT !in typed
    ensures Address(loc, typed).Ok() && Printable(typed)
    ensures AccountConfigValid(a, if a.useTls then VALIDATED_CA else [])
    ensures CallDestination(loc, typed, a).uri == RoutedParts(WithoutScheme(typed), a).Text() + AccountSuffix(a)
  {
    NormalizedAt(loc, typed);
    hide Address, RoutedParts, AccountSuffix, AccountConfigValid, WithoutScheme;
  }

  lemma RoutedText(number: Wide, a: SipAccount)
    ensures RoutedParts(number, a).Text() + AccountSuffix(a) ==
            (if a.useTls then SIPS_PREFIX else SIP_PREFIX) + number + [AT] + NativeAscii(a.server) + [COLON] +
            DecimalDigits(a.port) + (if a.useTls then TLS_SUFFIX else UDP_SUFFIX)
  {
    hide DecimalDigits, NativeAscii;
  }

  lemma ServerIsPrintable(loc: Locale, a: SipAccount)
    requires AccountConfigValid(a, if a.useTls then VALIDATED_CA else [])
    ensures NativeAscii(a.server) == a.server && a.port != 0
  {
    HostPartCharacters(loc, a.server, []);
  }

  // An accepted number is called at the account's server and port, in its scheme
  // and transport; the number is the one that was typed, less any scheme.
  lemma {:induction false} NumberIsRouted(loc: Locale, typed: Wide, a: SipAccount) returns (scheme: Wide, number: Wide, digits: Wide)
    requires CallDestination(loc, typed, a).Ok() && AT !in typed
    ensures TypedAs(typed, scheme, number) && Dialled(number) && WritesPort(digits, a.port)
    ensures CallDestination(loc, typed, a).uri ==
            (if a.useTls then SIPS_PREFIX else SIP_PREFIX) + number + [AT] + a.server + [COLON] + digits +
            (if a.useTls then TLS_SUFFIX else UDP_SUFFIX)
  {
    digits := DecimalDigits(a.port);
    RoutedThrough(loc, typed, a);
    ServerIsPrintable(loc, a);
    NoLeadingZero(a.port);
    hide *;
    scheme, number := NumberIsTyped(loc, typed);
    RoutedText(number, a);
  }

  // --- An address goes where it says -----------------------------------------

  lemma {:induction false} AddressIsItsNormalForm(loc: Locale, typed: Wide, a: SipAccount)
    requires CallDestination(loc, typed, a).Ok() && AT in typed
    ensures Address(loc, typed).Ok() && CallDestination(loc, typed, a).uri == Address(loc, typed).normalized
  {
    NormalizedAt(loc, typed);
    hide Address, RouteUri, Printable;
    RoutedAddress(Address(loc, typed).normalized, a);
  }

  lemma RoutedAddress(uri: Wide, a: SipAccount)
    requires AT in uri && RouteUri(uri, a).Ok()
    ensures RouteUri(uri, a).uri == uri && FinalCheck(uri).Ok()
  {
    hide RoutedParts, AccountSuffix, AccountConfigValid, WithoutScheme, IndexOf, UserCharacters;
  }

  lemma SameText(p: Parts, q: Parts)
    requires p.scheme == SIP_PREFIX || p.scheme == SIPS_PREFIX
    requires q.scheme == SIP_PREFIX || q.scheme == SIPS_PREFIX
    requires p.Text() == q.Text()
    ensures p.scheme == q.scheme
  {
    assert p.Text()[3] == p.scheme[3] && q.Text()[3] == q.scheme[3];
  }

  // An accepted address is called as it was typed; only a missing scheme is
  // added, and its scheme is then the account's.
  lemma {:induction false} AddressIsCalledAsTyped(loc: Locale, typed: Wide, a: SipAccount) returns (p: Parts)
    requires CallDestination(loc, typed, a).Ok() && AT in typed
    ensures PartsOk(loc, p) && typed == p.scheme + (p.user + [AT] + (p.host + p.port))
    ensures p.scheme == [] ==> !a.useTls
    ensures CallDestination(loc, typed, a).uri ==
            (if a.useTls then SIPS_PREFIX else SIP_PREFIX) + (p.user + [AT] + (p.host + p.port))
  {
    hide HostGrammar, Address, CallDestination, UserOk;
    AddressIsItsNormalForm(loc, typed, a);
    p := AcceptedHasParts(loc, typed);
    GrammarIsAccepted(loc, p);
    var q := FullDestination(loc, typed, a);
    var full := if p.scheme == [] then p.(scheme := SIP_PREFIX) else p;
    assert full.Value() == p.Value();
    SameText(full, q);
  }

  // --- When it goes ----------------------------------------------------------

  function Full(p: Parts): Parts { if p.scheme == [] then p.(scheme := SIP_PREFIX) else p }

  lemma {:induction false} PlainIsPrintable(loc: Locale, p: Parts)
    requires PartsOk(loc, p) && UserPlain(p.user)
    ensures Printable(p.Text())
  {
    TextIsTransferable(loc, p);
  }

  lemma {:induction false} FullIsChecked(loc: Locale, p: Parts)
    requires PartsOk(loc, p) && UserPlain(p.user) && p.scheme != [] && |p.Text()| <= MAX_URI
    ensures FinalCheck(p.Text()) == DestinationResult(Accepted, p.Text()) && AT in p.Text()
  {
    TextUser(p);
    UserRange(p, p.Text());
    SchemeStart(p, []);
    assert p.Text() + [] == p.Text();
    hide PartsOk, HostGrammar;
  }

  lemma FullParts(loc: Locale, p: Parts)
    requires PartsOk(loc, p)
    ensures PartsOk(loc, Full(p)) && Full(p).scheme != [] && Address(loc, p.Text()) == AddressResult(NoError, Full(p).Text())
    ensures AT in p.Text() && p.Text() != []
  {
    GrammarIsAccepted(loc, p);
    if p.scheme == [] { Reschemed(loc, p); }
    assert p.Text()[|p.scheme| + |p.user|] == AT;
    hide HostGrammar, Address, UserOk;
  }

  // An address of the grammar is called exactly when it is not too long, its
  // user has only characters the native side takes, and it names the account's
  // scheme or, without TLS, none.
  lemma {:induction false} AddressIsCallableExactlyWhen(loc: Locale, p: Parts, a: SipAccount)
    requires PartsOk(loc, p)
    ensures CallDestination(loc, p.Text(), a).Ok() <==>
            && |Full(p).Text()| <= 512 && UserPlain(p.user)
            && (p.scheme == (if a.useTls then SIPS_PREFIX else SIP_PREFIX) || (p.scheme == [] && !a.useTls))
  {
    var typed, full := p.Text(), Full(p);
    FullParts(loc, p);
    assert |typed| <= |full.Text()|;
    hide HostGrammar, Address, UserOk, UserPlain, FinalCheck, Printable;
    if CallDestination(loc, typed, a).Ok() {
      AddressIsItsNormalForm(loc, typed, a);
      var q := FullDestination(loc, typed, a);
      SameText(full, q);
      NormalFormIsChecked(loc, typed, a);
      CheckedUserIsPlain(full);
    }
    if |full.Text()| <= 512 && UserPlain(p.user) && full.scheme == AccountScheme(a) {
      PlainIsPrintable(loc, full);
      FullIsChecked(loc, full);
      SchemeStart(full, []);
      assert full.Text() + [] == full.Text();
      hide IndexOf, RoutedParts, AccountConfigValid;
    }
  }

  lemma {:induction false} NormalFormIsChecked(loc: Locale, typed: Wide, a: SipAccount)
    requires CallDestination(loc, typed, a).Ok() && AT in typed
    ensures FinalCheck(Address(loc, typed).normalized).Ok() && |Address(loc, typed).normalized| <= MAX_URI
  {
    NormalizedAt(loc, typed);
    hide Address, RouteUri, Printable;
    RoutedAddress(Address(loc, typed).normalized, a);
  }

  // A number is called exactly when the account is configured, the scheme typed
  // is the account's if there is one, and neither text is too long; and this is
  // what each refusal means.
  lemma {:induction false} NumberIsCallableExactlyWhen(loc: Locale, scheme: Wide, number: Wide, a: SipAccount)
    requires SchemeOk(scheme) && Dialled(number)
    ensures CallDestination(loc, scheme + number, a).Ok() <==>
            && |scheme + number| <= 512
            && (scheme == [] || scheme == (if a.useTls then SIPS_PREFIX else SIP_PREFIX))
            && AccountConfigValid(a, if a.useTls then VALIDATED_CA else [])
            && |RoutedParts(number, a).Text() + AccountSuffix(a)| <= 512
    ensures var error := CallDestination(loc, scheme + number, a).error;
            var theirs := scheme != [] && scheme != (if a.useTls then SIPS_PREFIX else SIP_PREFIX);
            var configured := AccountConfigValid(a, if a.useTls then VALIDATED_CA else []);
            && (error == TransportMismatch <==> |scheme + number| <= 512 && theirs)
            && (error == InvalidAccount <==> |scheme + number| <= 512 && !theirs && !configured)
            && error != BadAddress && error != UnsupportedCharacters
  {
    NumberIsAddress(loc, scheme, number);
    hide Address, Printable, AccountConfigValid, RoutedParts, FinalCheck, AccountSuffix, WithoutScheme, Dialled, RouteUri;
    NumberRoute(scheme + number, a);
    if AccountConfigValid(a, if a.useTls then VALIDATED_CA else []) {
      RoutedIsChecked(loc, number, a);
    }
  }

  lemma NumberRoute(typed: Wide, a: SipAccount)
    requires AT !in typed
    ensures RouteUri(typed, a) ==
            if (SIPS_PREFIX <= typed && !a.useTls) || (SIP_PREFIX <= typed && a.useTls) then Reject(TransportMismatch)
            else if !AccountConfigValid(a, if a.useTls then VALIDATED_CA else []) then Reject(InvalidAccount)
            else FinalCheck(RoutedParts(WithoutScheme(typed), a).Text() + AccountSuffix(a))
  {
    hide AccountConfigValid, RoutedParts, FinalCheck, AccountSuffix, WithoutScheme;
  }

  lemma DialledIsPlain(loc: Locale, number: Wide)
    requires Dialled(number)
    ensures DialString(loc, number) && Clean(loc, number) && Printable(number) && AT !in number && COLON !in number
  {
  }

  lemma SchemeIsPlain(loc: Locale, scheme: Wide)
    requires SchemeOk(scheme)
    ensures Clean(loc, scheme) && Printable(scheme) && AT !in scheme
  {
  }

  lemma PrintableConcat(a: Wide, b: Wide)
    requires Printable(a) && Printable(b) && AT !in a && AT !in b
    ensures Printable(a + b) && AT !in a + b
  {
  }

  lemma {:induction false} NumberIsAddress(loc: Locale, scheme: Wide, number: Wide)
    requires SchemeOk(scheme) && Dialled(number)
    ensures var typed := scheme + number;
            && Address(loc, typed) == AddressResult(NoError, typed) && Printable(typed) && typed != [] && AT !in typed
            && WithoutScheme(typed) == number
            && (SIP_PREFIX <= typed <==> scheme == SIP_PREFIX) && (SIPS_PREFIX <= typed <==> scheme == SIPS_PREFIX)
  {
    var typed := scheme + number;
    DialledIsPlain(loc, number);
    SchemeIsPlain(loc, scheme);
    assert typed[|scheme|..] == number && scheme <= typed;
    SchemePrefixes(scheme, number);
    CleanConcat(loc, scheme, number);
    PrintableConcat(scheme, number);
    hide Address, Clean, Printable, DialString, Dialled;
    BareIsAccepted(loc, typed, scheme);
  }

  lemma {:induction false} SchemePrefixes(scheme: Wide, number: Wide)
    requires SchemeOk(scheme) && Dialled(number)
    ensures var typed := scheme + number;
            (SIP_PREFIX <= typed <==> scheme == SIP_PREFIX) && (SIPS_PREFIX <= typed <==> scheme == SIPS_PREFIX)
  {
    var typed := scheme + number;
    assert forall i :: |scheme| <= i < |typed| ==> typed[i] != COLON;
    if SIP_PREFIX <= typed { assert typed[3] == COLON; }
    if SIPS_PREFIX <= typed { assert typed[4] == COLON && typed[3] == 115; }
    if scheme != [] { assert typed[..|scheme|] == scheme; }
  }

  lemma {:induction false} RoutedIsChecked(loc: Locale, number: Wide, a: SipAccount)
    requires Dialled(number) && AccountConfigValid(a, if a.useTls then VALIDATED_CA else [])
    ensures var uri := RoutedParts(number, a).Text() + AccountSuffix(a);
            FinalCheck(uri) == (if |uri| > 512 then Reject(TooLong) else DestinationResult(Accepted, uri)) && uri != []
  {
    RoutedPartsOk(loc, number, a);
    var p, suffix := RoutedParts(number, a), AccountSuffix(a);
    TextUser(p);
    SchemeStart(p, suffix);
    var uri, at := p.Text() + suffix, |p.scheme| + |p.user|;
    assert uri[..at] == p.Text()[..at] && uri[at] == p.Text()[at];
    IndexOfUnique(uri, AT, at);
    UserRange(p, uri);
    hide AccountConfigValid, PartsOk, HostGrammar, IndexOf;
  }
}
