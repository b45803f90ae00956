// What each refusal of a typed destination means.
module SipRefusals {
  import opened Common
  import opened SipHost
  import opened SipAddress

  // The first colon of a text stands behind something else than a scheme.
  predicate ForeignScheme(input: Wide, k: int) {
    0 <= k < |input| && input[k] == COLON && COLON !in input[..k] && input[..k] != SIP_NAME && input[..k] != SIPS_NAME
  }

  // The refusals of a text as a whole.
  lemma WholeTextRefusals(loc: Locale, input: Wide)
    ensures var e := Address(loc, input).error;
            && (e == EmptyAddress <==> input == [])
            && (e == Whitespace <==> exists i :: 0 <= i < |input| && (loc.IsSpace(input[i]) || loc.IsControl(input[i])))
            && (e == InvalidScheme <==> Clean(loc, input) && exists k :: ForeignScheme(input, k))
  {
    hide UserPart;
    var colon := IndexOf(input, COLON);
    NotAboutTheWhole(loc, if colon < |input| then input[colon + 1..] else input, input);
    if k :| ForeignScheme(input, k) {
      IndexOfUnique(input, COLON, k);
    }
    if colon < |input| && input[..colon] != SIP_NAME && input[..colon] != SIPS_NAME {
      assert ForeignScheme(input, colon);
    }
  }

  lemma NotAboutTheWhole(loc: Locale, value: Wide, input: Wide)
    ensures UserPart(loc, value, input).error !in {EmptyAddress, Whitespace, InvalidScheme}
  {
  }

  // A text with its scheme, if any, and one at sign, in which the host ends where
  // its port begins: what is wrong with it is what is wrong with that part.
  predicate Pieces(loc: Locale, p: Parts) {
    && SchemeOk(p.scheme) && Clean(loc, p.Text()) && AT !in p.user && AT !in p.host + p.port
    && COLON !in p.host && (p.port == [] || p.port[0] == COLON)
    && (p.scheme == [] ==> COLON !in p.user && p.port == [])
  }

  lemma {:induction false} PartRefusals(loc: Locale, p: Parts)
    requires Pieces(loc, p)
    ensures Address(loc, p.Text()).error ==
            if !NoForbidden(p.Value()) then InvalidUser
            else if p.user == [] || !HostGrammar(p.host) then InvalidHost
            else if p.port != [] && !PortGrammar(p.port[1..]) then InvalidPort
            else NoError
  {
    AfterScheme(p);
    assert AT in p.Value() && p.Text() != [] by { assert p.Value()[|p.user|] == AT; }
    ValueRefusals(loc, p, p.Text());
    hide UserPart, Clean, HostGrammar, PortGrammar, IndexOf, NoForbidden;
  }

  lemma {:induction false} ValueRefusals(loc: Locale, p: Parts, input: Wide)
    requires AT !in p.user && AT !in p.host + p.port && COLON !in p.host && (p.port == [] || p.port[0] == COLON)
    ensures UserPart(loc, p.Value(), input).error ==
            if !NoForbidden(p.Value()) then InvalidUser
            else if p.user == [] || !HostGrammar(p.host) then InvalidHost
            else if p.port != [] && !PortGrammar(p.port[1..]) then InvalidPort
            else NoError
  {
    var value, tail := p.Value(), p.host + p.port;
    ValueSplits(p);
    EmptyIsNoHost();
    assert |value| == |p.user| + 1 + |tail|;
    HostRefusals(p, if COLON in input then input else SIP_PREFIX + value);
    hide HostPart, HostGrammar, PortGrammar, NoForbidden, IndexOf;
    assert tail == [] ==> p.host == [];
  }

  lemma {:induction false} HostRefusals(p: Parts, normalized: Wide)
    requires COLON !in p.host && (p.port == [] || p.port[0] == COLON)
    ensures HostPart(p.host + p.port, normalized).error ==
            if !HostGrammar(p.host) then InvalidHost
            else if p.port != [] && !PortGrammar(p.port[1..]) then InvalidPort
            else NoError
  {
    HostEnds(p);
    hide HostGrammar, PortGrammar, IndexOf;
  }

  lemma EmptyIsNoHost()
    ensures !HostGrammar([])
  {
  }

  lemma {:induction false} AfterScheme(p: Parts)
    requires SchemeOk(p.scheme) && COLON !in p.host && (p.scheme == [] ==> COLON !in p.user && p.port == [])
    ensures var colon := IndexOf(p.Text(), COLON);
            && (p.scheme == [] ==> colon == |p.Text()| && p.Text() == p.Value())
            && (p.scheme != [] ==> colon == |p.scheme| - 1 && p.Text()[colon + 1..] == p.Value())
            && (p.scheme != [] ==> p.Text()[..colon] == SIP_NAME || p.Text()[..colon] == SIPS_NAME)
  {
    if p.scheme == [] {
      assert COLON !in p.Value();
      assert p.Text() == p.Value();
    } else {
      SchemeColon(p.scheme, p.Value());
      assert SIP_PREFIX[..3] == SIP_NAME && SIPS_PREFIX[..4] == SIPS_NAME;
    }
  }

  lemma {:induction false} HostEnds(p: Parts)
    requires COLON !in p.host && (p.port == [] || p.port[0] == COLON)
    ensures var tail := p.host + p.port;
            var colon := IndexOf(tail, COLON);
            && colon == |p.host| && tail[..colon] == p.host && (colon < |tail| <==> p.port != [])
            && (p.port != [] ==> tail[colon + 1..] == p.port[1..])
  {
    var tail := p.host + p.port;
    assert tail[..|p.host|] == p.host;
    if p.port == [] {
      assert tail == p.host;
    } else {
      IndexOfUnique(tail, COLON, |p.host|);
    }
  }

  // Without an at sign: anything but a number is an invalid user.
  lemma {:induction false} NumberRefusals(loc: Locale, scheme: Wide, value: Wide)
    requires SchemeOk(scheme) && Clean(loc, scheme + value) && scheme + value != [] && AT !in value
    requires scheme == [] ==> COLON !in value
    ensures Address(loc, scheme + value).error ==
            if value != [] && DialString(loc, value) && NoForbidden(value) then NoError else InvalidUser
  {
    var input := scheme + value;
    if scheme == [] {
      assert input == value;
    } else {
      SchemeColon(scheme, value);
      assert SIP_PREFIX[..3] == SIP_NAME && SIPS_PREFIX[..4] == SIPS_NAME;
      assert input[|scheme|..] == value;
    }
    hide Clean, NoForbidden, DialString;
  }
}
