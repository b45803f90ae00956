// One always-quoted Windows command-line argument, and the Microsoft C runtime
// rule that takes it apart again.
module WindowsQuote {
  import opened Common

  const BACKSLASH: Wchar := 92
  const QUOTE: Wchar := 34
  const SPACE: Wchar := 32
  const TAB: Wchar := 9

  function Slashes(n: nat): (r: Wide)
    ensures |r| == n && forall i :: 0 <= i < n ==> r[i] == BACKSLASH
  {
    seq(n, _ => BACKSLASH)
  }

  // What is still to be emitted, without the opening quote, when n backslashes
  // of the value have been read but not yet written.
  function QuotedTail(value: Wide, n: nat): Wide {
    if value == [] then Slashes(2 * n) + [QUOTE]
    else if value[0] == BACKSLASH then QuotedTail(value[1..], n + 1)
    else Slashes(if value[0] == QUOTE then 2 * n + 1 else n) + [value[0]] + QuotedTail(value[1..], 0)
  }

  function Quoted(value: Wide): Wide {
    [QUOTE] + QuotedTail(value, 0)
  }

  method QuoteWindowsArgument(value: Wide) returns (quoted: Wide)
    ensures quoted == Quoted(value)
  {
    quoted := [QUOTE];
    var slashes: nat := 0;
    for i := 0 to |value|
      invariant quoted + QuotedTail(value[i..], slashes) == Quoted(value)
    {
      var c := value[i];
      assert value[i..][1..] == value[i + 1..];
      if c == BACKSLASH {
        slashes := slashes + 1;
        continue;
      }
      ghost var before := quoted + QuotedTail(value[i..], slashes);
      var run := Slashes(if c == QUOTE then slashes * 2 + 1 else slashes);
      quoted := quoted + run;
      quoted := quoted + [c];
      slashes := 0;
      assert quoted + QuotedTail(value[i + 1..], 0) == before;
    }
    assert value[|value|..] == [];
    quoted := quoted + Slashes(slashes * 2);
    quoted := quoted + [QUOTE];
  }

  // --- The reader: how the Microsoft C runtime splits argv[1..] -----------

  predicate Blank(c: Wchar) {
    c == SPACE || c == TAB
  }

  function LeadingSlashes(s: Wide): (n: nat)
    ensures n <= |s|
    ensures s[..n] == Slashes(n)
    ensures n < |s| ==> s[n] != BACKSLASH
  {
    if s == [] || s[0] != BACKSLASH then 0
    else
      var k := LeadingSlashes(s[1..]);
      assert s[..k + 1] == [s[0]] + s[1..][..k];
      k + 1
  }

  datatype Argument = Argument(text: Wide, rest: Wide) {
    function Prefix(t: Wide): Argument { this.(text := t + text) }
  }

  // Reads one argument. A run of backslashes is halved when a quote follows it,
  // and an odd one makes that quote literal; a doubled quote inside a quoted
  // part is one literal quote; blanks end the argument outside quotes.
  function ParseArgument(s: Wide, inQuotes: bool): (r: Argument)
    ensures |r.rest| <= |s|
    ensures s != [] && !Blank(s[0]) ==> |r.rest| < |s|
    decreases |s|
  {
    var n := LeadingSlashes(s);
    if n == |s| then Argument(Slashes(n), [])
    else if s[n] == QUOTE then
      if n % 2 == 1 then
        ParseArgument(s[n + 1..], inQuotes).Prefix(Slashes(n / 2) + [QUOTE])
      else if inQuotes && n + 1 < |s| && s[n + 1] == QUOTE then
        ParseArgument(s[n + 2..], true).Prefix(Slashes(n / 2) + [QUOTE])
      else
        ParseArgument(s[n + 1..], !inQuotes).Prefix(Slashes(n / 2))
    else if !inQuotes && Blank(s[n]) then Argument(Slashes(n), s[n..])
    else ParseArgument(s[n + 1..], inQuotes).Prefix(Slashes(n) + [s[n]])
  }

  function ParseArguments(s: Wide): seq<Wide>
    decreases |s|
  {
    if s == [] then []
    else if Blank(s[0]) then ParseArguments(s[1..])
    else
      var a := ParseArgument(s, false);
      [a.text] + ParseArguments(a.rest)
  }

  predicate Ends(rest: Wide) {
    rest == [] || Blank(rest[0])
  }

  lemma {:induction false} LeadingSlashesOfRun(n: nat, t: Wide)
    requires t == [] || t[0] != BACKSLASH
    ensures LeadingSlashes(Slashes(n) + t) == n
  {
    if n > 0 {
      assert (Slashes(n) + t)[1..] == Slashes(n - 1) + t;
      LeadingSlashesOfRun(n - 1, t);
    } else {
      assert Slashes(n) + t == t;
    }
  }

  lemma NothingMore(rest: Wide)
    requires Ends(rest)
    ensures ParseArgument(rest, false) == Argument([], rest)
  {
    LeadingSlashesOfRun(0, rest);
    assert Slashes(0) + rest == rest;
  }

  lemma RunThenQuote(n: nat, later: Wide)
    ensures var s := Slashes(n) + [QUOTE] + later;
            LeadingSlashes(s) == n && s[n] == QUOTE && s[n + 1..] == later
  {
    hide LeadingSlashes;
    var s := Slashes(n) + [QUOTE] + later;
    assert s == Slashes(n) + ([QUOTE] + later);
    LeadingSlashesOfRun(n, [QUOTE] + later);
  }

  // An even run before a quote that is not doubled closes the quoted part.
  lemma ClosingQuote(n: nat, rest: Wide)
    requires Ends(rest)
    ensures ParseArgument(Slashes(2 * n) + [QUOTE] + rest, true) == Argument(Slashes(n), rest)
  {
    var s := Slashes(2 * n) + [QUOTE] + rest;
    RunThenQuote(2 * n, rest);
    NothingMore(rest);
    hide LeadingSlashes;
    assert 2 * n + 1 < |s| ==> s[2 * n + 1] == rest[0];
    assert ParseArgument(s, true) == ParseArgument(rest, false).Prefix(Slashes(n));
    assert Slashes(n) + [] == Slashes(n);
  }

  // An odd run before a quote keeps half of it and makes the quote literal.
  lemma LiteralQuote(n: nat, later: Wide)
    ensures ParseArgument(Slashes(2 * n + 1) + [QUOTE] + later, true)
         == ParseArgument(later, true).Prefix(Slashes(n) + [QUOTE])
  {
    var k := 2 * n + 1;
    RunThenQuote(k, later);
    hide LeadingSlashes;
    assert k % 2 == 1 && k / 2 == n;
  }

  // Before anything but a quote backslashes stand for themselves.
  lemma {:induction false} LiteralCharacter(n: nat, c: Wchar, later: Wide)
    requires c != QUOTE && c != BACKSLASH
    ensures ParseArgument(Slashes(n) + [c] + later, true)
         == ParseArgument(later, true).Prefix(Slashes(n) + [c])
  {
    var s := Slashes(n) + [c] + later;
    assert s == Slashes(n) + ([c] + later);
    LeadingSlashesOfRun(n, [c] + later);
    assert s[n + 1..] == later;
  }

  lemma TailStep(value: Wide, n: nat, rest: Wide)
    requires value != [] && value[0] != BACKSLASH
    ensures QuotedTail(value, n) + rest
         == Slashes(if value[0] == QUOTE then 2 * n + 1 else n) + [value[0]] + (QuotedTail(value[1..], 0) + rest)
  {
  }

  // The quoting of what remains is read back, whatever follows it.
  lemma {:induction false} TailRoundTrip(value: Wide, n: nat, rest: Wide)
    requires Ends(rest)
    ensures ParseArgument(QuotedTail(value, n) + rest, true) == Argument(Slashes(n) + value, rest)
    decreases |value|
  {
    if value == [] {
      ClosingQuote(n, rest);
      assert Slashes(n) + value == Slashes(n);
    } else if value[0] == BACKSLASH {
      TailRoundTrip(value[1..], n + 1, rest);
      assert Slashes(n + 1) + value[1..] == Slashes(n) + value;
    } else {
      var c := value[0];
      var later := QuotedTail(value[1..], 0) + rest;
      TailRoundTrip(value[1..], 0, rest);
      assert Slashes(0) + value[1..] == value[1..];
      assert (Slashes(n) + [c]) + value[1..] == Slashes(n) + value;
      TailStep(value, n, rest);
      if c == QUOTE { LiteralQuote(n, later); } else { LiteralCharacter(n, c, later); }
    }
  }

  // Reading back a quoted argument yields exactly the value, and leaves what
  // was appended after a blank untouched.
  lemma QuoteRoundTrip(value: Wide, rest: Wide)
    requires Ends(rest)
    ensures ParseArgument(Quoted(value) + rest, false) == Argument(value, rest)
  {
    var s := Quoted(value) + rest;
    LeadingSlashesOfRun(0, s);
    assert Slashes(0) + s == s;
    assert s[1..] == QuotedTail(value, 0) + rest;
    TailRoundTrip(value, 0, rest);
    assert Slashes(0) + (Slashes(0) + value) == value;
  }

  function CommandTail(values: seq<Wide>): Wide {
    if values == [] then [] else [SPACE] + Quoted(values[0]) + CommandTail(values[1..])
  }

  // A whole command tail of quoted arguments is split into exactly those values.
  lemma {:induction false} CommandTailRoundTrip(values: seq<Wide>)
    ensures ParseArguments(CommandTail(values)) == values
    decreases |values|
  {
    if values != [] {
      var rest := CommandTail(values[1..]);
      var s := Quoted(values[0]) + rest;
      assert CommandTail(values) == [SPACE] + s;
      assert CommandTail(values)[1..] == s;
      QuoteRoundTrip(values[0], rest);
      CommandTailRoundTrip(values[1..]);
      assert s[0] == QUOTE;
    }
  }

  // Outside quotes a plain character is copied.
  lemma PlainCharacter(c: Wchar, later: Wide)
    requires c != QUOTE && c != BACKSLASH && !Blank(c)
    ensures ParseArgument([c] + later, false) == ParseArgument(later, false).Prefix([c])
  {
    var s := [c] + later;
    assert Slashes(0) + s == s;
    LeadingSlashesOfRun(0, s);
    assert s[1..] == later;
    assert Slashes(0) + [c] == [c];
  }

  const PROFILE_SWITCH: Wide := [45, 102]   // "-f"

  // What the process launcher appends after the program name: " -f " and the
  // quoted profile directory.
  lemma ProfileOptionRoundTrip(profile: Wide)
    ensures ParseArguments([SPACE] + PROFILE_SWITCH + [SPACE] + Quoted(profile))
         == [PROFILE_SWITCH, profile]
  {
    var last := [SPACE] + Quoted(profile);
    var s := [SPACE] + PROFILE_SWITCH + [SPACE] + Quoted(profile);
    assert s[1..] == [45] + ([102] + last);
    assert ParseArgument(last, false) == Argument([], last) by {
      LeadingSlashesOfRun(0, last);
      assert Slashes(0) + last == last;
    }
    PlainCharacter(102, last);
    PlainCharacter(45, [102] + last);
    assert [45] + ([102] + []) == PROFILE_SWITCH;
    assert CommandTail([profile]) == last;
    CommandTailRoundTrip([profile]);
    assert ParseArguments(s) == ParseArguments(s[1..]);
  }

  // Distinct values never quote to the same text.
  lemma QuotingIsInjective(a: Wide, b: Wide)
    requires Quoted(a) == Quoted(b)
    ensures a == b
  {
    QuoteRoundTrip(a, []);
    QuoteRoundTrip(b, []);
  }
}
