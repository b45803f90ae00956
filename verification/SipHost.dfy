// The host automaton, against the label-by-label host grammar of section 2.1
// of RFC 1123 with the length limits of section 2.3.4 of RFC 1035.
module SipHost {
  import opened Common

  const DOT: Wchar := 46
  const HYPHEN: Wchar := 45

  predicate IsDecimal(c: int) {
    48 <= c <= 57
  }

  predicate IsAlnum(c: int) {
    97 <= c <= 122 || 65 <= c <= 90 || IsDecimal(c)
  }

  // The labels of a dotted text, cut at every dot.
  function SplitDots(text: Wide): (r: seq<Wide>)
    ensures |r| >= 1
  {
    if text == [] then [[]]
    else
      var front := SplitDots(text[..|text| - 1]);
      var c := text[|text| - 1];
      if c == DOT then front + [[]] else front[..|front| - 1] + [front[|front| - 1] + [c]]
  }

  function JoinDots(labels: seq<Wide>): Wide
    requires |labels| >= 1
  {
    if |labels| == 1 then labels[0]
    else JoinDots(labels[..|labels| - 1]) + [DOT] + labels[|labels| - 1]
  }

  lemma JoinAppendDot(labels: seq<Wide>)
    requires |labels| >= 1
    ensures JoinDots(labels + [[]]) == JoinDots(labels) + [DOT]
  {
    var all := labels + [[]];
    assert all[..|all| - 1] == labels;
    assert JoinDots(labels) + [DOT] + [] == JoinDots(labels) + [DOT];
  }

  lemma JoinExtend(labels: seq<Wide>, c: Wchar)
    requires |labels| >= 1
    ensures JoinDots(labels[..|labels| - 1] + [labels[|labels| - 1] + [c]]) == JoinDots(labels) + [c]
  {
    var init, last := labels[..|labels| - 1], labels[|labels| - 1];
    var all := init + [last + [c]];
    assert all[..|all| - 1] == init;
    if |labels| > 1 {
      assert JoinDots(init) + [DOT] + (last + [c]) == JoinDots(init) + [DOT] + last + [c];
    }
  }

  // The labels are dot-free pieces that join back to the text.
  lemma {:induction false} SplitDotsIsSplit(text: Wide)
    ensures JoinDots(SplitDots(text)) == text
    ensures forall i :: 0 <= i < |SplitDots(text)| ==> DOT !in SplitDots(text)[i]
  {
    if text != [] {
      var init, c := text[..|text| - 1], text[|text| - 1];
      SplitDotsIsSplit(init);
      assert text == init + [c];
      if c == DOT {
        JoinAppendDot(SplitDots(init));
      } else {
        JoinExtend(SplitDots(init), c);
      }
    }
  }

  predicate DotFree(labels: seq<Wide>) {
    forall i :: 0 <= i < |labels| ==> DOT !in labels[i]
  }

  // And they are the only ones: no other dot-free pieces join to the same text.
  lemma {:induction false} SplitIsUnique(labels: seq<Wide>)
    requires |labels| >= 1 && DotFree(labels)
    ensures SplitDots(JoinDots(labels)) == labels
    decreases |labels|, |labels[|labels| - 1]|
  {
    var init, last := labels[..|labels| - 1], labels[|labels| - 1];
    if last != [] {
      var c := last[|last| - 1];
      var shorter := init + [last[..|last| - 1]];
      assert last == last[..|last| - 1] + [c];
      assert shorter[..|init|] == init && labels == init + [last[..|last| - 1] + [c]];
      JoinExtend(shorter, c);
      SplitIsUnique(shorter);
    } else if |labels| > 1 {
      assert labels == init + [[]];
      JoinAppendDot(init);
      SplitIsUnique(init);
    }
  }

  predicate LabelChars(piece: Wide) {
    && |piece| <= 63
    && (piece != [] ==> IsAlnum(piece[0]))
    && forall i :: 0 <= i < |piece| ==> IsAlnum(piece[i]) || piece[i] == HYPHEN
  }

  predicate IsLabel(piece: Wide) {
    piece != [] && LabelChars(piece) && IsAlnum(piece[|piece| - 1])
  }

  predicate HostGrammar(host: Wide) {
    && 1 <= |host| <= 253
    && forall i :: 0 <= i < |SplitDots(host)| ==> IsLabel(SplitDots(host)[i])
  }

  // A finished label that is bad stays bad in every longer host.
  lemma {:induction false} BadLabelStays(text: Wide, k: nat)
    requires k <= |text|
    requires exists i :: 0 <= i < |SplitDots(text[..k])| - 1 && !IsLabel(SplitDots(text[..k])[i])
    ensures exists i :: 0 <= i < |SplitDots(text)| - 1 && !IsLabel(SplitDots(text)[i])
    decreases |text|
  {
    if k == |text| {
      assert text[..k] == text;
    } else {
      var init := text[..|text| - 1];
      assert init[..k] == text[..k];
      BadLabelStays(init, k);
      var i :| 0 <= i < |SplitDots(init)| - 1 && !IsLabel(SplitDots(init)[i]);
      assert SplitDots(text)[i] == SplitDots(init)[i];
    }
  }

  // A last label that already broke the character or length rule stays broken.
  lemma {:induction false} HopelessLabelStays(text: Wide, k: nat)
    requires k <= |text|
    requires !LabelChars(Last(text[..k]))
    ensures exists i :: 0 <= i < |SplitDots(text)| && !LabelChars(SplitDots(text)[i])
    decreases |text|
  {
    if k == |text| {
      assert text[..k] == text;
    } else {
      var init := text[..|text| - 1];
      assert init[..k] == text[..k];
      HopelessLabelStays(init, k);
      var front := SplitDots(init);
      var i :| 0 <= i < |front| && !LabelChars(front[i]);
      var all := SplitDots(text);
      if i < |front| - 1 || text[|text| - 1] == DOT {
        assert all[i] == front[i];
      } else {
        assert all[i] == front[i] + [text[|text| - 1]];
        assert all[i][..|front[i]|] == front[i];
        assert forall j :: 0 <= j < |front[i]| ==> all[i][j] == front[i][j];
      }
    }
  }

  function Last(text: Wide): Wide {
    SplitDots(text)[|SplitDots(text)| - 1]
  }

  // Appending one character to a text whose finished labels are good.
  lemma SplitStep(text: Wide, i: nat)
    requires i < |text|
    ensures text[i] == DOT ==> SplitDots(text[..i + 1]) == SplitDots(text[..i]) + [[]]
    ensures text[i] != DOT ==>
            && |SplitDots(text[..i + 1])| == |SplitDots(text[..i])|
            && Last(text[..i + 1]) == Last(text[..i]) + [text[i]]
            && forall j :: 0 <= j < |SplitDots(text[..i])| - 1 ==> SplitDots(text[..i + 1])[j] == SplitDots(text[..i])[j]
  {
    assert text[..i + 1][..i] == text[..i];
  }

  lemma FinishedStep(text: Wide, i: nat)
    requires i < |text| && FinishedOk(SplitDots(text[..i]))
    requires text[i] == DOT ==> IsLabel(Last(text[..i]))
    ensures FinishedOk(SplitDots(text[..i + 1]))
  {
    SplitStep(text, i);
    hide IsLabel, SplitDots;
    var front, all := SplitDots(text[..i]), SplitDots(text[..i + 1]);
    forall j | 0 <= j < |all| - 1 ensures IsLabel(all[j]) {
      assert all[j] == front[j];
      if j < |front| - 1 { assert IsLabel(front[j]); }
    }
  }

  predicate FinishedOk(labels: seq<Wide>) {
    forall j :: 0 <= j < |labels| - 1 ==> IsLabel(labels[j])
  }

  lemma EmptySplit(text: Wide)
    ensures SplitDots(text[..0]) == [[]] && LabelChars([])
  {
    assert text[..0] == [];
  }

  // When one more character keeps a label within the rules.
  lemma LabelStep(part: Wide, c: Wchar)
    requires LabelChars(part)
    ensures LabelChars(part + [c]) <==> |part| < 63 && (IsAlnum(c) || (c == HYPHEN && part != []))
    ensures (part + [c])[|part|] == c
  {
    var longer := part + [c];
    assert forall i :: 0 <= i < |part| ==> longer[i] == part[i];
    assert longer[|part|] == c;
  }

  method ValidSipHost(host: Wide) returns (ok: bool)
    ensures ok == HostGrammar(host)
  {
    if |host| == 0 || |host| > 253 { return false; }
    EmptySplit(host);
    hide SplitDots, LabelChars;
    var length: nat := 0;
    var lastAlnum := false;
    for i := 0 to |host|
      invariant length == |Last(host[..i])| && LabelChars(Last(host[..i]))
      invariant lastAlnum == (length > 0 && IsAlnum(Last(host[..i])[length - 1]))
      invariant FinishedOk(SplitDots(host[..i]))
    {
      var c := host[i];
      var alnum := IsAlnum(c);
      SplitStep(host, i);
      LabelStep(Last(host[..i]), c);
      if c == DOT {
        if length == 0 || !lastAlnum {
          assert !IsLabel(SplitDots(host[..i + 1])[|SplitDots(host[..i])| - 1]);
          BadLabelStays(host, i + 1);
          return false;
        }
        FinishedStep(host, i);
        length := 0;
        lastAlnum := false;
      } else {
        FinishedStep(host, i);
        if !alnum && (c != HYPHEN || length == 0) {
          HopelessLabelStays(host, i + 1);
          return false;
        }
        length := length + 1;
        if length > 63 {
          HopelessLabelStays(host, i + 1);
          return false;
        }
        lastAlnum := alnum;
      }
    }
    assert host[..|host|] == host;
    return length > 0 && lastAlnum;
  }

  lemma {:induction false} CharacterInLabel(text: Wide, i: nat) returns (j: nat, k: nat)
    requires i < |text| && text[i] != DOT
    ensures j < |SplitDots(text)| && k < |SplitDots(text)[j]| && SplitDots(text)[j][k] == text[i]
    decreases |text|
  {
    var init := text[..|text| - 1];
    var front := SplitDots(init);
    if i == |text| - 1 {
      j := |front| - 1;
      k := |front[j]|;
    } else {
      j, k := CharacterInLabel(init, i);
    }
  }

  // No accepted host holds a character that could end it inside a SIP URI.
  lemma HostCharacters(host: Wide)
    requires HostGrammar(host)
    ensures forall i :: 0 <= i < |host| ==> IsAlnum(host[i]) || host[i] == HYPHEN || host[i] == DOT
  {
    forall i | 0 <= i < |host| ensures IsAlnum(host[i]) || host[i] == HYPHEN || host[i] == DOT {
      if host[i] != DOT {
        var j, k := CharacterInLabel(host, i);
        assert IsLabel(SplitDots(host)[j]);
      }
    }
  }
}
