// UTF-8 and UTF-16 as the contact backup writes and reads them.
module Utf8 {
  import opened Common

  const QUOTE: Byte := 34
  const BACKSLASH: Byte := 92

  predicate Scalar(cp: int) {
    0 <= cp <= 0x10FFFF && !(0xD800 <= cp <= 0xDFFF)
  }

  // --- UTF-8 -----------------------------------------------------------------

  function Encode(cp: nat): (r: Bytes)
    requires cp <= 0x10FFFF
    ensures 1 <= |r| <= 4
  {
    if cp < 0x80 then [cp]
    else if cp < 0x800 then [0xC0 + cp / 64, 0x80 + cp % 64]
    else if cp < 0x10000 then [0xE0 + cp / 4096, 0x80 + cp / 64 % 64, 0x80 + cp % 64]
    else [0xF0 + cp / 262144, 0x80 + cp / 4096 % 64, 0x80 + cp / 64 % 64, 0x80 + cp % 64]
  }

  datatype Parsed<+T> = Bad | Good(value: T, next: nat)

  predicate IsTail(c: Byte) {
    0x80 <= c <= 0xBF
  }

  // Reads count continuation bytes into cp.
  function Continuation(input: Bytes, pos: nat, count: nat, cp: nat): (r: Parsed<nat>)
    requires pos <= |input|
    ensures r.Good? ==> r.next == pos + count <= |input|
    decreases count
  {
    if count == 0 then Good(cp, pos)
    else if pos == |input| || !IsTail(input[pos]) then Bad
    else Continuation(input, pos + 1, count - 1, cp * 64 + (input[pos] as int - 0x80))
  }

  datatype Lead = NoLead | Lead(count: nat, bits: nat, minimum: nat)

  function LeadByte(first: Byte): Lead {
    if 0xC2 <= first <= 0xDF then Lead(1, first - 0xC0, 0x80)
    else if 0xE0 <= first <= 0xEF then Lead(2, first - 0xE0, 0x800)
    else if 0xF0 <= first <= 0xF4 then Lead(3, first - 0xF0, 0x10000)
    else NoLead
  }

  function Decode(input: Bytes, pos: nat): (r: Parsed<nat>)
    requires pos <= |input|
    ensures r.Good? ==> pos < r.next <= |input|
  {
    if pos == |input| then Bad
    else
      var first := input[pos];
      if first < 0x80 then Good(first, pos + 1)
      else if LeadByte(first).NoLead? then Bad
      else
        var lead := LeadByte(first);
        var r := Continuation(input, pos + 1, lead.count, lead.bits);
        if r.Good? && r.value >= lead.minimum && Scalar(r.value) then r else Bad
  }

  // The ABNF of section 4 of RFC 3629.
  predicate Rfc3629Char(b: Bytes) {
    || (|b| == 1 && b[0] <= 0x7F)
    || (|b| == 2 && 0xC2 <= b[0] <= 0xDF && IsTail(b[1]))
    || (|b| == 3 && IsTail(b[2]) && (
        || (b[0] == 0xE0 && 0xA0 <= b[1] <= 0xBF)
        || (0xE1 <= b[0] <= 0xEC && IsTail(b[1]))
        || (b[0] == 0xED && 0x80 <= b[1] <= 0x9F)
        || (0xEE <= b[0] <= 0xEF && IsTail(b[1]))))
    || (|b| == 4 && IsTail(b[2]) && IsTail(b[3]) && (
        || (b[0] == 0xF0 && 0x90 <= b[1] <= 0xBF)
        || (0xF1 <= b[0] <= 0xF3 && IsTail(b[1]))
        || (b[0] == 0xF4 && 0x80 <= b[1] <= 0x8F)))
  }

  // piece stands in the input at pos.
  predicate At(input: Bytes, pos: nat, piece: Bytes) {
    pos + |piece| <= |input| && input[pos..pos + |piece|] == piece
  }

  lemma AtConcat(input: Bytes, pos: nat, a: Bytes, b: Bytes)
    ensures At(input, pos, a + b) <==> At(input, pos, a) && At(input, pos + |a|, b)
  {
    if pos + |a| + |b| <= |input| {
      var s := input[pos..pos + |a| + |b|];
      assert s[..|a|] == input[pos..pos + |a|];
      assert s[|a|..] == input[pos + |a|..pos + |a| + |b|];
      assert s == s[..|a|] + s[|a|..];
      assert (a + b)[..|a|] == a && (a + b)[|a|..] == b;
    }
  }

  lemma AtIndex(input: Bytes, pos: nat, piece: Bytes, i: nat)
    requires At(input, pos, piece) && i < |piece|
    ensures input[pos + i] == piece[i]
  {
    assert input[pos..pos + |piece|][i] == piece[i];
  }

  // The payload of a tail byte.
  function Low(c: Byte): nat
    requires IsTail(c)
  {
    c as int - 0x80
  }

  lemma ThreeDigits(x: nat, y: nat, z: nat)
    requires y < 64 && z < 64
    ensures var v := x * 4096 + y * 64 + z; v / 4096 == x && v / 64 % 64 == y && v % 64 == z
  {
    var v := x * 4096 + y * 64 + z;
    assert v / 64 == x * 64 + y;
  }

  lemma FourDigits(w: nat, x: nat, y: nat, z: nat)
    requires x < 64 && y < 64 && z < 64
    ensures var v := w * 262144 + x * 4096 + y * 64 + z;
            v / 262144 == w && v / 4096 % 64 == x && v / 64 % 64 == y && v % 64 == z
  {
    var v := w * 262144 + x * 4096 + y * 64 + z;
    assert v / 64 == w * 4096 + x * 64 + y;
    assert v / 4096 == w * 64 + x;
  }

  lemma TwoTails(input: Bytes, pos: nat, x: nat)
    requires pos + 2 <= |input| && IsTail(input[pos]) && IsTail(input[pos + 1])
    ensures Continuation(input, pos, 2, x)
         == Good(x * 4096 + Low(input[pos]) * 64 + Low(input[pos + 1]), pos + 2)
  {
    var c := x * 64 + Low(input[pos]);
    assert Continuation(input, pos + 1, 1, c) == Continuation(input, pos + 2, 0, c * 64 + Low(input[pos + 1]));
  }

  lemma ThreeTails(input: Bytes, pos: nat, w: nat)
    requires pos + 3 <= |input| && IsTail(input[pos]) && IsTail(input[pos + 1]) && IsTail(input[pos + 2])
    ensures Continuation(input, pos, 3, w)
         == Good(w * 262144 + Low(input[pos]) * 4096 + Low(input[pos + 1]) * 64 + Low(input[pos + 2]), pos + 3)
  {
    TwoTails(input, pos + 1, w * 64 + Low(input[pos]));
  }

  // What the decoder computes from two, three and four bytes, and that the
  // encoder writes those bytes for it.
  lemma DecodeTwo(input: Bytes, pos: nat)
    requires pos + 2 <= |input| && 0xC2 <= input[pos] <= 0xDF && IsTail(input[pos + 1])
    ensures var v := (input[pos] as int - 0xC0) * 64 + Low(input[pos + 1]);
            Decode(input, pos) == Good(v, pos + 2) && Scalar(v) && Encode(v) == [input[pos], input[pos + 1]]
  {
    var v := (input[pos] as int - 0xC0) * 64 + Low(input[pos + 1]);
    assert Continuation(input, pos + 2, 0, v) == Good(v, pos + 2);
  }

  lemma DecodeThree(input: Bytes, pos: nat)
    requires pos + 3 <= |input| && 0xE0 <= input[pos] <= 0xEF && IsTail(input[pos + 1]) && IsTail(input[pos + 2])
    ensures var v := (input[pos] as int - 0xE0) * 4096 + Low(input[pos + 1]) * 64 + Low(input[pos + 2]);
            && Decode(input, pos) == (if v >= 0x800 && Scalar(v) then Good(v, pos + 3) else Bad)
            && v <= 0x10FFFF
            && (v >= 0x800 ==> Encode(v) == [input[pos], input[pos + 1], input[pos + 2]])
  {
    var x, y, z := input[pos] as int - 0xE0, Low(input[pos + 1]), Low(input[pos + 2]);
    TwoTails(input, pos + 1, x);
    ThreeDigits(x, y, z);
  }

  lemma {:induction false} DecodeFour(input: Bytes, pos: nat)
    requires pos + 4 <= |input| && 0xF0 <= input[pos] <= 0xF4
    requires IsTail(input[pos + 1]) && IsTail(input[pos + 2]) && IsTail(input[pos + 3])
    ensures var v := (input[pos] as int - 0xF0) * 262144 + Low(input[pos + 1]) * 4096
                   + Low(input[pos + 2]) * 64 + Low(input[pos + 3]);
            && Decode(input, pos) == (if v >= 0x10000 && Scalar(v) then Good(v, pos + 4) else Bad)
            && (0x10000 <= v <= 0x10FFFF ==> Encode(v) == [input[pos], input[pos + 1], input[pos + 2], input[pos + 3]])
  {
    var w, x, y, z := input[pos] as int - 0xF0, Low(input[pos + 1]), Low(input[pos + 2]), Low(input[pos + 3]);
    ThreeTails(input, pos + 1, w);
    FourDigits(w, x, y, z);
  }

  lemma Recompose(cp: nat)
    ensures cp == cp / 64 * 64 + cp % 64
    ensures cp == cp / 4096 * 4096 + cp / 64 % 64 * 64 + cp % 64
    ensures cp == cp / 262144 * 262144 + cp / 4096 % 64 * 4096 + cp / 64 % 64 * 64 + cp % 64
  {
    assert cp / 64 / 64 == cp / 4096;
    assert cp / 4096 / 64 == cp / 262144;
  }

  // Reading what was written gives the code point back, wherever it stands.
  lemma {:induction false} DecodeInvertsEncode(input: Bytes, pos: nat, cp: nat)
    requires Scalar(cp) && At(input, pos, Encode(cp))
    ensures Decode(input, pos) == Good(cp, pos + |Encode(cp)|)
  {
    var e := Encode(cp);
    Recompose(cp);
    AtIndex(input, pos, e, 0);
    if |e| == 2 {
      AtIndex(input, pos, e, 1);
      DecodeTwo(input, pos);
    } else if |e| == 3 {
      AtIndex(input, pos, e, 1);
      AtIndex(input, pos, e, 2);
      DecodeThree(input, pos);
    } else if |e| == 4 {
      AtIndex(input, pos, e, 1);
      AtIndex(input, pos, e, 2);
      AtIndex(input, pos, e, 3);
      DecodeFour(input, pos);
    }
  }

  predicate WellFormedAt(input: Bytes, pos: nat, n: nat) {
    pos + n <= |input| && Rfc3629Char(input[pos..pos + n])
  }

  lemma {:induction false} WellFormedIsDecoded(input: Bytes, pos: nat, n: nat)
    requires WellFormedAt(input, pos, n)
    ensures Decode(input, pos).Good? && Decode(input, pos).next == pos + n
    ensures Scalar(Decode(input, pos).value) && Encode(Decode(input, pos).value) == input[pos..pos + n]
  {
    var b := input[pos..pos + n];
    assert b[0] == input[pos];
    if n == 2 {
      assert b[1] == input[pos + 1];
      DecodeTwo(input, pos);
    } else if n == 3 {
      assert b[1] == input[pos + 1] && b[2] == input[pos + 2];
      DecodeThree(input, pos);
    } else if n == 4 {
      assert b[1] == input[pos + 1] && b[2] == input[pos + 2] && b[3] == input[pos + 3];
      DecodeFour(input, pos);
    }
  }

  lemma DecodedIsWellFormed(input: Bytes, pos: nat)
    requires pos <= |input| && Decode(input, pos).Good?
    ensures WellFormedAt(input, pos, Decode(input, pos).next - pos)
  {
    var r := Decode(input, pos);
    var b := input[pos..r.next];
    assert forall i :: 0 <= i < |b| ==> b[i] == input[pos + i];
    var lead := LeadByte(input[pos]);
    if input[pos] >= 0x80 {
      TailsAreTails(input, pos + 1, lead.count, lead.bits);
      if lead.count == 2 {
        DecodeThree(input, pos);
      } else if lead.count == 3 {
        DecodeFour(input, pos);
      }
    }
  }

  lemma {:induction false} TailsAreTails(input: Bytes, pos: nat, count: nat, cp: nat)
    requires pos <= |input| && Continuation(input, pos, count, cp).Good?
    ensures pos + count <= |input| && forall i :: pos <= i < pos + count ==> IsTail(input[i])
    decreases count
  {
    if count > 0 {
      TailsAreTails(input, pos + 1, count - 1, cp * 64 + (input[pos] as int - 0x80));
    }
  }

  // The decoder accepts exactly the well-formed sequences of RFC 3629 - no
  // overlong form, surrogate or value above 0x10FFFF - and inverts the encoder.
  lemma {:induction false} DecodeIsRfc3629(input: Bytes, pos: nat)
    requires pos <= |input|
    ensures Decode(input, pos).Good? <==>
            exists n: nat :: WellFormedAt(input, pos, n)
    ensures Decode(input, pos).Good? ==>
            var r := Decode(input, pos); Scalar(r.value) && Encode(r.value) == input[pos..r.next]
  {
    if Decode(input, pos).Good? {
      DecodedIsWellFormed(input, pos);
      var n := Decode(input, pos).next - pos;
      WellFormedIsDecoded(input, pos, n);
    }
    if n: nat :| WellFormedAt(input, pos, n) {
      WellFormedIsDecoded(input, pos, n);
    }
  }

  // --- UTF-16 ----------------------------------------------------------------

  predicate IsHigh(u: int) { 0xD800 <= u <= 0xDBFF }
  predicate IsLow(u: int) { 0xDC00 <= u <= 0xDFFF }

  predicate WellPaired(units: Wide) {
    if units == [] then true
    else if IsHigh(units[0]) then |units| > 1 && IsLow(units[1]) && WellPaired(units[2..])
    else !IsLow(units[0]) && WellPaired(units[1..])
  }

  function Width(units: Wide): nat
    requires units != [] && WellPaired(units)
  {
    if IsHigh(units[0]) then 2 else 1
  }

  function First(units: Wide): (cp: nat)
    requires units != [] && WellPaired(units)
    ensures Scalar(cp)
  {
    if IsHigh(units[0]) then 0x10000 + (units[0] as int - 0xD800) * 1024 + (units[1] as int - 0xDC00) else units[0]
  }

  function CodePoints(units: Wide): seq<nat>
    requires WellPaired(units)
  {
    if units == [] then [] else [First(units)] + CodePoints(units[Width(units)..])
  }

  function Units(cp: nat): (r: Wide)
    requires cp <= 0x10FFFF
    ensures |r| == if cp > 0xFFFF then 2 else 1
  {
    if cp > 0xFFFF then [0xD800 + (cp - 0x10000) / 1024, 0xDC00 + (cp - 0x10000) % 1024] else [cp]
  }

  lemma UnitsOfFirst(units: Wide)
    requires units != [] && WellPaired(units)
    ensures Units(First(units)) == units[..Width(units)]
  {
  }
}
