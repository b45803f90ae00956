// Vocabulary shared by the models: optional values, the source's unsigned
// 64-bit counters, its 16-bit wide characters, and its bytes.
module Common {

  datatype Option<+T> = None | Some(value: T) {
    function GetOr(default: T): T { if Some? then value else default }
  }

  const MAX64: int := 0xFFFF_FFFF_FFFF_FFFF

  // std::uint64_t. Every arithmetic step must prove that it stays in range,
  // except where the source lets a counter wrap and Next64 or Sub64 says so.
  type U64 = x: int | 0 <= x <= MAX64

  function Next64(x: U64): U64 {
    if x == MAX64 then 0 else x + 1
  }

  // Unsigned subtraction as the machine performs it.
  function Sub64(a: U64, b: U64): U64 {
    if a >= b then a - b else a - b + MAX64 + 1
  }

  // wchar_t as on Windows: one UTF-16 code unit.
  type Wchar = x: int | 0 <= x <= 0xFFFF
  type Wide = seq<Wchar>

  type Byte = x: int | 0 <= x <= 0xFF
  type Bytes = seq<Byte>

  // The position of the first c in s, or |s| where C++ answers npos.
  function IndexOf<T(==)>(s: seq<T>, c: T): (r: nat)
    ensures r <= |s|
    ensures c !in s[..r]
    ensures r < |s| ==> s[r] == c
    ensures r == |s| ==> c !in s
  {
    if s == [] then 0
    else if s[0] == c then 0
    else
      var k := IndexOf(s[1..], c);
      assert s[..k + 1] == [s[0]] + s[1..][..k];
      assert s == [s[0]] + s[1..];
      k + 1
  }

  // IndexOf is the only index with that description.
  lemma {:induction false} IndexOfUnique<T>(s: seq<T>, c: T, k: nat)
    requires k < |s| && s[k] == c && c !in s[..k]
    ensures IndexOf(s, c) == k
  {
    if k > 0 {
      assert s[..k][0] == s[0];
      assert s[1..][..k - 1] == s[..k][1..];
      IndexOfUnique(s[1..], c, k - 1);
    }
  }

  // The position of the first element that passes the test, or |s|.
  function FirstWhere<T>(s: seq<T>, test: T -> bool): (k: nat)
    ensures k <= |s|
    ensures k < |s| ==> test(s[k])
    ensures forall i :: 0 <= i < k ==> !test(s[i])
  {
    if s == [] || test(s[0]) then 0 else 1 + FirstWhere(s[1..], test)
  }
}
