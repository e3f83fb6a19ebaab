/** Bytes, decimal and hexadecimal text as the C++ code produces them, with the
    injectivity facts every composite key and hash input rests on. */
module Text {

  type byte = b: int | 0 <= b < 256

  datatype Option<+T> = None | Some(value: T)

  // std::to_string on a non-negative number.
  function Decimal(n: nat): string
  {
    if n < 10 then ['0' + n as char] else Decimal(n / 10) + ['0' + (n % 10) as char]
  }

  // std::to_string on a signed number.
  function Signed(i: int): string
  {
    if i < 0 then "-" + Decimal(-i) else Decimal(i)
  }

  predicate IsDigit(c: char) { '0' <= c <= '9' }

  predicate AllDigits(s: string) { forall c | c in s :: IsDigit(c) }

  // The number a run of decimal digits denotes.
  function Value(s: string): nat
    requires AllDigits(s)
  {
    if s == "" then 0
    else
      var last := s[|s| - 1];
      assert IsDigit(last);
      10 * Value(s[..|s| - 1]) + (last as int - '0' as int)
  }

  lemma {:induction false} DecimalRoundTrip(n: nat)
    ensures Decimal(n) != "" && AllDigits(Decimal(n)) && Value(Decimal(n)) == n
  {
    if n >= 10 {
      DecimalRoundTrip(n / 10);
      assert Decimal(n)[..|Decimal(n)| - 1] == Decimal(n / 10);
    }
  }

  lemma SignedInjective(i: int, j: int)
    requires Signed(i) == Signed(j)
    ensures i == j
  {
    var m, n := if i < 0 then -i else i, if j < 0 then -j else j;
    DecimalRoundTrip(m);
    DecimalRoundTrip(n);
    assert Decimal(m)[0] in Decimal(m) && Decimal(n)[0] in Decimal(n);
    assert i < 0 ==> Signed(i)[1..] == Decimal(m);
    assert j < 0 ==> Signed(j)[1..] == Decimal(n);
  }

  lemma SignedHasNo(i: int, c: char)
    requires !IsDigit(c) && c != '-'
    ensures c !in Signed(i)
  {
    DecimalRoundTrip(if i < 0 then -i else i);
  }

  // A separator that occurs in neither head splits a concatenation in one way only.
  lemma SplitUnique(a: string, b: string, sep: char, x: string, y: string)
    requires sep !in a && sep !in b
    requires a + [sep] + x == b + [sep] + y
    ensures a == b && x == y
  {
    var s := a + [sep] + x;
    assert s[|a|] == sep && s[|b|] == sep;
    assert forall k | 0 <= k < |a| :: s[k] == a[k];
    assert forall k | 0 <= k < |b| :: s[k] == b[k];
    assert a == s[..|a|] && b == s[..|b|];
    assert x == s[|a| + 1..] && y == s[|b| + 1..];
  }

  // Lower-case hexadecimal, two characters a byte.
  function HexDigit(d: int): (c: char)
    requires 0 <= d < 16
    ensures '0' <= c <= '9' || 'a' <= c <= 'f'
  {
    if d < 10 then '0' + d as char else 'a' + (d - 10) as char
  }

  function Hex(d: seq<byte>): string
  {
    if d == [] then "" else [HexDigit(d[0] / 16), HexDigit(d[0] % 16)] + Hex(d[1..])
  }

  // The value of one hexadecimal character of either case, -1 for any other.
  function HexValue(c: char): (v: int)
    ensures -1 <= v < 16
  {
    if '0' <= c <= '9' then c as int - '0' as int
    else if 'a' <= c <= 'f' then c as int - 'a' as int + 10
    else if 'A' <= c <= 'F' then c as int - 'A' as int + 10
    else -1
  }

  // The sixteen digits, and their capitals when read.
  lemma HexDigitsExactly(v: nat, c: char)
    requires v < 16
    ensures HexDigit(v) == "0123456789abcdef"[v]
    ensures HexValue(c) == v <==> c == "0123456789abcdef"[v] || c == "0123456789ABCDEF"[v]
  {
    if v < 10 { assert "0123456789"[v] == '0' + v as char; }
    else { assert "abcdef"[v - 10] == 'a' + (v - 10) as char && "ABCDEF"[v - 10] == 'A' + (v - 10) as char; }
  }

  lemma {:induction false} HexInjective(d: seq<byte>, e: seq<byte>)
    requires Hex(d) == Hex(e)
    ensures d == e
    decreases |d|
  {
    if d != [] && e != [] {
      assert Hex(d)[0] == Hex(e)[0] && Hex(d)[1] == Hex(e)[1];
      assert HexValue(HexDigit(d[0] / 16)) == HexValue(HexDigit(e[0] / 16));
      assert HexValue(HexDigit(d[0] % 16)) == HexValue(HexDigit(e[0] % 16));
      assert Hex(d)[2..] == Hex(d[1..]) && Hex(e)[2..] == Hex(e[1..]);
      HexInjective(d[1..], e[1..]);
      assert d == [d[0]] + d[1..] && e == [e[0]] + e[1..];
    }
  }

  lemma {:induction false} HexHasNo(d: seq<byte>, c: char)
    requires !('0' <= c <= '9' || 'a' <= c <= 'f')
    ensures c !in Hex(d) && |Hex(d)| == 2 * |d|
  {
    if d != [] { HexHasNo(d[1..], c); }
  }

  // std::tolower in the "C" locale, on a byte.
  function LowerByte(b: byte): byte
  {
    if 65 <= b <= 90 then b + 32 else b
  }

  function LowerBytes(s: seq<byte>): (r: seq<byte>)
    ensures |r| == |s|
  {
    seq(|s|, i requires 0 <= i < |s| => LowerByte(s[i]))
  }
}
