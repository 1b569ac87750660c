/**
 * Rust primitive types used by the contract: `u8`, `u64`, and the byte view of a
 * `String` (`String::into_bytes`, which yields the UTF-8 encoding of the text).
 */
module Primitives {

  newtype byte = x: int | 0 <= x < 0x100

  newtype u64 = x: int | 0 <= x < 0x1_0000_0000_0000_0000

  /** Number of bytes of the UTF-8 sequence whose first byte is `b`. */
  function LeadLength(b: byte): nat
  {
    if b < 0x80 then 1 else if b < 0xE0 then 2 else if b < 0xF0 then 3 else 4
  }

  /** The UTF-8 encoding of one Unicode scalar value (RFC 3629, section 3). */
  function CharUtf8(c: char): (r: seq<byte>)
    ensures 1 <= |r| <= 4
    ensures |r| == LeadLength(r[0])
    ensures |r| == 1 <==> (c as int) < 0x80
  {
    var n := c as int;
    if n < 0x80 then
      [n as byte]
    else if n < 0x800 then
      [(0xC0 + n / 0x40) as byte, (0x80 + n % 0x40) as byte]
    else if n < 0x1_0000 then
      [(0xE0 + n / 0x1000) as byte, (0x80 + n / 0x40 % 0x40) as byte, (0x80 + n % 0x40) as byte]
    else
      [(0xF0 + n / 0x4_0000) as byte, (0x80 + n / 0x1000 % 0x40) as byte,
       (0x80 + n / 0x40 % 0x40) as byte, (0x80 + n % 0x40) as byte]
  }

  /** `s.into_bytes()`: the UTF-8 encoding of a string, character by character. */
  function Utf8(s: string): (r: seq<byte>)
    ensures |s| <= |r| <= 4 * |s|
  {
    if s == [] then [] else CharUtf8(s[0]) + Utf8(s[1..])
  }

  /*
   * The two arithmetic facts below let `CharUtf8Injective` rebuild a code point from
   * its 6-bit groups. Without them the solver only sometimes finds that step, and it
   * runs out of resource on some random seeds.
   */

  lemma DigitsDetermine(n: int, m: int, d: int)
    requires 0 < d && 0 <= n && 0 <= m
    requires n / d == m / d && n % d == m % d
    ensures n == m
  {
    assert n == d * (n / d) + n % d;
    assert m == d * (m / d) + m % d;
  }

  lemma SplitDiv(n: int)
    requires 0 <= n
    ensures n / 0x1000 == (n / 0x40) / 0x40
    ensures n / 0x4_0000 == (n / 0x1000) / 0x40
  {
  }

  /** Two characters with the same UTF-8 bytes are the same character. */
  lemma CharUtf8Injective(a: char, b: char)
    requires CharUtf8(a) == CharUtf8(b)
    ensures a == b
  {
    var n, m := a as int, b as int;
    var r := CharUtf8(a);
    if |r| == 2 {
      DigitsDetermine(n, m, 0x40);
    } else if |r| == 3 {
      SplitDiv(n);
      SplitDiv(m);
      DigitsDetermine(n / 0x40, m / 0x40, 0x40);
      DigitsDetermine(n, m, 0x40);
    } else if |r| == 4 {
      SplitDiv(n);
      SplitDiv(m);
      DigitsDetermine(n / 0x1000, m / 0x1000, 0x40);
      DigitsDetermine(n / 0x40, m / 0x40, 0x40);
      DigitsDetermine(n, m, 0x40);
    }
  }

  /**
   * UTF-8 is injective: distinct strings have distinct byte forms, so a key built
   * with `into_bytes` identifies the text it was built from.
   */
  lemma {:induction false} Utf8Injective(s: string, t: string)
    ensures Utf8(s) == Utf8(t) ==> s == t
  {
    if Utf8(s) == Utf8(t) && s != [] && t != [] {
      var x, y := CharUtf8(s[0]), CharUtf8(t[0]);
      assert Utf8(s) == x + Utf8(s[1..]);
      assert Utf8(t) == y + Utf8(t[1..]);
      assert x[0] == Utf8(s)[0] == y[0];
      assert x == Utf8(s)[..|x|] == y;
      CharUtf8Injective(s[0], t[0]);
      assert Utf8(s[1..]) == Utf8(s)[|x|..] == Utf8(t[1..]);
      Utf8Injective(s[1..], t[1..]);
      assert s == [s[0]] + s[1..];
      assert t == [t[0]] + t[1..];
    }
  }
}
