/** The few pieces of java.lang behaviour the model depends on. */
module JavaLang {

  /** Decimal digit character for 0 <= d < 10. */
  function DigitChar(d: int): (c: char)
    requires 0 <= d < 10
    ensures '0' <= c <= '9'
  {
    ('0' as int + d) as char
  }

  /** The digits of a non-negative number, most significant first, as
      Integer.toString prints them (no leading zeros). */
  function NatToString(n: nat): (s: string)
    ensures |s| >= 1
    ensures forall i :: 0 <= i < |s| ==> '0' <= s[i] <= '9'
    ensures n < 10 <==> |s| == 1
    decreases n
  {
    if n < 10 then [DigitChar(n)] else NatToString(n / 10) + [DigitChar(n % 10)]
  }

  /** String concatenation of an int, as "..." + n does in Java. */
  function IntToString(n: int): (s: string)
    ensures |s| >= 1
    ensures s[0] == '-' <==> n < 0
  {
    if n < 0 then "-" + NatToString(-n) else NatToString(n)
  }

  /** "..." + b for a boolean b. */
  function BoolToString(b: bool): string
  {
    if b then "true" else "false"
  }

  /** Digit value of a character that is a decimal digit. */
  function DigitValue(c: char): (d: int)
    requires '0' <= c <= '9'
    ensures 0 <= d < 10 && DigitChar(d) == c
  {
    c as int - '0' as int
  }

  /** Reads back a string of decimal digits; the reference for NatToString. */
  function ParseNat(s: string): (n: nat)
    requires forall i :: 0 <= i < |s| ==> '0' <= s[i] <= '9'
  {
    if |s| == 0 then 0 else 10 * ParseNat(s[..|s| - 1]) + DigitValue(s[|s| - 1])
  }

  /** Printing a number in decimal and reading it back gives the number:
      distinct numbers print as distinct strings. */
  lemma {:induction false} NatToStringRoundTrip(n: nat)
    ensures ParseNat(NatToString(n)) == n
    decreases n
  {
    if n >= 10 {
      var s := NatToString(n);
      assert s[..|s| - 1] == NatToString(n / 10);
      assert DigitValue(s[|s| - 1]) == n % 10;
      NatToStringRoundTrip(n / 10);
    }
  }

  /** Distinct naturals print differently. */
  lemma NatToStringInjective(a: nat, b: nat)
    requires NatToString(a) == NatToString(b)
    ensures a == b
  {
    NatToStringRoundTrip(a);
    NatToStringRoundTrip(b);
  }

  /** Integer.toString is injective. */
  lemma IntToStringInjective(m: int, n: int)
    requires IntToString(m) == IntToString(n)
    ensures m == n
  {
    if m < 0 && n < 0 {
      assert IntToString(m)[1..] == NatToString(-m);
      assert IntToString(n)[1..] == NatToString(-n);
      NatToStringInjective(-m, -n);
    } else if m >= 0 && n >= 0 {
      NatToStringInjective(m, n);
    }
  }

  const TwoTo32: int := 0x1_0000_0000

  /** Two's-complement truncation of an unbounded integer to a Java int. */
  function WrapInt(x: int): (r: int)
    ensures -0x8000_0000 <= r < 0x8000_0000
    ensures (r - x) % TwoTo32 == 0
  {
    var m := x % TwoTo32;
    if m >= 0x8000_0000 then m - TwoTo32 else m
  }

  /** The UTF-16 code units a Java string stores for one character: the
      character itself below U+10000, otherwise a high surrogate followed by
      a low surrogate that together encode it. */
  function CodeUnits(c: char): (u: seq<int>)
    ensures c as int < 0x1_0000 ==> u == [c as int]
    ensures c as int >= 0x1_0000 ==>
              && |u| == 2
              && 0xD800 <= u[0] < 0xDC00 && 0xDC00 <= u[1] < 0xE000
              && 0x1_0000 + (u[0] - 0xD800) * 0x400 + (u[1] - 0xDC00) == c as int
  {
    if c as int < 0x1_0000 then [c as int]
    else
      var v := c as int - 0x1_0000;
      [0xD800 + v / 0x400, 0xDC00 + v % 0x400]
  }

  /** The UTF-16 code units of a string, as String.length and charAt see it. */
  function Utf16(s: string): (u: seq<int>)
    ensures |s| <= |u| <= 2 * |s|
    ensures forall i :: 0 <= i < |u| ==> 0 <= u[i] < 0x1_0000
  {
    if |s| == 0 then [] else Utf16(s[..|s| - 1]) + CodeUnits(s[|s| - 1])
  }

  /** A string whose characters all lie below U+10000 has one code unit per
      character, namely that character. */
  lemma {:induction false} Utf16OfBasicPlane(s: string)
    requires forall i :: 0 <= i < |s| ==> s[i] as int < 0x1_0000
    ensures |Utf16(s)| == |s|
    ensures forall i :: 0 <= i < |s| ==> Utf16(s)[i] == s[i] as int
  {
    if |s| > 0 {
      Utf16OfBasicPlane(s[..|s| - 1]);
    }
  }

  /** The loop h = 31*h + c over code units, in 32-bit arithmetic. */
  function HashCodeUnits(u: seq<int>): (h: int)
    ensures -0x8000_0000 <= h < 0x8000_0000
  {
    if |u| == 0 then 0 else WrapInt(31 * HashCodeUnits(u[..|u| - 1]) + u[|u| - 1])
  }

  /** String.hashCode: u[0]*31^(n-1) + ... + u[n-1] over the string's UTF-16
      code units, in 32-bit arithmetic. */
  function StringHashCode(s: string): (h: int)
    ensures -0x8000_0000 <= h < 0x8000_0000
  {
    HashCodeUnits(Utf16(s))
  }

  /** A character outside the basic plane hashes as its surrogate pair:
      31 * 0xD83D + 0xDE00 for U+1F600. */
  lemma SupplementaryCharacterHash()
    ensures StringHashCode("\U{1F600}") == 31 * 0xD83D + 0xDE00
  {
    var s := "\U{1F600}";
    assert s[..0] == "";
    assert Utf16(s) == [0xD83D, 0xDE00];
    var u := [0xD83D, 0xDE00];
    assert u[..1] == [0xD83D] && u[..1][..0] == [];
    assert HashCodeUnits(u[..1]) == WrapInt(0xD83D) == 0xD83D;
    assert HashCodeUnits(u) == WrapInt(31 * 0xD83D + 0xDE00);
  }
}
