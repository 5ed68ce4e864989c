/**
 * The pieces of the Kotlin/JVM runtime that the device-information core
 * relies on: fixed-width integers, truncating division, decimal and
 * hexadecimal rendering, `String.toLongOrNull`, `String.trim` and
 * `joinToString`.  Everything here is stated on unbounded `int`s and
 * `seq<char>`, with the widths made explicit.
 */
module KotlinRuntime {

  /** Kotlin's nullable `T?`. */
  datatype Option<+T> = None | Some(value: T)

  const INT_MIN: int := -0x8000_0000
  const INT_MAX: int := 0x7FFF_FFFF
  const LONG_MIN: int := -0x8000_0000_0000_0000
  const LONG_MAX: int := 0x7FFF_FFFF_FFFF_FFFF

  /** Kotlin `Byte`, `Int` and `Long`. */
  type Int8 = x: int | -128 <= x < 128
  type Int32 = x: int | -0x8000_0000 <= x < 0x8000_0000
  type Int64 = x: int | -0x8000_0000_0000_0000 <= x < 0x8000_0000_0000_0000

  predicate IsInt32(x: int) { INT_MIN <= x <= INT_MAX }
  predicate IsInt64(x: int) { LONG_MIN <= x <= LONG_MAX }

  /** `Int` arithmetic: the exact result reduced modulo 2^32 into the signed range. */
  function WrapInt(x: int): (r: Int32)
    ensures (x - r) % 0x1_0000_0000 == 0
    ensures IsInt32(x) ==> r == x
  {
    (x + 0x8000_0000) % 0x1_0000_0000 - 0x8000_0000
  }

  /** `Long` arithmetic: the exact result reduced modulo 2^64 into the signed range. */
  function WrapLong(x: int): (r: Int64)
    ensures (x - r) % 0x1_0000_0000_0000_0000 == 0
    ensures IsInt64(x) ==> r == x
  {
    (x + 0x8000_0000_0000_0000) % 0x1_0000_0000_0000_0000 - 0x8000_0000_0000_0000
  }

  function Abs(x: int): nat { if x < 0 then -x else x }

  /**
   * Integer division as Kotlin (and the JVM) does it: the quotient is
   * rounded toward zero, so the remainder has the sign of the dividend.
   */
  function TruncDiv(a: int, b: int): (q: int)
    requires b != 0
    ensures Abs(a - q * b) < Abs(b)
    ensures a >= 0 ==> a - q * b >= 0
    ensures a <= 0 ==> a - q * b <= 0
  {
    if a >= 0 then
      DivBound(a, Abs(b));
      (if b > 0 then a / b else NegMul(a / -b, -b); -(a / -b))
    else
      DivBound(-a, Abs(b));
      (if b > 0 then NegMul((-a) / b, b); -((-a) / b) else NegMul((-a) / (-b), -b); (-a) / (-b))
  }

  /** The Euclidean remainder of a natural number lies below the divisor. */
  lemma DivBound(a: nat, m: nat)
    requires m > 0
    ensures 0 <= a - (a / m) * m < m
  {
  }

  lemma NegMul(x: int, m: int)
    ensures (-x) * (-m) == x * m && (-x) * m == -(x * m) && x * (-m) == -(x * m)
  {
  }

  /** `a % b` in Kotlin: the remainder that goes with `TruncDiv`. */
  function TruncRem(a: int, b: int): (r: int)
    requires b != 0
    ensures Abs(r) < Abs(b) && a == TruncDiv(a, b) * b + r
  {
    a - TruncDiv(a, b) * b
  }

  /**
   * `n / d` rounded to the nearest integer, halves rounded up: Java's
   * `RoundingMode.HALF_UP` on a non-negative fraction.
   */
  function RoundHalfUp(n: nat, d: nat): (q: nat)
    requires d > 0
    ensures 2 * q * d <= 2 * n + d < 2 * q * d + 2 * d
  {
    (2 * n + d) / (2 * d)
  }

  // ---------------------------------------------------------------------
  // Decimal rendering: `Int.toString()`, `Long.toString()`, "%02d".

  predicate IsDigit(c: char) { '0' <= c <= '9' }

  predicate AllDigits(s: string) { forall i :: 0 <= i < |s| ==> IsDigit(s[i]) }

  function DigitChar(d: nat): (c: char)
    requires d < 10
    ensures IsDigit(c) && c as int - '0' as int == d
  {
    ('0' as int + d) as char
  }

  /** The value of a string of ASCII decimal digits, most significant first. */
  function DigitsValue(s: string): nat
    requires AllDigits(s)
  {
    if s == [] then 0 else DigitsValue(s[..|s| - 1]) * 10 + (s[|s| - 1] as int - '0' as int)
  }

  /** The shortest decimal text of a natural number (no leading zero unless it is 0). */
  function NatToString(n: nat): (s: string)
    ensures |s| >= 1 && AllDigits(s)
    ensures s[0] == '0' ==> n == 0 && s == "0"
  {
    if n < 10 then [DigitChar(n)] else NatToString(n / 10) + [DigitChar(n % 10)]
  }

  /** Kotlin's `toString()` of an integer: a minus sign for negative values. */
  function IntToString(n: int): string
  {
    if n < 0 then "-" + NatToString(-n) else NatToString(n)
  }

  /** `String.format("%02d", n)` for a non-negative `n`: at least two digits. */
  function ZeroPad2(n: nat): (s: string)
    ensures |s| >= 2 && AllDigits(s) && DigitsValue(s) == n
    ensures n < 100 ==> |s| == 2
  {
    NatToStringValue(n);
    if n < 10 then
      DigitsValueOfZeroPrefix(NatToString(n));
      "0" + NatToString(n)
    else
      NatToString(n)
  }

  /**
   * `String.format("%.1f", n / 10.0)` for a non-negative count of tenths
   * `n`, with '.' as the separator: the integer part, '.', one digit, which
   * together read back as `n`.
   */
  function Fixed1(n: nat): (s: string)
    ensures |s| >= 3 && s[|s| - 2] == '.'
    ensures AllDigits(s[..|s| - 2]) && IsDigit(s[|s| - 1])
    ensures DigitsValue(s[..|s| - 2]) * 10 + (s[|s| - 1] as int - '0' as int) == n
  {
    var whole := NatToString(n / 10);
    NatToStringValue(n / 10);
    var s := whole + "." + [DigitChar(n % 10)];
    assert s[..|s| - 2] == whole;
    s
  }

  /**
   * `String.format("%.2f", n / 100.0)` for a non-negative count of
   * hundredths `n`, with '.' as the separator: the integer part, '.', and
   * exactly two digits, which together read back as `n`.
   */
  function Fixed2(n: nat): (s: string)
    ensures |s| >= 4 && s[|s| - 3] == '.'
    ensures AllDigits(s[..|s| - 3]) && AllDigits(s[|s| - 2..])
    ensures DigitsValue(s[..|s| - 3]) * 100 + DigitsValue(s[|s| - 2..]) == n
  {
    var q, r := n / 100, n % 100;
    var whole := NatToString(q);
    var frac := ZeroPad2(r);
    NatToStringValue(q);
    var s := whole + "." + frac;
    assert s[..|s| - 3] == whole && s[|s| - 2..] == frac;
    assert DigitsValue(whole) * 100 + DigitsValue(frac) == q * 100 + r == n;
    s
  }

  lemma {:induction false} DigitsValueOfZeroPrefix(s: string)
    requires AllDigits(s)
    ensures AllDigits("0" + s) && DigitsValue("0" + s) == DigitsValue(s)
  {
    if s != [] {
      var t := "0" + s;
      assert t[..|t| - 1] == "0" + s[..|s| - 1];
      DigitsValueOfZeroPrefix(s[..|s| - 1]);
    }
  }

  /** Reading back the decimal text of a natural number gives the number. */
  lemma {:induction false} NatToStringValue(n: nat)
    ensures DigitsValue(NatToString(n)) == n
    ensures n < 10 <==> |NatToString(n)| == 1
    ensures 10 <= n < 100 ==> |NatToString(n)| == 2
  {
    if n >= 10 {
      NatToStringValue(n / 10);
      var s := NatToString(n);
      assert s[..|s| - 1] == NatToString(n / 10);
    }
  }

  // ---------------------------------------------------------------------
  // `String.toLongOrNull()` (radix 10).

  /**
   * An optional leading '+' or '-', then at least one decimal digit, and a
   * value in the `Long` range; anything else is `null`.
   */
  function ParseLong(s: string): (r: Option<Int64>)
    ensures r.Some? ==> |s| >= 1
  {
    if |s| == 0 then None
    else if s[0] == '-' || s[0] == '+' then
      var digits := s[1..];
      if |digits| == 0 || !AllDigits(digits) then None
      else
        var v: int := if s[0] == '-' then 0 - DigitsValue(digits) as int else DigitsValue(digits);
        if IsInt64(v) then Some(v) else None
    else if AllDigits(s) && IsInt64(DigitsValue(s)) then Some(DigitsValue(s))
    else None
  }

  /** The text after the optional sign. */
  function DigitsPart(s: string): string
  {
    if |s| >= 1 && (s[0] == '-' || s[0] == '+') then s[1..] else s
  }

  /** Which texts `toLongOrNull` accepts: sign, at least one digit, nothing else, in range. */
  lemma ParseLongAccepts(s: string)
    ensures ParseLong(s).Some? <==>
              && |s| >= 1 && |DigitsPart(s)| >= 1 && AllDigits(DigitsPart(s))
              && IsInt64(if s[0] == '-' then -(DigitsValue(DigitsPart(s)) as int) else DigitsValue(DigitsPart(s)))
    ensures (exists i :: 0 <= i < |DigitsPart(s)| && !IsDigit(DigitsPart(s)[i])) ==> ParseLong(s).None?
  {
  }

  /** Decimal digits without a leading zero, except for "0" itself. */
  predicate CanonicalDigits(s: string)
  {
    |s| >= 1 && AllDigits(s) && (s[0] == '0' ==> |s| == 1)
  }

  /** The digits with their leading zeros removed (keeping one digit). */
  function StripZeros(s: string): (r: string)
    requires |s| >= 1 && AllDigits(s)
    ensures CanonicalDigits(r) && DigitsValue(r) == DigitsValue(s)
  {
    if |s| > 1 && s[0] == '0' then
      assert s == "0" + s[1..];
      DigitsValueOfZeroPrefix(s[1..]);
      StripZeros(s[1..])
    else s
  }

  lemma {:induction false} PositiveLead(s: string)
    requires |s| >= 1 && AllDigits(s) && s[0] != '0'
    ensures DigitsValue(s) > 0
  {
    if |s| > 1 {
      PositiveLead(s[..|s| - 1]);
    }
  }

  /** Two canonical digit texts of the same value are the same text. */
  lemma {:induction false} CanonicalDigitsUnique(a: string, b: string)
    requires CanonicalDigits(a) && CanonicalDigits(b) && DigitsValue(a) == DigitsValue(b)
    ensures a == b
    decreases |a|
  {
    var a', b' := a[..|a| - 1], b[..|b| - 1];
    if |a| == 1 && |b| == 1 {
      assert a == [a[0]] && b == [b[0]];
    } else if |a| == 1 {
      PositiveLead(b');
    } else if |b| == 1 {
      PositiveLead(a');
    } else {
      CanonicalDigitsUnique(a', b');
      assert a == a' + [a[|a| - 1]] && b == b' + [b[|b| - 1]];
    }
  }

  /**
   * A parsed text denotes its value: dropping a `+`, the leading zeros,
   * and the sign of a zero gives exactly `v.toString()`.
   */
  lemma ParseLongCanonical(s: string, v: Int64)
    requires ParseLong(s) == Some(v)
    ensures |DigitsPart(s)| >= 1 && AllDigits(DigitsPart(s))
    ensures var m := StripZeros(DigitsPart(s));
      (if s[0] == '-' && m != "0" then "-" + m else m) == IntToString(v)
  {
    var digits := DigitsPart(s);
    var m := StripZeros(digits);
    NatToStringValue(Abs(v));
    CanonicalDigitsUnique(m, NatToString(Abs(v)));
  }

  /** `n.toString().toLongOrNull() == n` for every `Long` n. */
  lemma ParseLongOfIntToString(n: Int64)
    ensures ParseLong(IntToString(n)) == Some(n)
  {
    if n < 0 {
      NatToStringValue(-(n as int));
      var s := IntToString(n);
      assert s[1..] == NatToString(-(n as int));
    } else {
      NatToStringValue(n);
    }
  }

  // ---------------------------------------------------------------------
  // `String.trim()`: Kotlin's `Char.isWhitespace()` on the JVM.

  /**
   * Java's `Character.isWhitespace` or `Character.isSpaceChar`: the
   * control characters TAB..CR and FS..US, and the Unicode space,
   * line and paragraph separators.
   */
  predicate IsWhitespace(c: char)
  {
    ('\t' <= c <= '\r') || ('\U{001C}' <= c <= ' ') || c == '\U{00A0}' || c == '\U{1680}'
    || ('\U{2000}' <= c <= '\U{200A}') || c == '\U{2028}' || c == '\U{2029}'
    || c == '\U{202F}' || c == '\U{205F}' || c == '\U{3000}'
  }

  function TrimStart(s: string): (r: string)
    ensures |r| <= |s| && r == s[|s| - |r|..]
    ensures forall i :: 0 <= i < |s| - |r| ==> IsWhitespace(s[i])
    ensures r == [] || !IsWhitespace(r[0])
  {
    if |s| > 0 && IsWhitespace(s[0]) then
      var r := TrimStart(s[1..]);
      assert s[1..][|s| - 1 - |r|..] == s[|s| - |r|..];
      assert forall i :: 1 <= i < |s| ==> s[i] == s[1..][i - 1];
      r
    else s
  }

  function TrimEnd(s: string): (r: string)
    ensures |r| <= |s| && r == s[..|r|]
    ensures forall i :: |r| <= i < |s| ==> IsWhitespace(s[i])
    ensures r == [] || !IsWhitespace(r[|r| - 1])
  {
    if |s| > 0 && IsWhitespace(s[|s| - 1]) then TrimEnd(s[..|s| - 1]) else s
  }

  /** `trim()`: removes whitespace at both ends and keeps the middle untouched. */
  function Trim(s: string): (r: string)
    ensures |r| <= |s|
    ensures r == [] || (!IsWhitespace(r[0]) && !IsWhitespace(r[|r| - 1]))
  {
    TrimEnd(TrimStart(s))
  }

  predicate AllWhitespace(s: string) { forall i :: 0 <= i < |s| ==> IsWhitespace(s[i]) }

  lemma {:induction false} TrimStartOfPadded(lead: string, x: string)
    requires AllWhitespace(lead)
    requires x == [] || !IsWhitespace(x[0])
    ensures TrimStart(lead + x) == x
  {
    if lead != [] {
      assert (lead + x)[1..] == lead[1..] + x;
      TrimStartOfPadded(lead[1..], x);
    } else {
      assert lead + x == x;
    }
  }

  lemma {:induction false} TrimEndOfPadded(x: string, trail: string)
    requires AllWhitespace(trail)
    requires x == [] || !IsWhitespace(x[|x| - 1])
    ensures TrimEnd(x + trail) == x
  {
    if trail != [] {
      assert (x + trail)[..|x + trail| - 1] == x + trail[..|trail| - 1];
      TrimEndOfPadded(x, trail[..|trail| - 1]);
    } else {
      assert x + trail == x;
    }
  }

  /** Trimming whitespace padding off a word that has no whitespace at its ends gives the word. */
  lemma TrimOfPadded(lead: string, x: string, trail: string)
    requires AllWhitespace(lead) && AllWhitespace(trail)
    requires x != [] && !IsWhitespace(x[0]) && !IsWhitespace(x[|x| - 1])
    ensures Trim(lead + x + trail) == x
  {
    assert lead + x + trail == lead + (x + trail);
    TrimStartOfPadded(lead, x + trail);
    TrimEndOfPadded(x, trail);
  }

  // ---------------------------------------------------------------------
  // Collections and strings.

  /** `joinToString(sep)`: the parts in order, `sep` between neighbours. */
  function JoinToString(parts: seq<string>, sep: string): (r: string)
    ensures parts == [] ==> r == ""
    ensures |parts| == 1 ==> r == parts[0]
  {
    if parts == [] then ""
    else if |parts| == 1 then parts[0]
    else parts[0] + sep + JoinToString(parts[1..], sep)
  }

  /**
   * Joining one more part appends the separator and that part: the parts
   * appear in order with `sep` between neighbours, whatever their number.
   */
  lemma {:induction false} JoinSnoc(a: seq<string>, p: string, sep: string)
    requires |a| >= 1
    ensures JoinToString(a + [p], sep) == JoinToString(a, sep) + sep + p
  {
    if |a| == 1 {
      assert a + [p] == [a[0], p];
      assert [a[0], p][1..] == [p];
    } else {
      assert (a + [p])[1..] == a[1..] + [p];
      JoinSnoc(a[1..], p, sep);
    }
  }

  /** `replace("c", "")`: every occurrence of `c` removed, the rest kept in order. */
  function RemoveChar(s: string, c: char): (r: string)
    ensures c !in r
    ensures forall x :: x != c ==> (x in r <==> x in s)
    ensures |r| == |s| - multiset(s)[c]
    ensures c !in s ==> r == s
    ensures multiset(r) == multiset(s)[c := 0]
  {
    if s == [] then []
    else
      assert s == [s[0]] + s[1..];
      (if s[0] == c then [] else [s[0]]) + RemoveChar(s[1..], c)
  }

  /** `"c".repeat(n)`. */
  function Repeat(c: char, n: nat): (r: string)
    ensures |r| == n && forall i :: 0 <= i < n ==> r[i] == c
  {
    seq(n, _ => c)
  }

  // ---------------------------------------------------------------------
  // Hexadecimal: `"%02x".format(byte).uppercase()`.

  function HexDigit(d: nat): (c: char)
    requires d < 16
    ensures HexValue(c) == d
  {
    if d < 10 then ('0' as int + d) as char else ('A' as int + d - 10) as char
  }

  /** The value of an upper-case hexadecimal digit (-1 for any other character). */
  function HexValue(c: char): int
  {
    if '0' <= c <= '9' then c as int - '0' as int
    else if 'A' <= c <= 'F' then c as int - 'A' as int + 10
    else -1
  }

  /**
   * A `Byte` formatted with "%02x" and upper-cased: Java's formatter adds
   * 256 to a negative byte, so the text is always two hex digits.
   */
  function HexByte(b: Int8): (s: string)
    ensures |s| == 2
    ensures HexValue(s[0]) * 16 + HexValue(s[1]) == b % 256
    ensures 0 <= HexValue(s[0]) < 16 && 0 <= HexValue(s[1]) < 16
  {
    var u := b % 256;
    [HexDigit(u / 16), HexDigit(u % 16)]
  }

  /** Two bytes with the same hex text are the same byte. */
  lemma HexByteInjective(x: Int8, y: Int8)
    requires HexByte(x) == HexByte(y)
    ensures x == y
  {
    var s := HexByte(x);
    assert x % 256 == HexValue(s[0]) * 16 + HexValue(s[1]) == y % 256;
  }
}
