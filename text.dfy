/**
 * Text helpers: how the client renders integers into strings (JavaScript's
 * template-literal conversion of an integral number below 1e21 in magnitude,
 * which is plain decimal), the matching parser, and two small string
 * predicates used to state what a built string contains.
 */
module Text {
  import opened Wrappers

  predicate IsDigit(c: char) { '0' <= c <= '9' }

  predicate IsDigits(s: string) { forall i :: 0 <= i < |s| ==> IsDigit(s[i]) }

  function DigitChar(d: nat): (c: char)
    requires d < 10
    ensures IsDigit(c) && (c as int) - ('0' as int) == d
  {
    (('0' as int) + d) as char
  }

  /** Decimal rendering of a natural number, most significant digit first. */
  function NatToDecimal(n: nat): (s: string)
    ensures |s| >= 1 && IsDigits(s)
    ensures s[0] == '0' ==> n == 0   // no leading zeros
    decreases n
  {
    if n < 10 then [DigitChar(n)] else NatToDecimal(n / 10) + [DigitChar(n % 10)]
  }

  /** The number a string of digits denotes (0 for the empty string). */
  function DigitsValue(s: string): nat
    requires IsDigits(s)
    decreases |s|
  {
    if s == [] then 0
    else DigitsValue(s[..|s| - 1]) * 10 + ((s[|s| - 1] as int) - ('0' as int))
  }

  lemma {:induction false} DigitsRoundTrip(n: nat)
    ensures DigitsValue(NatToDecimal(n)) == n
    decreases n
  {
    var s := NatToDecimal(n);
    if n >= 10 {
      var p := NatToDecimal(n / 10);
      assert s == p + [DigitChar(n % 10)];
      assert s[..|s| - 1] == p;
      DigitsRoundTrip(n / 10);
    }
  }

  /**
   * Decimal rendering of an integer, with a leading '-' when negative.
   * Parsing it back gives the integer again.
   */
  function IntToDecimal(n: int): (s: string)
    ensures ParseInt(s) == Some(n)
    ensures (s[0] == '-') <==> n < 0
  {
    if n < 0 then
      var digits := NatToDecimal(-n);
      DigitsRoundTrip(-n);
      assert ("-" + digits)[1..] == digits;
      "-" + digits
    else
      DigitsRoundTrip(n);
      NatToDecimal(n)
  }

  /**
   * Reads back an integer written in canonical decimal, the form IntToDecimal
   * produces: no leading zeros, and no "-0".
   */
  function ParseInt(s: string): (r: Option<int>)
    ensures r.Some? ==> |s| >= 1
  {
    if |s| >= 2 && s[0] == '-' && s[1] != '0' && IsDigits(s[1..]) then Some(0 - DigitsValue(s[1..]) as int)
    else if |s| >= 1 && IsDigits(s) && (s[0] == '0' ==> |s| == 1) then Some(DigitsValue(s))
    else None
  }

  /**
   * Canonical decimal text is unique: the only text ParseInt reads as `n` is
   * IntToDecimal(n). With the round trip this pins the rendering exactly.
   */
  lemma ParseIntCanonical(s: string, n: int)
    requires ParseInt(s) == Some(n)
    ensures s == IntToDecimal(n)
  {
    if |s| >= 2 && s[0] == '-' && s[1] != '0' && IsDigits(s[1..]) {
      DigitsCanonical(s[1..]);
      assert s == "-" + s[1..];
    } else {
      DigitsCanonical(s);
    }
  }

  /** A digit string without leading zeros is the rendering of the number it denotes. */
  lemma {:induction false} DigitsCanonical(s: string)
    requires |s| >= 1 && IsDigits(s) && (s[0] == '0' ==> |s| == 1)
    ensures NatToDecimal(DigitsValue(s)) == s
    decreases |s|
  {
    if |s| > 1 {
      var p := s[..|s| - 1];
      DigitsPositive(p);
      DigitsCanonical(p);
      var v := DigitsValue(s);
      assert v / 10 == DigitsValue(p) && v % 10 == (s[|s| - 1] as int) - ('0' as int);
      assert s == p + [s[|s| - 1]];
    }
  }

  lemma {:induction false} DigitsPositive(s: string)
    requires |s| >= 1 && IsDigits(s) && s[0] != '0'
    ensures DigitsValue(s) >= 1
    decreases |s|
  {
    if |s| > 1 {
      DigitsPositive(s[..|s| - 1]);
    }
  }

  /** The rendering of an integer holds only digits and possibly a leading '-'. */
  lemma DecimalAlphabet(n: int, c: char)
    requires c != '-' && !IsDigit(c)
    ensures c !in IntToDecimal(n)
  {
    var s := IntToDecimal(n);
    if n < 0 {
      assert s == ['-'] + NatToDecimal(-n);
    }
  }

  /** The longest prefix of `s` that does not contain `c`. */
  function TakeUntil(s: string, c: char): (p: string)
    ensures p <= s && c !in p
    ensures |p| < |s| ==> s[|p|] == c
    decreases |s|
  {
    if s == [] || s[0] == c then [] else [s[0]] + TakeUntil(s[1..], c)
  }

  /** A delimiter placed right after a text free of it ends that text. */
  lemma {:induction false} TakeUntilDelimited(a: string, c: char, b: string)
    requires c !in a
    ensures TakeUntil(a + [c] + b, c) == a
    decreases |a|
  {
    if a != [] {
      assert (a + [c] + b)[1..] == a[1..] + [c] + b;
      TakeUntilDelimited(a[1..], c, b);
    }
  }

  /** `t` occurs as a contiguous piece of `s`. */
  predicate IsInfix(t: string, s: string)
  {
    exists i :: 0 <= i <= |s| && t <= s[i..]
  }

  lemma InfixOfSelf(s: string)
    ensures IsInfix(s, s)
  {
    assert s <= s[0..];
  }

  lemma InfixOfConcat(a: string, t: string, b: string)
    ensures IsInfix(t, a + t + b)
  {
    assert t <= (a + t + b)[|a|..];
  }
}
