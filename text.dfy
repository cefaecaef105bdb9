/** String helpers: decimal rendering of naturals (Python's `f"{i}"`), prefixes and letters. */
module Text {

  /** The character of decimal digit `d`. */
  function Digit(d: nat): char
    requires d < 10
  {
    (48 + d) as char
  }

  /** The decimal rendering of `n`, without sign or leading zeros, as Python's `str(n)`. */
  function DecimalString(n: nat): string
    decreases n
  {
    if n < 10 then [Digit(n)] else DecimalString(n / 10) + [Digit(n % 10)]
  }

  lemma DigitInjective(a: nat, b: nat)
    requires a < 10 && b < 10 && Digit(a) == Digit(b)
    ensures a == b
  {
    assert Digit(a) as int == 48 + a;
    assert Digit(b) as int == 48 + b;
  }

  /** Distinct naturals have distinct decimal renderings. */
  lemma {:induction false} DecimalStringInjective(a: nat, b: nat)
    requires DecimalString(a) == DecimalString(b)
    ensures a == b
    decreases a
  {
    var sa, sb := DecimalString(a), DecimalString(b);
    if a < 10 && b < 10 {
      assert sa[0] == Digit(a) && sb[0] == Digit(b);
      DigitInjective(a, b);
    } else if a >= 10 && b >= 10 {
      var pa, pb := DecimalString(a / 10), DecimalString(b / 10);
      assert sa == pa + [Digit(a % 10)] && sb == pb + [Digit(b % 10)];
      assert |pa| == |pb|;
      assert sa[|pa|] == Digit(a % 10) && sb[|pb|] == Digit(b % 10);
      DigitInjective(a % 10, b % 10);
      assert pa == sa[..|pa|] && pb == sb[..|pb|];
      DecimalStringInjective(a / 10, b / 10);
    } else if a < 10 {
      assert |sa| == 1;
      assert |sb| == |DecimalString(b / 10)| + 1;
      DecimalStringNonEmpty(b / 10);
      assert false;
    } else {
      assert |sb| == 1;
      assert |sa| == |DecimalString(a / 10)| + 1;
      DecimalStringNonEmpty(a / 10);
      assert false;
    }
  }

  lemma DecimalStringNonEmpty(n: nat)
    ensures |DecimalString(n)| >= 1
  {
  }

  /** Appending to a common prefix is injective. */
  lemma AppendInjective(p: string, x: string, y: string)
    requires p + x == p + y
    ensures x == y
  {
    assert x == (p + x)[|p|..];
    assert y == (p + y)[|p|..];
  }

  /** Python's `s.startswith(prefix)`. */
  predicate StartsWith(s: string, prefix: string) {
    |prefix| <= |s| && s[..|prefix|] == prefix
  }

  /** An ASCII letter; the model's reading of `str.isalpha` on one character. */
  predicate IsAlpha(c: char) {
    ('A' <= c <= 'Z') || ('a' <= c <= 'z')
  }
}
