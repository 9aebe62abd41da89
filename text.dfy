/** The string operations the codec and the dispatcher use: decimal formatting and upper-casing. */
module Text {

  function DigitChar(d: nat): char
    requires d < 10
  {
    (48 + d) as char
  }

  /** `"{}".format(n)` for a natural number: its decimal digits, most significant first. */
  function NatToString(n: nat): (s: string)
    ensures 1 <= |s|
    decreases n
  {
    if n < 10 then [DigitChar(n)] else NatToString(n / 10) + [DigitChar(n % 10)]
  }

  /** The value of a string of decimal digits: the reference definition `NatToString` inverts. */
  function DecimalValue(s: string): int
  {
    if s == [] then 0 else DecimalValue(s[..|s| - 1]) * 10 + (s[|s| - 1] as int - 48)
  }

  lemma {:induction false} DecimalValueOfNatToString(n: nat)
    ensures DecimalValue(NatToString(n)) == n
    decreases n
  {
    if n >= 10 {
      var s := NatToString(n);
      assert s[..|s| - 1] == NatToString(n / 10);
      DecimalValueOfNatToString(n / 10);
    }
  }

  /** Distinct numbers give distinct names, so `connect1`, `connect2`, ... never collide. */
  lemma NatToStringInjective(a: nat, b: nat)
    requires NatToString(a) == NatToString(b)
    ensures a == b
  {
    DecimalValueOfNatToString(a);
    DecimalValueOfNatToString(b);
  }

  predicate IsDigit(c: char)
  {
    '0' <= c <= '9'
  }

  predicate AllDigits(s: string)
  {
    forall i :: 0 <= i < |s| ==> IsDigit(s[i])
  }

  predicate NoTrailingDigit(s: string)
  {
    s == [] || !IsDigit(s[|s| - 1])
  }

  lemma {:induction false} NatToStringDigits(n: nat)
    ensures AllDigits(NatToString(n))
    decreases n
  {
    if n >= 10 {
      NatToStringDigits(n / 10);
    }
  }

  /** A name without its trailing decimal digits: the family `connect12` belongs to. */
  function StripDigits(s: string): (stem: string)
    ensures stem <= s && NoTrailingDigit(stem) && AllDigits(s[|stem|..])
    decreases |s|
  {
    if s != [] && IsDigit(s[|s| - 1]) then
      var stem := StripDigits(s[..|s| - 1]);
      assert s[|stem|..] == s[..|s| - 1][|stem|..] + [s[|s| - 1]];
      stem
    else s
  }

  lemma {:induction false} StripDigitSuffix(p: string, d: string)
    requires NoTrailingDigit(p) && AllDigits(d)
    ensures StripDigits(p + d) == p
    decreases |d|
  {
    if d == [] {
      assert p + d == p;
    } else {
      assert (p + d)[..|p + d| - 1] == p + d[..|d| - 1];
      StripDigitSuffix(p, d[..|d| - 1]);
    }
  }

  /** A numbered name determines both its stem and its number. */
  lemma NumberedNames(p: string, q: string, a: nat, b: nat)
    requires NoTrailingDigit(p) && NoTrailingDigit(q)
    ensures p + NatToString(a) == q + NatToString(b) <==> p == q && a == b
  {
    NatToStringDigits(a);
    NatToStringDigits(b);
    StripDigitSuffix(p, NatToString(a));
    StripDigitSuffix(q, NatToString(b));
    if p + NatToString(a) == q + NatToString(b) {
      assert p == q;
      assert (p + NatToString(a))[|p|..] == NatToString(a);
      assert (q + NatToString(b))[|q|..] == NatToString(b);
      NatToStringInjective(a, b);
    }
  }

  /** The stem of a numbered name is its prefix. */
  lemma StemOfNumbered(p: string, n: nat)
    requires NoTrailingDigit(p)
    ensures StripDigits(p + NatToString(n)) == p
  {
    NatToStringDigits(n);
    StripDigitSuffix(p, NatToString(n));
  }

  /** Python's `str.upper()` restricted to ASCII letters. */
  function UpperChar(c: char): char
  {
    if 'a' <= c <= 'z' then (c as int - 32) as char else c
  }

  function Upper(s: string): string
  {
    seq(|s|, i requires 0 <= i < |s| => UpperChar(s[i]))
  }

  predicate HasNoLowerCase(s: string)
  {
    forall i :: 0 <= i < |s| ==> !('a' <= s[i] <= 'z')
  }

  lemma UpperKeepsNoLowerCase(s: string)
    requires HasNoLowerCase(s)
    ensures Upper(s) == s
  {
  }
}
