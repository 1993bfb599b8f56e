/**
 * The two pieces of string handling the alarm compiler needs: the regular
 * expression replace `/[^0-9a-z]/gi -> ''` that turns a queue name into an
 * identifier, and the decimal rendering of a non-negative integer, which is
 * what `util.format` prints for `%s` and `%d` up to `Number.MAX_SAFE_INTEGER`.
 */
module Text {

  predicate IsDigit(c: char)
  {
    '0' <= c <= '9'
  }

  /** A character the pattern `[0-9a-z]` with the `i` flag matches: an ASCII letter or digit. */
  predicate IsAlnum(c: char)
  {
    IsDigit(c) || 'a' <= c <= 'z' || 'A' <= c <= 'Z'
  }

  predicate AllAlnum(s: string)
  {
    forall i :: 0 <= i < |s| ==> IsAlnum(s[i])
  }

  predicate AllDigits(s: string)
  {
    forall i :: 0 <= i < |s| ==> IsDigit(s[i])
  }

  /** `s.replace(/[^0-9a-z]/gi, '')`: every character that is not an ASCII letter or digit is removed. */
  function StripNonAlnum(s: string): (r: string)
    ensures |r| <= |s|
    ensures AllAlnum(r)
  {
    if s == [] then []
    else if IsAlnum(s[0]) then [s[0]] + StripNonAlnum(s[1..])
    else StripNonAlnum(s[1..])
  }

  /** A name that is already alphanumeric passes unchanged. */
  lemma {:induction false} StripKeepsAlnum(s: string)
    requires AllAlnum(s)
    ensures StripNonAlnum(s) == s
  {
    if s != [] {
      StripKeepsAlnum(s[1..]);
    }
  }

  /** Stripping works piece by piece: kept characters stay in their order. */
  lemma {:induction false} StripConcat(a: string, b: string)
    ensures StripNonAlnum(a + b) == StripNonAlnum(a) + StripNonAlnum(b)
  {
    if a == [] {
      assert a + b == b;
    } else {
      assert (a + b)[0] == a[0];
      assert (a + b)[1..] == a[1..] + b;
      StripConcat(a[1..], b);
    }
  }

  /** Nothing is substituted: each letter or digit occurs as often as in the input, anything else never. */
  lemma {:induction false} StripCounts(s: string, c: char)
    ensures multiset(StripNonAlnum(s))[c] == if IsAlnum(c) then multiset(s)[c] else 0
  {
    if s != [] {
      assert s == [s[0]] + s[1..];
      StripCounts(s[1..], c);
    }
  }

  function DigitChar(d: nat): (c: char)
    requires d < 10
    ensures IsDigit(c)
  {
    (('0' as int) + d) as char
  }

  function DigitValue(c: char): (d: nat)
    requires IsDigit(c)
    ensures d < 10
  {
    (c as int) - ('0' as int)
  }

  /** The decimal rendering of `n`: at least one digit, no leading zero. */
  function NatToDecimal(n: nat): (r: string)
    ensures |r| >= 1 && AllDigits(r)
    ensures r[0] == '0' ==> n == 0 && |r| == 1
    decreases n
  {
    if n < 10 then [DigitChar(n)] else NatToDecimal(n / 10) + [DigitChar(n % 10)]
  }

  /** The number a string of decimal digits denotes. */
  function DecimalValue(s: string): nat
    requires AllDigits(s)
    decreases |s|
  {
    if s == [] then 0 else DecimalValue(s[..|s| - 1]) * 10 + DigitValue(s[|s| - 1])
  }

  /** Reading the rendering back gives the number. */
  lemma {:induction false} DecimalRoundTrip(n: nat)
    ensures DecimalValue(NatToDecimal(n)) == n
  {
    var r := NatToDecimal(n);
    if n < 10 {
      assert r[..|r| - 1] == [];
    } else {
      assert r[..|r| - 1] == NatToDecimal(n / 10);
      DecimalRoundTrip(n / 10);
    }
  }

  /** Digits that denote zero are all zeros. */
  lemma {:induction false} DecimalZero(s: string)
    requires AllDigits(s) && DecimalValue(s) == 0
    ensures forall i :: 0 <= i < |s| ==> s[i] == '0'
  {
    if s != [] {
      var p := s[..|s| - 1];
      assert AllDigits(p);
      DecimalZero(p);
      assert forall i :: 0 <= i < |p| ==> s[i] == p[i];
    }
  }

  /** Every digit string without a leading zero is the rendering of its value. */
  lemma {:induction false} DecimalCanonical(s: string)
    requires |s| >= 1 && AllDigits(s)
    requires s[0] == '0' ==> |s| == 1
    ensures NatToDecimal(DecimalValue(s)) == s
  {
    var p := s[..|s| - 1];
    var d := DigitValue(s[|s| - 1]);
    assert DigitChar(d) == s[|s| - 1];
    if |s| == 1 {
      assert p == [];
      assert s == [s[0]];
    } else {
      assert AllDigits(p) && p[0] == s[0];
      if DecimalValue(p) == 0 {
        DecimalZero(p);
        assert false;
      }
      var v := DecimalValue(s);
      assert v / 10 == DecimalValue(p) && v % 10 == d;
      DecimalCanonical(p);
      assert s == p + [s[|s| - 1]];
    }
  }

  /** Two numbers render alike only when they are equal. */
  lemma DecimalInjective(m: nat, n: nat)
    ensures NatToDecimal(m) == NatToDecimal(n) <==> m == n
  {
    DecimalRoundTrip(m);
    DecimalRoundTrip(n);
  }

  /**
   * A string split as a prefix ending in a non-digit followed by digits has
   * only one such split.
   */
  lemma DigitSuffixUnique(p1: string, d1: string, p2: string, d2: string)
    requires |p1| > 0 && !IsDigit(p1[|p1| - 1]) && AllDigits(d1)
    requires |p2| > 0 && !IsDigit(p2[|p2| - 1]) && AllDigits(d2)
    requires p1 + d1 == p2 + d2
    ensures p1 == p2 && d1 == d2
  {
    var s := p1 + d1;
    assert !IsDigit(s[|p1| - 1]) && !IsDigit(s[|p2| - 1]);
    assert forall i :: |p1| <= i < |s| ==> s[i] == d1[i - |p1|];
    assert forall i :: |p2| <= i < |s| ==> s[i] == d2[i - |p2|];
    if |d1| != |d2| {
      assert false;
    }
    assert p1 == s[..|p1|] == p2;
    assert d1 == s[|p1|..] == d2;
  }
}
