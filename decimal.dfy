/** Decimal text of a non-negative integer, as `Number.prototype.toString()` writes it. */
module Decimal {

  predicate IsDigit(c: char) {
    '0' <= c <= '9'
  }

  function DigitChar(d: nat): (c: char)
    requires d < 10
    ensures IsDigit(c) && (c as int) - ('0' as int) == d
  {
    ['0', '1', '2', '3', '4', '5', '6', '7', '8', '9'][d]
  }

  /** `n.toString()` for a non-negative integer `n`. */
  function NatToDecimal(n: nat): (s: string)
    ensures |s| >= 1
    ensures forall i | 0 <= i < |s| :: IsDigit(s[i])
    ensures s[0] == '0' ==> n == 0 && s == "0"
  {
    if n < 10 then [DigitChar(n)] else NatToDecimal(n / 10) + [DigitChar(n % 10)]
  }

  /** The number a string of decimal digits denotes. */
  function DecimalValue(s: string): nat
    requires forall i | 0 <= i < |s| :: IsDigit(s[i])
  {
    if s == [] then 0
    else
      assert IsDigit(s[|s| - 1]);
      10 * DecimalValue(s[..|s| - 1]) + ((s[|s| - 1] as int) - ('0' as int))
  }

  /** Reading the decimal text back gives the number: a header value that states the length. */
  lemma {:induction false} DecimalRoundTrip(n: nat)
    ensures DecimalValue(NatToDecimal(n)) == n
  {
    if n >= 10 {
      var s := NatToDecimal(n);
      assert s[..|s| - 1] == NatToDecimal(n / 10);
      DecimalRoundTrip(n / 10);
    }
  }

  /** A decimal text as `toString()` writes it: digits only, at least one, and no leading zero. */
  predicate Canonical(s: string) {
    && |s| >= 1
    && (forall i | 0 <= i < |s| :: IsDigit(s[i]))
    && (s[0] == '0' ==> s == "0")
  }

  /** Digits that do not start with '0' denote a positive number. */
  lemma {:induction false} NonZeroLead(s: string)
    requires |s| >= 1 && forall i | 0 <= i < |s| :: IsDigit(s[i])
    requires s[0] != '0'
    ensures DecimalValue(s) >= 1
  {
    if |s| > 1 {
      var p := s[..|s| - 1];
      assert p[0] == s[0];
      NonZeroLead(p);
    }
  }

  /**
   * The canonical text of a number is unique: any canonical text whose value is `n` is
   * exactly `NatToDecimal(n)`, so a value and canonical form pin a header down to `toString()`.
   */
  lemma {:induction false} CanonicalUnique(s: string, n: nat)
    requires Canonical(s) && DecimalValue(s) == n
    ensures s == NatToDecimal(n)
  {
    var last := s[|s| - 1];
    var d := (last as int) - ('0' as int);
    assert IsDigit(last);
    if |s| == 1 {
      assert DecimalValue(s) == 10 * DecimalValue([]) + d;
      assert DigitChar(n) as int == last as int;
    } else {
      var p := s[..|s| - 1];
      assert s[0] != '0';
      assert p[0] == s[0];
      assert Canonical(p);
      NonZeroLead(p);
      var m := DecimalValue(p);
      assert n == 10 * m + d;
      assert n / 10 == m && n % 10 == d;
      CanonicalUnique(p, m);
      assert DigitChar(d) as int == last as int;
      assert s == p + [last];
    }
  }
}
