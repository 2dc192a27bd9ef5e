/** Decimal digits and integers in decimal text, shared by the date text
    form, the error-code parse (`strconv.Atoi`) and the `%d` verb of
    `fmt.Sprintf`. */
module Decimal {

  predicate IsDigit(c: char) {
    '0' <= c <= '9'
  }

  function DigitValue(c: char): int {
    c as int - '0' as int
  }

  function DigitChar(n: int): char
    requires 0 <= n <= 9
  {
    (n + '0' as int) as char
  }

  /** The value of the decimal digits `s[lo..hi]`. */
  function DigitsAt(s: string, lo: nat, hi: nat): int
    requires lo <= hi <= |s|
    decreases hi - lo
  {
    if lo == hi then 0 else DigitsAt(s, lo, hi - 1) * 10 + DigitValue(s[hi - 1])
  }

  lemma DigitRoundTrip(c: char)
    requires IsDigit(c)
    ensures 0 <= DigitValue(c) <= 9 && DigitChar(DigitValue(c)) == c
  {
  }

  /** `%d` of a natural number: its digits, most significant first, no
      leading zero. */
  function FormatNat(n: nat): (r: string)
    ensures 1 <= |r|
    ensures forall i :: 0 <= i < |r| ==> IsDigit(r[i])
    decreases n
  {
    if n < 10 then [DigitChar(n)] else FormatNat(n / 10) + [DigitChar(n % 10)]
  }

  /** `%d` of an integer: a `-` before the digits of a negative number. */
  function FormatInt(n: int): (r: string)
    ensures 1 <= |r|
    ensures r[0] == '-' <==> n < 0
    ensures forall i :: 1 <= i < |r| ==> IsDigit(r[i])
  {
    if n < 0 then "-" + FormatNat(-n) else FormatNat(n)
  }

  /** Where the digits start: after an optional sign. */
  function DigitsStart(s: string): nat {
    if |s| > 0 && (s[0] == '+' || s[0] == '-') then 1 else 0
  }

  /** An optional `+` or `-` followed by one or more decimal digits and nothing else. */
  predicate IsDecimalInteger(s: string) {
    && DigitsStart(s) < |s|
    && forall i :: DigitsStart(s) <= i < |s| ==> IsDigit(s[i])
  }

  /** The value of a decimal integer, negated after a `-`. */
  function DecimalValue(s: string): int
    requires IsDecimalInteger(s)
  {
    var v := DigitsAt(s, DigitsStart(s), |s|);
    if s[0] == '-' then -v else v
  }

  /** Only the characters in `s[lo..hi]` decide its value. */
  lemma {:induction false} DigitsAtFrame(s: string, t: string, lo: nat, hi: nat)
    requires lo <= hi <= |s| && hi <= |t|
    requires forall i :: lo <= i < hi ==> s[i] == t[i]
    ensures DigitsAt(s, lo, hi) == DigitsAt(t, lo, hi)
    decreases hi - lo
  {
    if lo < hi {
      DigitsAtFrame(s, t, lo, hi - 1);
    }
  }

  /** A prefix in front of the digits does not change their value. */
  lemma {:induction false} DigitsAtShift(p: string, s: string, lo: nat, hi: nat)
    requires lo <= hi <= |s|
    ensures DigitsAt(p + s, |p| + lo, |p| + hi) == DigitsAt(s, lo, hi)
    decreases hi - lo
  {
    if lo < hi {
      DigitsAtShift(p, s, lo, hi - 1);
      assert (p + s)[|p| + hi - 1] == s[hi - 1];
    }
  }

  /** Reading back the digits of `n` gives `n`. */
  lemma {:induction false} FormatNatValue(n: nat)
    ensures DigitsAt(FormatNat(n), 0, |FormatNat(n)|) == n
    decreases n
  {
    var s := FormatNat(n);
    if n < 10 {
      assert DigitsAt(s, 0, 0) == 0;
    } else {
      var p := FormatNat(n / 10);
      assert s == p + [DigitChar(n % 10)];
      FormatNatValue(n / 10);
      DigitsAtFrame(s, p, 0, |p|);
      assert DigitsAt(s, 0, |s|) == DigitsAt(s, 0, |p|) * 10 + n % 10;
    }
  }

  /** The text `%d` writes is a decimal integer whose value is the number:
      parsing inverts formatting. */
  lemma FormatIntRoundTrip(n: int)
    ensures IsDecimalInteger(FormatInt(n))
    ensures DecimalValue(FormatInt(n)) == n
  {
    if n < 0 {
      var d := FormatNat(-n);
      var s := "-" + d;
      assert s[0] == '-';
      assert forall i :: 1 <= i < |s| ==> s[i] == d[i - 1];
      FormatNatValue(-n);
      DigitsAtShift("-", d, 0, |d|);
    } else {
      var d := FormatNat(n);
      FormatNatValue(n);
      assert d[0] != '+' && d[0] != '-';
    }
  }
}
