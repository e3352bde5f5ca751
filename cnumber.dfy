/**
 * Decimal numbers as the C library reads them: atoi (section 7.22.1.2 of
 * ISO/IEC 9899:2011, strtol with base 10 of section 7.22.1.4), and the
 * decimal spelling a non-negative number is written with.
 */
module CNumber {
  import opened Tokenizer

  function Pow10(k: nat): (p: nat)
    ensures p >= 1
  {
    if k == 0 then 1 else 10 * Pow10(k - 1)
  }

  lemma {:induction false} Pow10Monotone(j: nat, k: nat)
    requires j <= k
    ensures Pow10(j) <= Pow10(k)
  {
    if j < k {
      Pow10Monotone(j, k - 1);
    }
  }

  function DigitValue(c: char): (d: nat)
    requires IsDigit(c)
    ensures d < 10
  {
    c as int - '0' as int
  }

  function DigitChar(d: nat): (c: char)
    requires d < 10
    ensures IsDigit(c) && DigitValue(c) == d
  {
    ('0' as int + d) as char
  }

  predicate AllDigits(d: string) {
    forall i :: 0 <= i < |d| ==> IsDigit(d[i])
  }

  /** The number a run of decimal digits spells, most significant digit first. */
  function DigitsValue(d: string): (v: nat)
    requires AllDigits(d)
    ensures v < Pow10(|d|)
  {
    if |d| == 0 then 0
    else
      var w := DigitsValue(d[..|d| - 1]);
      assert w * 10 <= (Pow10(|d| - 1) - 1) * 10;
      w * 10 + DigitValue(d[|d| - 1])
  }

  /**
   * atoi: skip white space, take an optional sign, then the longest run of
   * decimal digits; with no digits the result is 0 and no error is reported.
   * Results outside the range of a C int are undefined behaviour in C; the
   * model keeps the mathematical value.
   */
  function AtoI(s: string): (n: int)
    ensures -(Pow10(|s|) as int) < n < Pow10(|s|)
    ensures (forall i :: 0 <= i < |s| ==> s[i] != '-') ==> 0 <= n
  {
    var t := s[Span(s, |s|, Space)..];
    var u := if |t| > 0 && (t[0] == '-' || t[0] == '+') then t[1..] else t;
    var d := u[..Span(u, |u|, Digit)];
    var v := DigitsValue(d);
    Pow10Monotone(|d|, |s|);
    if |t| > 0 && t[0] == '-' then
      assert t[0] in s;
      -(v as int)
    else v
  }

  /** The decimal spelling of `n`, without sign or leading zeros. */
  function Decimal(n: nat): (d: string)
    ensures 0 < |d| && AllDigits(d)
  {
    if n < 10 then [DigitChar(n)] else Decimal(n / 10) + [DigitChar(n % 10)]
  }

  lemma {:induction false} DigitsValueDecimal(n: nat)
    ensures DigitsValue(Decimal(n)) == n
  {
    if n >= 10 {
      var d := Decimal(n);
      assert d[..|d| - 1] == Decimal(n / 10);
      DigitsValueDecimal(n / 10);
    }
  }

  /** A number with at most `k` digits is spelled with at most `k` characters. */
  lemma {:induction false} DecimalLength(n: nat, k: nat)
    requires 0 < k && n < Pow10(k)
    ensures |Decimal(n)| <= k
  {
    if n >= 10 {
      DecimalLength(n / 10, k - 1);
    }
  }

  /** atoi reads back every decimal spelling. */
  lemma {:induction false} AtoIDecimal(n: nat)
    ensures AtoI(Decimal(n)) == n
  {
    var d := Decimal(n);
    assert !IsSpace(d[0]);
    SpanIs(d, |d|, Space, 0);
    assert d[0..] == d;
    SpanIs(d, |d|, Digit, |d|);
    assert d[..|d|] == d;
    DigitsValueDecimal(n);
  }

  /** atoi skips leading white space: what follows it alone decides the value. */
  lemma AtoISkipsSpace(w: string, t: string)
    requires forall i :: 0 <= i < |w| ==> IsSpace(w[i])
    requires |t| == 0 || !IsSpace(t[0])
    ensures AtoI(w + t) == AtoI(t)
  {
    var s := w + t;
    assert |w| < |s| ==> s[|w|] == t[0];
    SpanIs(s, |s|, Space, |w|);
    assert s[|w|..] == t;
    SpanIs(t, |t|, Space, 0);
    assert t[0..] == t;
  }

  /** Without white space or sign in front, atoi reads the leading run of digits. */
  lemma AtoIDigits(d: string, x: string)
    requires AllDigits(d)
    requires |x| == 0 || !IsDigit(x[0])
    requires d == "" && |x| > 0 ==> !(IsSpace(x[0]) || x[0] == '+' || x[0] == '-')
    ensures AtoI(d + x) == DigitsValue(d)
  {
    var u := d + x;
    assert |u| > 0 ==> u[0] == (if d != "" then d[0] else x[0]);
    SpanIs(u, |u|, Space, 0);
    assert u[0..] == u;
    assert forall i :: 0 <= i < |d| ==> u[i] == d[i];
    SpanIs(u, |u|, Digit, |d|);
    assert u[..|d|] == d;
  }

  /** After a sign, atoi reads the run of digits that follows it. */
  lemma AtoISigned(sg: string, d: string, x: string)
    requires sg == "+" || sg == "-"
    requires AllDigits(d)
    requires |x| == 0 || !IsDigit(x[0])
    ensures AtoI(sg + d + x) == if sg == "-" then -(DigitsValue(d) as int) else DigitsValue(d)
  {
    var u := d + x;
    var t := sg + u;
    assert sg + d + x == t;
    SpanIs(t, |t|, Space, 0);
    assert t[0..] == t;
    assert t[1..] == u;
    assert forall i :: 0 <= i < |d| ==> u[i] == d[i];
    SpanIs(u, |u|, Digit, |d|);
    assert u[..|d|] == d;
  }

  /**
   * atoi on any input: the leading white space is skipped, an optional sign
   * is read, and then the longest run of digits is the magnitude; whatever
   * follows the digits is ignored. No digits at all read as 0.
   */
  lemma AtoIReads(w: string, sg: string, d: string, x: string)
    requires forall i :: 0 <= i < |w| ==> IsSpace(w[i])
    requires sg == "" || sg == "+" || sg == "-"
    requires AllDigits(d)
    requires |x| == 0 || !IsDigit(x[0])
    requires sg == "" && d == "" && |x| > 0 ==> !(IsSpace(x[0]) || x[0] == '+' || x[0] == '-')
    ensures AtoI(w + sg + d + x) == if sg == "-" then -(DigitsValue(d) as int) else DigitsValue(d)
  {
    var t := sg + d + x;
    assert w + sg + d + x == w + t;
    assert |t| > 0 ==> t[0] == (if sg != "" then sg[0] else if d != "" then d[0] else x[0]);
    AtoISkipsSpace(w, t);
    if sg == "" {
      assert sg + d == d;
      AtoIDigits(d, x);
    } else {
      AtoISigned(sg, d, x);
    }
  }

  /** A string that does not start with white space, a sign or a digit reads as 0, not as an error. */
  lemma AtoINonNumeric(s: string)
    requires |s| == 0 || !(IsSpace(s[0]) || s[0] == '-' || s[0] == '+' || IsDigit(s[0]))
    ensures AtoI(s) == 0
  {
    SpanIs(s, |s|, Space, 0);
    assert s[0..] == s;
    SpanIs(s, |s|, Digit, 0);
  }
}
