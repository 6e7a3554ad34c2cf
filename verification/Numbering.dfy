/** Document numbers: a prefix and a zero-padded counter. */
module Numbering {
  function Digit(d: nat): char
    requires d < 10
  {
    ('0' as int + d) as char
  }

  function Digits(n: nat): string {
    if n < 10 then [Digit(n)] else Digits(n / 10) + [Digit(n % 10)]
  }

  function Zeros(n: nat): string {
    if n == 0 then "" else Zeros(n - 1) + "0"
  }

  function Padded(n: nat, width: nat): string {
    var digits := Digits(n);
    if |digits| >= width then digits else Zeros(width - |digits|) + digits
  }

  function DocumentNumber(n: nat): string {
    "51" + Padded(n, 8)
  }

  function ApplicationNumber(n: nat): string {
    "CA-" + Padded(n, 6)
  }

  /** Reading a decimal string back. */
  function Value(s: string): int {
    if s == "" then 0 else 10 * Value(s[..|s| - 1]) + (s[|s| - 1] as int - '0' as int)
  }

  lemma {:induction false} ValueOfDigits(n: nat)
    ensures Value(Digits(n)) == n
  {
    if n >= 10 {
      ValueOfDigits(n / 10);
    } else {
      assert Digits(n)[..0] == "";
    }
  }

  lemma {:induction false} ValueOfPadding(k: nat, s: string)
    ensures Value(Zeros(k) + s) == Value(s)
    decreases k, |s|
  {
    if s == "" {
      assert Zeros(k) + s == Zeros(k);
      if k > 0 {
        assert Zeros(k - 1) + "" == Zeros(k - 1);
        ValueOfPadding(k - 1, "");
      }
    } else {
      assert (Zeros(k) + s)[..|Zeros(k) + s| - 1] == Zeros(k) + s[..|s| - 1];
      ValueOfPadding(k, s[..|s| - 1]);
    }
  }

  lemma PaddedRoundTrip(n: nat, width: nat)
    ensures Value(Padded(n, width)) == n
  {
    ValueOfDigits(n);
    if |Digits(n)| < width {
      ValueOfPadding(width - |Digits(n)|, Digits(n));
    }
  }

  /** Different counters print differently, past the padded width too. */
  lemma DocumentNumberInjective(m: nat, n: nat)
    ensures DocumentNumber(m) == DocumentNumber(n) <==> m == n
  {
    PaddedRoundTrip(m, 8);
    PaddedRoundTrip(n, 8);
    assert DocumentNumber(m)[2..] == Padded(m, 8) && DocumentNumber(n)[2..] == Padded(n, 8);
  }

  predicate AllDigits(s: string) {
    forall k :: 0 <= k < |s| ==> '0' <= s[k] <= '9'
  }

  lemma {:induction false} DigitsAreDigits(n: nat)
    ensures AllDigits(Digits(n)) && |Digits(n)| >= 1 && (n >= 10 ==> Digits(n)[0] != '0')
  {
    if n >= 10 {
      DigitsAreDigits(n / 10);
    }
  }

  lemma {:induction false} ZerosAreZeros(n: nat)
    ensures |Zeros(n)| == n && forall k :: 0 <= k < n ==> Zeros(n)[k] == '0'
  {
    if n > 0 {
      ZerosAreZeros(n - 1);
    }
  }

  lemma PaddedReads(n: nat, width: nat)
    requires width >= 1
    ensures var s := Padded(n, width);
            |s| >= width && AllDigits(s) && Value(s) == n && (|s| > width ==> s[0] != '0')
  {
    hide Digits, Value, Zeros;
    PaddedRoundTrip(n, width);
    DigitsAreDigits(n);
    if |Digits(n)| < width {
      ZerosAreZeros(width - |Digits(n)|);
    } else {
      OneDigit(n);
    }
  }

  lemma OneDigit(n: nat)
    ensures n < 10 ==> |Digits(n)| == 1
  {
  }

  /** A number is its prefix and the counter in decimal, padded with noughts to its width. */
  lemma NumbersRead(n: nat)
    ensures var d, a := DocumentNumber(n), ApplicationNumber(n);
            && |d| >= 10 && d[..2] == "51" && AllDigits(d[2..]) && Value(d[2..]) == n && (|d| > 10 ==> d[2] != '0')
            && |a| >= 9 && a[..3] == "CA-" && AllDigits(a[3..]) && Value(a[3..]) == n && (|a| > 9 ==> a[3] != '0')
  {
    hide Padded, Value, AllDigits;
    PaddedReads(n, 8);
    PaddedReads(n, 6);
    assert DocumentNumber(n)[2..] == Padded(n, 8) && ApplicationNumber(n)[3..] == Padded(n, 6);
  }
}
