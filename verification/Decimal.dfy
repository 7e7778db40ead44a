/** Decimal numerals as Python prints them, zero-padded or not, and their string order. */
module Decimal {
  import opened Sorting

  function Digit(d: nat): char
    requires d < 10
  {
    '0' + d as char
  }

  predicate IsDigit(c: char) {
    '0' <= c <= '9'
  }

  predicate Digits(s: string) {
    forall i | 0 <= i < |s| :: IsDigit(s[i])
  }

  function DecimalOf(n: nat): (s: string)
    ensures s != "" && Digits(s)
  {
    if n < 10 then [Digit(n)] else DecimalOf(n / 10) + [Digit(n % 10)]
  }

  /** Python's `int`. */
  function NumberOf(s: string): nat
    requires Digits(s)
  {
    if s == "" then 0 else NumberOf(s[..|s| - 1]) * 10 + (s[|s| - 1] - '0') as nat
  }

  lemma {:induction false} DecimalRoundTrip(n: nat)
    ensures NumberOf(DecimalOf(n)) == n
  {
    if n >= 10 {
      DecimalRoundTrip(n / 10);
      assert DecimalOf(n)[..|DecimalOf(n)| - 1] == DecimalOf(n / 10);
    }
  }

  lemma {:induction false} LongerDecimal(m: nat, n: nat)
    requires m <= n
    ensures |DecimalOf(m)| <= |DecimalOf(n)|
  {
    if m >= 10 {
      LongerDecimal(m / 10, n / 10);
    }
  }

  function Zeros(n: nat): string {
    if n == 0 then "" else Zeros(n - 1) + "0"
  }

  /** `f"{n:0{width}d}"`. */
  function Padded(n: nat, width: nat): (s: string)
    ensures Digits(s) && |s| == if |DecimalOf(n)| < width then width else |DecimalOf(n)|
  {
    ZerosAreDigits(if |DecimalOf(n)| < width then width - |DecimalOf(n)| else 0);
    if |DecimalOf(n)| < width then Zeros(width - |DecimalOf(n)|) + DecimalOf(n) else DecimalOf(n)
  }

  lemma {:induction false} ZerosAreDigits(n: nat)
    ensures |Zeros(n)| == n && Digits(Zeros(n)) && NumberOf(Zeros(n)) == 0
  {
    if n > 0 {
      ZerosAreDigits(n - 1);
      assert Zeros(n)[..n - 1] == Zeros(n - 1);
    }
  }

  lemma {:induction false} LeadingZeros(n: nat, s: string)
    requires Digits(s)
    ensures Digits(Zeros(n) + s) && NumberOf(Zeros(n) + s) == NumberOf(s)
    decreases |s|
  {
    ZerosAreDigits(n);
    if s == "" {
      assert Zeros(n) + s == Zeros(n);
    } else {
      LeadingZeros(n, s[..|s| - 1]);
      assert (Zeros(n) + s)[..n + |s| - 1] == Zeros(n) + s[..|s| - 1];
    }
  }

  lemma PaddedRoundTrip(n: nat, width: nat)
    ensures NumberOf(Padded(n, width)) == n
  {
    DecimalRoundTrip(n);
    if |DecimalOf(n)| < width {
      LeadingZeros(width - |DecimalOf(n)|, DecimalOf(n));
    }
  }

  // --- String order ------------------------------------------------------------------------------

  lemma {:induction false} LessOnLast(x: string, y: string, c: char, d: char)
    requires |x| == |y|
    ensures TextLess(x + [c], y + [d]) <==> TextLess(x, y) || (x == y && c < d)
  {
    if x != "" {
      assert (x + [c])[1..] == x[1..] + [c] && (y + [d])[1..] == y[1..] + [d];
      assert x == [x[0]] + x[1..] && y == [y[0]] + y[1..];
      LessOnLast(x[1..], y[1..], c, d);
    }
  }

  /** Numerals of one length are ordered as their numbers are. */
  lemma {:induction false} DigitOrder(x: string, y: string)
    requires Digits(x) && Digits(y) && |x| == |y|
    ensures TextLess(x, y) <==> NumberOf(x) < NumberOf(y)
    ensures x == y <==> NumberOf(x) == NumberOf(y)
  {
    if x != "" {
      var n := |x| - 1;
      assert x == x[..n] + [x[n]] && y == y[..n] + [y[n]];
      DigitOrder(x[..n], y[..n]);
      LessOnLast(x[..n], y[..n], x[n], y[n]);
    }
  }

  lemma {:induction false} SamePrefix(p: string, x: string, y: string)
    ensures TextLess(p + x, p + y) <==> TextLess(x, y)
  {
    if p == "" {
      assert p + x == x && p + y == y;
    } else {
      assert (p + x)[1..] == p[1..] + x && (p + y)[1..] == p[1..] + y;
      SamePrefix(p[1..], x, y);
    }
  }
}
