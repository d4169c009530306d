/** Decimal digit strings: reading, printing, padding and trimming. */
module Decimal {

  predicate IsDigit(c: char) {
    '0' <= c <= '9'
  }

  predicate IsDigits(s: string) {
    forall i :: 0 <= i < |s| ==> IsDigit(s[i])
  }

  function DigitOf(d: nat): (c: char)
    requires d < 10
    ensures IsDigit(c)
  {
    '0' + d as char
  }

  function ValueOf(c: char): (d: nat)
    requires IsDigit(c)
    ensures d < 10 && DigitOf(d) == c
  {
    (c - '0') as nat
  }

  /** The number a digit string denotes; nothing denotes zero. */
  function Value(s: string): nat
    requires IsDigits(s)
  {
    if s == "" then 0 else Value(s[..|s| - 1]) * 10 + ValueOf(s[|s| - 1])
  }

  function Print(n: nat): (s: string)
    ensures IsDigits(s) && s != ""
  {
    if n < 10 then [DigitOf(n)] else Print(n / 10) + [DigitOf(n % 10)]
  }

  function Pow10(k: nat): (p: nat)
    ensures p > 0
  {
    if k == 0 then 1 else 10 * Pow10(k - 1)
  }

  function Zeros(k: nat): (s: string)
    ensures |s| == k && IsDigits(s)
  {
    seq(k, i => '0')
  }

  function PadStart(s: string, n: nat): string {
    if |s| >= n then s else Zeros(n - |s|) + s
  }

  function PadEnd(s: string, n: nat): string {
    if |s| >= n then s else s + Zeros(n - |s|)
  }

  function TrimZeros(s: string): (t: string)
    ensures t <= s
    ensures t == "" || t[|t| - 1] != '0'
  {
    if s != "" && s[|s| - 1] == '0' then TrimZeros(s[..|s| - 1]) else s
  }

  /** No superfluous leading zero. */
  predicate IsCanonical(s: string) {
    IsDigits(s) && s != "" && (s[0] == '0' ==> s == "0")
  }

  lemma {:induction false} ValuePrint(n: nat)
    ensures Value(Print(n)) == n
  {
    if n >= 10 {
      ValuePrint(n / 10);
      assert Print(n)[..|Print(n)| - 1] == Print(n / 10);
    } else {
      assert Print(n)[..0] == "";
    }
  }

  lemma {:induction false} PrintIsCanonical(n: nat)
    ensures IsCanonical(Print(n)) && (Print(n)[0] == '0' ==> n == 0)
  {
    if n >= 10 {
      PrintIsCanonical(n / 10);
    }
  }

  /** Printing undoes reading exactly on canonical strings. */
  lemma {:induction false} PrintValue(s: string)
    requires IsDigits(s) && s != ""
    ensures Print(Value(s)) == s <==> IsCanonical(s)
  {
    PrintIsCanonical(Value(s));
    if IsCanonical(s) && |s| > 1 {
      var front := s[..|s| - 1];
      PrintValue(front);
      FirstDigitCounts(front);
      assert s == front + [s[|s| - 1]];
    }
  }

  lemma {:induction false} FirstDigitCounts(s: string)
    requires IsDigits(s) && s != "" && s[0] != '0'
    ensures Value(s) > 0
  {
    if |s| > 1 {
      FirstDigitCounts(s[..|s| - 1]);
    }
  }

  lemma {:induction false} PowSum(a: nat, b: nat)
    ensures Pow10(a + b) == Pow10(a) * Pow10(b)
  {
    if a > 0 {
      PowSum(a - 1, b);
    }
  }

  lemma ShiftDigit(high: nat, pow: nat, low: nat, d: nat)
    ensures (high * pow + low) * 10 + d == high * (10 * pow) + (low * 10 + d)
  {
  }

  lemma {:induction false} ValueConcat(a: string, b: string)
    requires IsDigits(a) && IsDigits(b)
    ensures Value(a + b) == Value(a) * Pow10(|b|) + Value(b)
  {
    if b == "" {
      assert a + b == a;
    } else {
      var front := b[..|b| - 1];
      ValueConcat(a, front);
      assert (a + b)[..|a + b| - 1] == a + front;
      ShiftDigit(Value(a), Pow10(|front|), Value(front), ValueOf(b[|b| - 1]));
    }
  }

  lemma {:induction false} ValueZeros(k: nat)
    ensures Value(Zeros(k)) == 0
  {
    if k > 0 {
      ValueZeros(k - 1);
      assert Zeros(k)[..k - 1] == Zeros(k - 1);
    }
  }

  lemma {:induction false} ValueBound(s: string)
    requires IsDigits(s)
    ensures Value(s) < Pow10(|s|)
  {
    if s != "" {
      ValueBound(s[..|s| - 1]);
    }
  }

  lemma {:induction false} PrintLength(n: nat, k: nat)
    requires k > 0 && n < Pow10(k)
    ensures |Print(n)| <= k
  {
    if n >= 10 {
      assert k > 1 by {
        assert Pow10(1) == 10 * Pow10(0);
      }
      PrintLength(n / 10, k - 1);
    }
  }

  lemma PadStartValue(s: string, n: nat)
    requires IsDigits(s)
    ensures IsDigits(PadStart(s, n)) && Value(PadStart(s, n)) == Value(s)
  {
    if |s| < n {
      ValueZeros(n - |s|);
      ValueConcat(Zeros(n - |s|), s);
    }
  }

  lemma PadEndValue(s: string, n: nat)
    requires IsDigits(s) && |s| <= n
    ensures IsDigits(PadEnd(s, n)) && |PadEnd(s, n)| == n
    ensures Value(PadEnd(s, n)) == Value(s) * Pow10(n - |s|)
  {
    ValueZeros(n - |s|);
    ValueConcat(s, Zeros(n - |s|));
    assert s + Zeros(0) == s;
  }

  /** Padding restores what trimming took. */
  lemma {:induction false} PadTrimmed(s: string)
    ensures PadEnd(TrimZeros(s), |s|) == s
  {
    if s != "" && s[|s| - 1] == '0' {
      var front := s[..|s| - 1];
      PadTrimmed(front);
      var t := TrimZeros(front);
      assert Zeros(|s| - |t|) == Zeros(|front| - |t|) + "0";
      assert s == front + "0";
      assert PadEnd(t, |front|) == t + Zeros(|front| - |t|);
    }
  }
}
