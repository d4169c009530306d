/** Amounts of OG and wei (packages/shared/src/money.ts). */
module Money {
  import opened Basics
  import opened Decimal
  import opened Text

  datatype AmountError = InvalidAmount

  const MAX_OG_DECIMALS: nat := 18
  const WEI_PER_OG: nat := 1_000_000_000_000_000_000

  function ParseWei(w: string): Result<nat, AmountError> {
    if w != "" && IsDigits(w) then Ok(Value(w)) else Err(InvalidAmount)
  }

  /** A decimal as its pattern splits it: the digits before the dot, and those after it. */
  datatype Parts = Parts(whole: string, frac: string)

  function DotAt(s: string): (k: nat)
    ensures k <= |s| && (k < |s| ==> s[k] == '.') && forall i :: 0 <= i < k ==> s[i] != '.'
  {
    if s == "" || s[0] == '.' then 0 else 1 + DotAt(s[1..])
  }

  /** Matches `digits`, or `digits.digits`, against the whole string. */
  function Match(s: string): (r: Option<Parts>)
    ensures r.Some? ==> r.value.whole != "" && IsDigits(r.value.whole) && IsDigits(r.value.frac)
  {
    var k := DotAt(s);
    var whole := s[..k];
    if whole == "" || !IsDigits(whole) then None
    else if k == |s| then Some(Parts(whole, ""))
    else
      var frac := s[k + 1..];
      if frac == "" || !IsDigits(frac) then None else Some(Parts(whole, frac))
  }

  function OgToWei(og: string): Result<string, AmountError> {
    match Match(Trim(og))
    case None => Err(InvalidAmount)
    case Some(p) =>
      if |p.frac| > MAX_OG_DECIMALS then Err(InvalidAmount) else
      var padded := PadEnd(p.frac, MAX_OG_DECIMALS);
      Ok(Print(Value(p.whole) * WEI_PER_OG + Value(padded)))
  }

  function WeiToOg(w: string): Result<string, AmountError> {
    match ParseWei(w)
    case Err(e) => Err(e)
    case Ok(v) =>
      var whole, frac := v / WEI_PER_OG, v % WEI_PER_OG;
      if frac == 0 then Ok(Print(whole))
      else Ok(Print(whole) + "." + TrimZeros(PadStart(Print(frac), MAX_OG_DECIMALS)))
  }

  function CompareWei(a: string, b: string): Result<int, AmountError> {
    match (ParseWei(a), ParseWei(b))
    case (Ok(x), Ok(y)) => Ok(if x < y then -1 else if x > y then 1 else 0)
    case _ => Err(InvalidAmount)
  }

  /** Quotient and remainder. */
  function Split(v: nat, base: nat): (r: (nat, nat))
    requires base > 0
    ensures v == r.0 * base + r.1 && r.1 < base
  {
    (v / base, v % base)
  }

  function FormatUnits(atomic: string, decimals: int): Result<string, AmountError> {
    match ParseWei(atomic)
    case Err(e) => Err(e)
    case Ok(v) =>
      if decimals <= 0 then Ok(Print(v)) else
      var (whole, frac) := Split(v, Pow10(decimals));
      if frac == 0 then Ok(Print(whole))
      else Ok(Print(whole) + "." + TrimZeros(PadStart(Print(frac), decimals)))
  }

  // ---- what the strings denote ----------------------------------------------------------

  /** The amount is `Numerator / 10^|frac|`. */
  function Numerator(p: Parts): nat
    requires IsDigits(p.whole) && IsDigits(p.frac)
  {
    Value(p.whole) * Pow10(|p.frac|) + Value(p.frac)
  }

  /** The amount in units of `10^-decimals`. */
  function Scaled(p: Parts, decimals: nat): nat
    requires IsDigits(p.whole) && IsDigits(p.frac) && |p.frac| <= decimals
  {
    Numerator(p) * Pow10(decimals - |p.frac|)
  }

  /** The order of two decimals as rationals, by cross-multiplication. */
  predicate RationalLess(p: Parts, q: Parts)
    requires IsDigits(p.whole) && IsDigits(p.frac) && IsDigits(q.whole) && IsDigits(q.frac)
  {
    Numerator(p) * Pow10(|q.frac|) < Numerator(q) * Pow10(|p.frac|)
  }

  /** No superfluous zero at either end: the only such string for its amount. */
  predicate IsShortest(p: Parts) {
    IsCanonical(p.whole) && IsDigits(p.frac) && (p.frac == "" || p.frac[|p.frac| - 1] != '0')
  }

  lemma OgIsPow()
    ensures Pow10(18) == WEI_PER_OG
  {
    assert Pow10(6) == 1_000_000 by {
      assert Pow10(3) == 1000;
      PowSum(3, 3);
    }
    assert Pow10(12) == 1_000_000_000_000 by {
      PowSum(6, 6);
    }
    PowSum(6, 12);
  }

  lemma DigitIsNotSpace(c: char)
    ensures IsDigit(c) ==> !IsSpace(c)
  {
  }

  lemma MatchWhole(digits: string)
    requires digits != "" && IsDigits(digits)
    ensures Match(digits) == Some(Parts(digits, "")) && Trim(digits) == digits
  {
    hide IsSpace, Trim;
    DotFollows(digits, "");
    assert digits + "" == digits && digits[..|digits|] == digits;
    DigitIsNotSpace(digits[0]);
    DigitIsNotSpace(digits[|digits| - 1]);
    TrimNothing(digits);
  }

  lemma MatchDotted(whole: string, frac: string)
    requires whole != "" && IsDigits(whole) && frac != "" && IsDigits(frac)
    ensures Match(whole + "." + frac) == Some(Parts(whole, frac)) && Trim(whole + "." + frac) == whole + "." + frac
  {
    hide IsSpace, Trim, DotAt;
    var s := whole + "." + frac;
    DotFollows(whole, "." + frac);
    assert s == whole + ("." + frac);
    assert s[..|whole|] == whole && s[|whole| + 1..] == frac;
    assert s[0] == whole[0] && s[|s| - 1] == frac[|frac| - 1];
    DigitIsNotSpace(s[0]);
    DigitIsNotSpace(s[|s| - 1]);
    TrimNothing(s);
  }

  /** What the pattern accepts splits back into itself. */
  lemma MatchParts(p: Parts)
    requires p.whole != "" && IsDigits(p.whole) && IsDigits(p.frac)
    ensures var s := if p.frac == "" then p.whole else p.whole + "." + p.frac;
            Match(s) == Some(p) && Trim(s) == s
  {
    hide Match, Trim;
    if p.frac == "" {
      MatchWhole(p.whole);
    } else {
      MatchDotted(p.whole, p.frac);
    }
  }

  lemma {:induction false} DotFollows(digits: string, rest: string)
    requires IsDigits(digits) && (rest == "" || rest[0] == '.')
    ensures DotAt(digits + rest) == |digits|
  {
    if digits == "" {
      assert digits + rest == rest;
    } else {
      DotFollows(digits[1..], rest);
      assert (digits + rest)[1..] == digits[1..] + rest;
    }
  }

  lemma MulAssoc(a: nat, b: nat, c: nat)
    ensures a * b * c == a * (b * c)
  {
  }

  lemma Distribute(a: nat, b: nat, c: nat, d: nat)
    ensures (a * b + c) * d == a * (b * d) + c * d
  {
    MulAssoc(a, b, d);
  }

  lemma ScaledSplit(p: Parts, decimals: nat)
    requires IsDigits(p.whole) && IsDigits(p.frac) && |p.frac| <= decimals
    ensures Scaled(p, decimals) == Value(p.whole) * Pow10(decimals) + Value(p.frac) * Pow10(decimals - |p.frac|)
  {
    hide Value, Pow10;
    PowSum(|p.frac|, decimals - |p.frac|);
    Distribute(Value(p.whole), Pow10(|p.frac|), Value(p.frac), Pow10(decimals - |p.frac|));
  }

  /** An accepted amount becomes its exact number of wei, printed canonically. */
  lemma {:induction false} OgToWeiMeans(og: string)
    ensures OgToWei(og).Ok? <==> Match(Trim(og)).Some? && |Match(Trim(og)).value.frac| <= MAX_OG_DECIMALS
    ensures OgToWei(og).Ok? ==> OgToWei(og).value == Print(Scaled(Match(Trim(og)).value, MAX_OG_DECIMALS))
  {
    hide Value, Print, Pow10, Trim, Match, Scaled, PadEnd;
    if OgToWei(og).Ok? {
      var p := Match(Trim(og)).value;
      OgIsPow();
      PadEndValue(p.frac, 18);
      ScaledSplit(p, 18);
    }
  }

  lemma FormatParts(whole: nat, frac: nat, decimals: nat, p: Parts)
    requires decimals > 0 && frac < Pow10(decimals)
    requires p == Parts(Print(whole), if frac == 0 then "" else TrimZeros(PadStart(Print(frac), decimals)))
    ensures IsShortest(p) && |p.frac| <= decimals && Scaled(p, decimals) == whole * Pow10(decimals) + frac
    ensures frac != 0 ==> p.frac != ""
  {
    hide Print, Pow10, PadStart, TrimZeros, Scaled, Value;
    PrintIsCanonical(whole);
    ValuePrint(whole);
    if frac == 0 {
      EmptyIsZero();
    } else {
      FractionMeans(frac, decimals, p.frac);
    }
    ScaledSplit(p, decimals);
  }

  lemma EmptyIsZero()
    ensures Value("") == 0
  {
  }

  /** The digits on both sides of the dot, as the general printer computes them. */
  function Printed(v: nat, decimals: nat): Parts {
    var (whole, frac) := Split(v, Pow10(decimals));
    Parts(Print(whole), if frac == 0 then "" else TrimZeros(PadStart(Print(frac), decimals)))
  }

  /** What the printers write: the shortest decimal of `v` units of `10^-decimals`. */
  lemma {:induction false} PrintedMeans(v: nat, decimals: nat)
    requires decimals > 0
    ensures var p := Printed(v, decimals);
            && IsShortest(p) && |p.frac| <= decimals && Scaled(p, decimals) == v
            && (p.frac == "" <==> Split(v, Pow10(decimals)).1 == 0)
  {
    hide Print, Pow10, PadStart, TrimZeros, Scaled, IsShortest, Split;
    var (whole, frac) := Split(v, Pow10(decimals));
    FormatParts(whole, frac, decimals, Printed(v, decimals));
  }

  lemma FractionMeans(frac: nat, decimals: nat, trimmed: string)
    requires 0 < frac < Pow10(decimals) && decimals > 0
    requires trimmed == TrimZeros(PadStart(Print(frac), decimals))
    ensures IsDigits(trimmed) && 0 < |trimmed| <= decimals && trimmed[|trimmed| - 1] != '0'
    ensures Value(trimmed) * Pow10(decimals - |trimmed|) == frac
  {
    hide Print, Pow10, TrimZeros, PadEnd;
    var padded := PadStart(Print(frac), decimals);
    PrintLength(frac, decimals);
    PadStartValue(Print(frac), decimals);
    ValuePrint(frac);
    PadTrimmed(padded);
    PadEndValue(trimmed, decimals);
    assert Value("") == 0;
  }

  /** The printed amount, split by the pattern that reads amounts back. */
  lemma {:induction false} WeiToOgMeans(w: string)
    requires ParseWei(w).Ok?
    ensures WeiToOg(w).Ok? && Trim(WeiToOg(w).value) == WeiToOg(w).value
    ensures var m := Match(WeiToOg(w).value);
            m.Some? && IsShortest(m.value) && |m.value.frac| <= MAX_OG_DECIMALS
            && Scaled(m.value, MAX_OG_DECIMALS) == Value(w)
  {
    hide Pow10, Value, Print, TrimZeros, PadStart, Scaled, Match, Trim;
    OgIsPow();
    PrintedMeans(Value(w), 18);
    MatchParts(Printed(Value(w), 18));
  }

  // ---- the laws ---------------------------------------------------------------------------

  /** Wei to OG and back gives the canonical form of the wei string, for every wei string. */
  lemma {:induction false} WeiRoundTrip(w: string)
    requires ParseWei(w).Ok?
    ensures WeiToOg(w).Ok? && OgToWei(WeiToOg(w).value) == Ok(Print(Value(w)))
    ensures OgToWei(WeiToOg(w).value) == Ok(w) <==> IsCanonical(w)
  {
    WeiToOgMeans(w);
    OgToWeiMeans(WeiToOg(w).value);
    PrintValue(w);
  }

  /** OG to wei and back keeps the amount and gives its shortest form. */
  lemma {:induction false} OgRoundTrip(og: string)
    requires OgToWei(og).Ok?
    ensures var back := WeiToOg(OgToWei(og).value);
            && back.Ok? && Match(back.value).Some?
            && var p, q := Match(Trim(og)).value, Match(back.value).value;
            && IsShortest(q)
            && Numerator(p) * Pow10(|q.frac|) == Numerator(q) * Pow10(|p.frac|)
  {
    var w := OgToWei(og).value;
    OgToWeiMeans(og);
    var p := Match(Trim(og)).value;
    ValuePrint(Scaled(p, 18));
    WeiToOgMeans(w);
    var q := Match(WeiToOg(w).value).value;
    ScaledOrder(p, q);
    ScaledOrder(q, p);
  }

  /** Scaling to a common denominator keeps the rational order. */
  lemma ScaledOrder(p: Parts, q: Parts)
    requires IsDigits(p.whole) && IsDigits(p.frac) && IsDigits(q.whole) && IsDigits(q.frac)
    requires |p.frac| <= 18 && |q.frac| <= 18
    ensures RationalLess(p, q) <==> Scaled(p, 18) < Scaled(q, 18)
  {
    hide Value, Pow10, Numerator;
    PowSum(|p.frac|, 18 - |p.frac|);
    PowSum(|q.frac|, 18 - |q.frac|);
    CrossOrder(Numerator(p), Numerator(q), Pow10(|p.frac|), Pow10(18 - |p.frac|),
               Pow10(|q.frac|), Pow10(18 - |q.frac|), Pow10(18));
  }

  lemma CrossOrder(x: nat, y: nat, j: nat, upJ: nat, k: nat, upK: nat, all: nat)
    requires j > 0 && k > 0 && all > 0 && j * upJ == all && k * upK == all
    ensures x * k < y * j <==> x * upJ < y * upK
  {
    CommonScale(x, upJ, j, k, all);
    CommonScale(y, upK, k, j, all);
    MulPositive(j, k);
    assert k * j == j * k;
    LessTimes(x * upJ, y * upK, j * k);
    LessTimes(x * k, y * j, all);
  }

  lemma MulPositive(a: nat, b: nat)
    requires a > 0 && b > 0
    ensures a * b > 0
  {
  }

  lemma CommonScale(x: nat, up: nat, own: nat, other: nat, all: nat)
    requires own * up == all
    ensures (x * up) * (own * other) == (x * other) * all
  {
    calc {
      (x * up) * (own * other);
      { MulAssoc(x, up, own * other); }
      x * (up * (own * other));
      { MulAssoc(up, own, other); }
      x * (up * own * other);
      { assert up * own == all; }
      x * (all * other);
      { assert all * other == other * all; MulAssoc(x, other, all); }
      (x * other) * all;
    }
  }

  lemma LessTimes(a: nat, b: nat, c: nat)
    requires c > 0
    ensures a < b <==> a * c < b * c
  {
  }

  /** Comparing converted amounts is comparing the decimals as rationals. */
  lemma {:induction false} CompareIsRational(a: string, b: string)
    ensures OgToWei(a).Ok? && OgToWei(b).Ok? ==>
              var p, q := Match(Trim(a)).value, Match(Trim(b)).value;
              CompareWei(OgToWei(a).value, OgToWei(b).value)
              == Ok(if RationalLess(p, q) then -1 else if RationalLess(q, p) then 1 else 0)
  {
    hide Trim, Match, Value, Scaled, RationalLess;
    OgToWeiMeans(a);
    OgToWeiMeans(b);
    if OgToWei(a).Ok? && OgToWei(b).Ok? {
      var p, q := Match(Trim(a)).value, Match(Trim(b)).value;
      ValuePrint(Scaled(p, 18));
      ValuePrint(Scaled(q, 18));
      ScaledOrder(p, q);
      ScaledOrder(q, p);
    }
  }

  /** The general printer at eighteen decimals is the OG printer, on every input. */
  lemma {:induction false} FormatUnitsIsWeiToOg(w: string)
    ensures FormatUnits(w, 18) == WeiToOg(w)
  {
    hide Pow10, Value, Print, TrimZeros, PadStart;
    OgIsPow();
  }

  /** At any positive precision the general printer writes the shortest decimal of the amount. */
  lemma {:induction false} FormatUnitsIsExact(w: string, decimals: nat)
    requires ParseWei(w).Ok? && decimals > 0
    ensures FormatUnits(w, decimals).Ok?
    ensures var m := Match(FormatUnits(w, decimals).value);
            m.Some? && IsShortest(m.value) && |m.value.frac| <= decimals && Scaled(m.value, decimals) == Value(w)
  {
    hide Pow10, Value, Print, TrimZeros, PadStart, Scaled, Match, Trim, Split;
    PrintedMeans(Value(w), decimals);
    MatchParts(Printed(Value(w), decimals));
  }

  /** Which strings are amounts, and how each is split: digits, or digits, a dot and digits. */
  lemma {:induction false} MatchesExactly(s: string, p: Parts)
    ensures Match(s) == Some(p) <==>
              && p.whole != "" && IsDigits(p.whole) && IsDigits(p.frac)
              && s == if p.frac == "" then p.whole else p.whole + "." + p.frac
  {
    if Match(s) == Some(p) {
      assert s == if p.frac == "" then s[..|s|] else s[..|p.whole|] + "." + s[|p.whole| + 1..];
    } else if p.whole != "" && IsDigits(p.whole) && IsDigits(p.frac) {
      MatchParts(p);
    }
  }

  /** Without decimals the general printer prints the integer. */
  lemma {:induction false} NoDecimals(w: string, decimals: int)
    requires decimals <= 0
    ensures FormatUnits(w, decimals) ==
              if w != "" && IsDigits(w) then Ok(Print(Value(w))) else Err(InvalidAmount)
  {
  }
}
