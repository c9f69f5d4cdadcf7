/** The fixed-point printer of balances: a count of stroops as a decimal string with eight places. */
module Stroops {

  const PLACES: nat := 8

  function Pow10(n: nat): (p: nat)
    ensures p >= 1
  {
    if n == 0 then 1 else 10 * Pow10(n - 1)
  }

  // ----- decimal digits ------------------------------------------------------

  predicate IsDigit(c: char) { '0' <= c <= '9' }

  predicate AllDigits(s: string) { forall i :: 0 <= i < |s| ==> IsDigit(s[i]) }

  function DigitChar(d: nat): (c: char)
    requires d < 10
    ensures IsDigit(c) && DigitValue(c) == d
  {
    ((d as int) + ('0' as int)) as char
  }

  function DigitValue(c: char): nat {
    if IsDigit(c) then (c as int) - ('0' as int) else 0
  }

  /** The number a digit string stands for. */
  function ValueOf(s: string): nat {
    if s == "" then 0 else ValueOf(s[..|s| - 1]) * 10 + DigitValue(s[|s| - 1])
  }

  /** `BigInt.prototype.toString` of a natural number. */
  function Digits(n: nat): (s: string)
    ensures s != "" && AllDigits(s) && ValueOf(s) == n && (n > 0 ==> s[0] != '0')
  {
    if n < 10 then [DigitChar(n)] else Digits(n / 10) + [DigitChar(n % 10)]
  }

  function ToString(n: int): string {
    if n < 0 then "-" + Digits(-n) else Digits(n)
  }

  function Zeros(k: nat): (s: string)
    ensures |s| == k && AllDigits(s) && ValueOf(s) == 0
  {
    if k == 0 then "" else Zeros(k - 1) + "0"
  }

  function PadStart(s: string, k: nat): string {
    if |s| < k then Zeros(k - |s|) + s else s
  }

  /** `replace(/0+$/, "")`. */
  function StripZeros(s: string): (r: string)
    ensures |r| <= |s| && r == s[..|r|] && (r != "" ==> r[|r| - 1] != '0')
  {
    if s != "" && s[|s| - 1] == '0' then StripZeros(s[..|s| - 1]) else s
  }

  /** `replace(/\.$/, ".0")`. */
  function DotZero(s: string): string {
    if s != "" && s[|s| - 1] == '.' then s[..|s| - 1] + ".0" else s
  }

  function StroopsToAmount(stroops: int): string {
    var str := ToString(stroops);
    if str == "0" then "0"
    else
      var negative := str[0] == '-';
      var abs := if negative then str[1..] else str;
      var result := AbsToAmount(abs);
      if negative then "-" + result else result
  }

  function AbsToAmount(abs: string): string {
    if |abs| <= 8 then DotZero(StripZeros("0." + PadStart(abs, 8)))
    else
      var intPart := abs[..|abs| - 8];
      var decPart := StripZeros(abs[|abs| - 8..]);
      if decPart != "" then intPart + "." + decPart else intPart
  }

  // ----- reading back --------------------------------------------------------

  function IndexOf(s: string, c: char): (i: nat)
    ensures i <= |s| && (i < |s| ==> s[i] == c) && forall j :: 0 <= j < i ==> s[j] != c
  {
    if s == "" || s[0] == c then 0 else 1 + IndexOf(s[1..], c)
  }

  /** An unsigned decimal, times 10^8; of the places after the eighth nothing is read. */
  function ReadUnsigned(s: string): nat {
    var dot := IndexOf(s, '.');
    if dot == |s| then ValueOf(s) * Pow10(PLACES)
    else
      var frac := s[dot + 1..];
      if |frac| > PLACES then ValueOf(s[..dot]) * Pow10(PLACES)
      else ValueOf(s[..dot]) * Pow10(PLACES) + ValueOf(frac) * Pow10(PLACES - |frac|)
  }

  function ReadAmount(s: string): int {
    if s != "" && s[0] == '-' then -(ReadUnsigned(s[1..]) as int) else ReadUnsigned(s)
  }

  // ----- arithmetic of digit strings -----------------------------------------

  lemma {:induction false} ValueOfConcat(a: string, b: string)
    ensures ValueOf(a + b) == ValueOf(a) * Pow10(|b|) + ValueOf(b)
    decreases |b|
  {
    if b == "" {
      assert a + b == a;
    } else {
      var c := b[..|b| - 1];
      assert (a + b)[..|a + b| - 1] == a + c && (a + b)[|a + b| - 1] == b[|b| - 1];
      ValueOfConcat(a, c);
      Shift(ValueOf(a), Pow10(|c|), ValueOf(c));
    }
  }

  lemma Shift(x: nat, p: nat, y: nat)
    ensures (x * p + y) * 10 == x * (10 * p) + y * 10
  {
  }

  lemma {:induction false} StrippedValue(s: string)
    ensures ValueOf(s) == ValueOf(StripZeros(s)) * Pow10(|s| - |StripZeros(s)|)
  {
    if s != "" && s[|s| - 1] == '0' {
      var t := s[..|s| - 1];
      StrippedValue(t);
      Shift(ValueOf(StripZeros(t)), Pow10(|t| - |StripZeros(t)|), 0);
    }
  }

  lemma {:induction false} StripBehind(a: string, b: string)
    requires StripZeros(b) != ""
    ensures StripZeros(a + b) == a + StripZeros(b)
    decreases |b|
  {
    assert (a + b)[|a + b| - 1] == b[|b| - 1];
    if b[|b| - 1] == '0' {
      assert (a + b)[..|a + b| - 1] == a + b[..|b| - 1];
      StripBehind(a, b[..|b| - 1]);
    }
  }

  lemma {:induction false} PaddedValue(s: string, k: nat)
    requires |s| <= k && AllDigits(s)
    ensures |PadStart(s, k)| == k && AllDigits(PadStart(s, k)) && ValueOf(PadStart(s, k)) == ValueOf(s)
  {
    if |s| < k { ValueOfConcat(Zeros(k - |s|), s); }
  }

  // ----- the printed form ----------------------------------------------------

  /** Digits without a superfluous leading zero, then nothing or a point and one to eight digits not ending in zero. */
  predicate WellPrinted(s: string) {
    var dot := IndexOf(s, '.');
    && dot > 0 && AllDigits(s[..dot]) && (dot > 1 ==> s[0] != '0')
    && (dot < |s| ==> |s| - dot - 1 in {1, 2, 3, 4, 5, 6, 7, 8} && AllDigits(s[dot + 1..]) && s[|s| - 1] != '0')
  }

  lemma {:induction false} Joined(a: string, b: string)
    requires a != "" && AllDigits(a) && (|a| > 1 ==> a[0] != '0')
    requires b != "" && AllDigits(b) && |b| <= PLACES && b[|b| - 1] != '0'
    ensures WellPrinted(a + "." + b)
    ensures ReadUnsigned(a + "." + b) == ValueOf(a) * Pow10(PLACES) + ValueOf(b) * Pow10(PLACES - |b|)
  {
    var s := a + "." + b;
    assert s[|a|] == '.';
    assert IndexOf(s, '.') == |a|;
    assert s[..|a|] == a && s[|a| + 1..] == b;
  }

  /** The fraction of an amount below one unit: never empty, because its digits are not all zero. */
  lemma {:induction false} SmallFraction(abs: string)
    requires AllDigits(abs) && |abs| <= 8 && ValueOf(abs) > 0
    ensures var f := StripZeros(PadStart(abs, 8));
      f != "" && AllDigits(f) && |f| <= 8 && ValueOf(f) * Pow10(8 - |f|) == ValueOf(abs)
  {
    PaddedValue(abs, 8);
    StrippedValue(PadStart(abs, 8));
  }

  lemma DotZeroIdle(a: string, f: string)
    requires f != "" && f[|f| - 1] != '.'
    ensures DotZero(a + f) == a + f
  {
  }

  lemma NotPoint(f: string)
    requires f != "" && AllDigits(f)
    ensures f[|f| - 1] != '.'
  {
  }

  /** Below one unit the replacement of a trailing point by ".0" never happens. */
  lemma {:induction false} SmallForm(abs: string)
    requires AllDigits(abs) && |abs| <= 8 && ValueOf(abs) > 0
    ensures var f := StripZeros(PadStart(abs, 8));
      AbsToAmount(abs) == StripZeros("0." + PadStart(abs, 8)) == "0." + f
  {
    var f := StripZeros(PadStart(abs, 8));
    SmallFraction(abs);
    StripBehind("0.", PadStart(abs, 8));
    NotPoint(f);
    DotZeroIdle("0.", f);
  }

  predicate PrintsAs(s: string, n: nat) { WellPrinted(s) && ReadUnsigned(s) == n }

  lemma {:induction false} SmallAmount(abs: string)
    requires AllDigits(abs) && |abs| <= 8 && ValueOf(abs) > 0
    ensures PrintsAs(AbsToAmount(abs), ValueOf(abs))
  {
    SmallFraction(abs);
    SmallForm(abs);
    BelowOne(StripZeros(PadStart(abs, 8)));
  }

  lemma {:induction false} BelowOne(f: string)
    requires f != "" && AllDigits(f) && |f| <= 8 && f[|f| - 1] != '0'
    ensures PrintsAs("0." + f, ValueOf(f) * Pow10(8 - |f|))
  {
    assert "0." + f == "0" + "." + f;
    Joined("0", f);
    SingleDigit('0');
  }

  lemma SingleDigit(c: char)
    ensures ValueOf([c]) == DigitValue(c)
  {
  }

  lemma {:induction false} LargeForm(a: string, d: string)
    requires a != "" && |d| == 8
    ensures AbsToAmount(a + d) == if StripZeros(d) == "" then a else a + "." + StripZeros(d)
  {
  }

  lemma {:induction false} LargeValue(a: string, d: string)
    requires |d| == 8
    ensures var f := StripZeros(d); ValueOf(a + d) == ValueOf(a) * Pow10(8) + ValueOf(f) * Pow10(8 - |f|)
  {
    ValueOfConcat(a, d);
    StrippedValue(d);
  }

  lemma {:induction false} LargeAmount(a: string, d: string)
    requires a != "" && a[0] != '0' && AllDigits(a) && |d| == 8 && AllDigits(d)
    ensures PrintsAs(AbsToAmount(a + d), ValueOf(a + d))
  {
    LargeForm(a, d);
    LargeValue(a, d);
    if StripZeros(d) == "" {
      NoPoint(a);
    } else {
      WithPoint(a, StripZeros(d));
    }
  }

  lemma {:induction false} WithPoint(a: string, f: string)
    requires a != "" && AllDigits(a) && a[0] != '0' && f != "" && AllDigits(f) && |f| <= 8 && f[|f| - 1] != '0'
    ensures PrintsAs(a + "." + f, ValueOf(a) * Pow10(8) + ValueOf(f) * Pow10(8 - |f|))
  {
    Joined(a, f);
  }

  lemma {:induction false} NoPoint(a: string)
    requires a != "" && AllDigits(a) && a[0] != '0'
    ensures PrintsAs(a, ValueOf(a) * Pow10(8))
  {
  }

  lemma {:induction false} AbsAmount(n: nat)
    requires n > 0
    ensures PrintsAs(AbsToAmount(Digits(n)), n)
  {
    var abs := Digits(n);
    if |abs| <= 8 {
      SmallAmount(abs);
    } else {
      assert abs == abs[..|abs| - 8] + abs[|abs| - 8..];
      LargeAmount(abs[..|abs| - 8], abs[|abs| - 8..]);
    }
  }

  lemma StartsWithDigit(s: string)
    requires WellPrinted(s)
    ensures s != "" && s[0] != '-' && s[0] != '.'
  {
  }

  lemma ReadSigned(s: string)
    requires s != "" && s[0] != '-'
    ensures ReadAmount(s) == ReadUnsigned(s) && ReadAmount("-" + s) == -(ReadUnsigned(s) as int)
  {
  }

  // ----- theorems ------------------------------------------------------------

  lemma ZeroPrints()
    ensures StroopsToAmount(0) == "0" && PrintsAs("0", 0)
  {
  }

  lemma {:induction false} PositivePrints(n: nat)
    requires n > 0
    ensures StroopsToAmount(n) == AbsToAmount(Digits(n))
  {
  }

  lemma {:induction false} NegativePrints(n: int)
    requires n < 0
    ensures StroopsToAmount(n) == "-" + AbsToAmount(Digits(-n))
  {
  }

  /** `s` is the printed form of `n`: its sign and a printed absolute value. */
  predicate FormOf(s: string, n: int, abs: string) {
    PrintsAs(abs, if n < 0 then -n else n) && s == (if n < 0 then "-" + abs else abs)
  }

  function AbsOf(n: int): string {
    if n > 0 then AbsToAmount(Digits(n)) else if n < 0 then AbsToAmount(Digits(-n)) else "0"
  }

  lemma PrintedForm(n: int)
    ensures FormOf(StroopsToAmount(n), n, AbsOf(n))
  {
    if n > 0 {
      AbsAmount(n);
      PositivePrints(n);
    } else if n < 0 {
      AbsAmount(-n);
      NegativePrints(n);
    } else {
      ZeroPrints();
    }
  }

  /** Reading a printed amount back as a decimal and multiplying by 10^8 gives the number of stroops, for every
      integer. */
  lemma PrinterIsExact(n: int)
    ensures ReadAmount(StroopsToAmount(n)) == n
  {
    PrintedForm(n);
    StartsWithDigit(AbsOf(n));
    ReadSigned(AbsOf(n));
  }

  /** Different amounts print differently. */
  lemma PrinterIsInjective(m: int, n: int)
    requires StroopsToAmount(m) == StroopsToAmount(n)
    ensures m == n
  {
    PrinterIsExact(m);
    PrinterIsExact(n);
  }

  /** After an optional sign, a printed amount has no superfluous leading zero, no trailing fraction zero, no bare point
      and at most eight places; only negative amounts have a sign. */
  lemma PrinterIsCanonical(n: int)
    ensures var s := StroopsToAmount(n);
      && s != "" && (s[0] == '-' <==> n < 0)
      && WellPrinted(if n < 0 then s[1..] else s)
  {
    PrintedForm(n);
    StartsWithDigit(AbsOf(n));
    assert ("-" + AbsOf(n))[1..] == AbsOf(n);
  }
}
