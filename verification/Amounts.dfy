/** Exact decimal amounts: koinu as decimal coins, and decimal units back to an integer. */
module Amounts {
  import opened Chain
  import opened KeyRanges
  import opened Positional

  const KOINU_PER_DOGE := 100_000_000

  predicate IsDigit(c: char) {
    '0' <= c <= '9'
  }

  predicate AllDigits(t: string) {
    forall i :: 0 <= i < |t| ==> IsDigit(t[i])
  }

  function DigitChar(d: nat): (c: char)
    requires d < 10
    ensures IsDigit(c)
  {
    ('0' as int + d) as char
  }

  function Text(ds: Digits): (t: string)
    requires InBase(ds, 10)
    ensures |t| == |ds| && AllDigits(t) && forall i :: 0 <= i < |ds| ==> t[i] == DigitChar(ds[i])
  {
    seq(|ds|, i requires 0 <= i < |ds| => DigitChar(ds[i]))
  }

  function DigitsOfText(t: string): (ds: Digits)
    requires AllDigits(t)
    ensures |ds| == |t| && InBase(ds, 10) && forall i :: 0 <= i < |t| ==> ds[i] == t[i] as int - '0' as int
  {
    seq(|t|, i requires 0 <= i < |t| => t[i] as int - '0' as int)
  }

  /** The number some decimal digits stand for. */
  function NumberOf(t: string): nat
    requires AllDigits(t)
  {
    Value(DigitsOfText(t), 10)
  }

  /** How an integer is written in decimal: no leading zeros, and a single zero for zero. */
  function Numeral(n: nat): (t: string)
    ensures t != [] && AllDigits(t)
  {
    if n == 0 then "0" else Text(Minimal(n, 10))
  }

  function Signed(v: int): string {
    if v < 0 then "-" + Numeral(-v) else Numeral(v)
  }

  /** Koinu as coins with eight decimals. */
  function FormatKoinu(v: int): string {
    var magnitude := if v < 0 then -v else v;
    (if v < 0 then "-" else "") + Numeral(magnitude / KOINU_PER_DOGE) + "."
      + PadStart(Numeral(magnitude % KOINU_PER_DOGE), 8)
  }

  // ---------------------------------------------------------------- reading decimal units

  datatype Parts = Parts(negative: bool, whole: string, fraction: string)

  function DotAt(s: string): (k: nat)
    ensures k <= |s| && (k < |s| ==> s[k] == '.') && forall i :: 0 <= i < k ==> s[i] != '.'
  {
    if s == [] || s[0] == '.' then 0 else 1 + DotAt(s[1..])
  }

  /** An optional minus, some digits, and optionally a point with more digits. */
  function ParseParts(s: string): (parts: Option<Parts>)
    ensures parts.Some? ==> parts.value.whole != [] && AllDigits(parts.value.whole) && AllDigits(parts.value.fraction)
  {
    var negative := s != [] && s[0] == '-';
    var body := if negative then s[1..] else s;
    var k := DotAt(body);
    if k == 0 || !AllDigits(body[..k]) then None
    else if k == |body| then Some(Parts(negative, body, ""))
    else if k + 1 == |body| || !AllDigits(body[k + 1..]) then None
    else Some(Parts(negative, body[..k], body[k + 1..]))
  }

  predicate ExcessPrecision(fraction: string, decimals: nat) {
    |fraction| > decimals && exists i :: decimals <= i < |fraction| && fraction[i] != '0'
  }

  /** The fraction cut or filled with zeros to the number of decimals. */
  function Scaled(fraction: string, decimals: nat): (padded: string)
    ensures |padded| == decimals
    ensures AllDigits(fraction) ==> AllDigits(padded)
  {
    if |fraction| >= decimals then fraction[..decimals] else fraction + Zeros(decimals - |fraction|)
  }

  function WithoutLeadingZeros(t: string): string {
    if |t| >= 2 && t[0] == '0' then WithoutLeadingZeros(t[1..]) else t
  }

  function FromDecimalUnits(value: string, decimals: nat): Option<string> {
    var parts := ParseParts(value);
    if parts.None? || ExcessPrecision(parts.value.fraction, decimals) then None
    else Some((if parts.value.negative then "-" else "")
      + WithoutLeadingZeros(parts.value.whole + Scaled(parts.value.fraction, decimals)))
  }

  // ---------------------------------------------------------------- exactness

  lemma {:induction false} TextBack(ds: Digits)
    requires InBase(ds, 10)
    ensures DigitsOfText(Text(ds)) == ds
  {}

  lemma {:induction false} NumberOfNumeral(n: nat)
    ensures NumberOf(Numeral(n)) == n
  {
    hide Minimal, Text, DigitsOfText;
    if n == 0 {
      ZeroText();
    } else {
      TextBack(Minimal(n, 10));
      ValueOfMinimal(n, 10);
    }
  }

  lemma {:induction false} ZeroText()
    ensures DigitsOfText("0") == [0] && Value([0], 10) == 0
  {}

  lemma {:induction false} NumberConcat(a: string, b: string)
    requires AllDigits(a) && AllDigits(b)
    ensures AllDigits(a + b) && NumberOf(a + b) == NumberOf(a) * Power(10, |b|) + NumberOf(b)
  {
    hide Value;
    assert DigitsOfText(a + b) == DigitsOfText(a) + DigitsOfText(b);
    ValueConcat(DigitsOfText(a), DigitsOfText(b), 10);
  }

  lemma {:induction false} StrippedText(t: string)
    requires AllDigits(t) && t != []
    ensures AllDigits(WithoutLeadingZeros(t)) && WithoutLeadingZeros(t) != []
    ensures NumberOf(WithoutLeadingZeros(t)) == NumberOf(t)
    ensures |WithoutLeadingZeros(t)| >= 2 ==> WithoutLeadingZeros(t)[0] != '0'
  {
    hide Value;
    if |t| >= 2 && t[0] == '0' {
      StrippedText(t[1..]);
      NumberConcat("0", t[1..]);
      ZeroText();
      assert t == "0" + t[1..];
    }
  }

  /** Digits that do not start with a superfluous zero are the numeral of their number. */
  lemma {:induction false} NumeralOf(t: string)
    requires AllDigits(t) && t != [] && (|t| >= 2 ==> t[0] != '0')
    ensures Numeral(NumberOf(t)) == t
  {
    hide Value, Minimal;
    var ds := DigitsOfText(t);
    if t[0] == '0' {
      assert t == "0";
      ZeroText();
    } else {
      ValuePositive(ds, 10);
      MinimalOfValue(ds, 10);
      assert Text(ds) == t;
    }
  }

  /** Whole units times the scale, plus the fraction. */
  function UnitsOf(parts: Parts, decimals: nat): nat
    requires AllDigits(parts.whole) && AllDigits(parts.fraction)
  {
    NumberOf(parts.whole) * Power(10, decimals) + NumberOf(Scaled(parts.fraction, decimals))
  }

  lemma {:induction false} UnitsText(parts: Parts, decimals: nat)
    requires parts.whole != [] && AllDigits(parts.whole) && AllDigits(parts.fraction)
    ensures WithoutLeadingZeros(parts.whole + Scaled(parts.fraction, decimals)) == Numeral(UnitsOf(parts, decimals))
  {
    hide Scaled, NumberOf, Numeral, WithoutLeadingZeros, Power;
    var text := parts.whole + Scaled(parts.fraction, decimals);
    NumberConcat(parts.whole, Scaled(parts.fraction, decimals));
    StrippedText(text);
    NumeralOf(WithoutLeadingZeros(text));
  }

  /**
   * Accepted amounts come out as the exact integer, with their sign; anything with digits that would be lost is
   * refused.
   */
  lemma {:induction false} DecimalUnitsExact(value: string, decimals: nat)
    ensures var parts := ParseParts(value);
            FromDecimalUnits(value, decimals)
            == if parts.None? || ExcessPrecision(parts.value.fraction, decimals) then None
               else Some((if parts.value.negative then "-" else "") + Numeral(UnitsOf(parts.value, decimals)))
  {
    hide ParseParts, ExcessPrecision, Scaled, Numeral, WithoutLeadingZeros, UnitsOf;
    var parts := ParseParts(value);
    if parts.Some? {
      UnitsText(parts.value, decimals);
    }
  }

  lemma {:induction false} PaddedNumber(r: nat)
    requires r < KOINU_PER_DOGE
    ensures var t := PadStart(Numeral(r), 8); |t| == 8 && AllDigits(t) && NumberOf(t) == r
  {
    hide Value, Minimal, NumberOf;
    var n := Numeral(r);
    EightDigits(r);
    NumberOfNumeral(r);
    if |n| < 8 {
      var zeros := Zeros(8 - |n|);
      assert AllDigits(zeros);
      NumberConcat(zeros, n);
      ZerosAreZero(8 - |n|);
    }
  }

  lemma {:induction false} EightDigits(r: nat)
    requires r < KOINU_PER_DOGE
    ensures |Numeral(r)| <= 8
  {
    assert Power(10, 8) == KOINU_PER_DOGE by {
      assert Power(10, 2) == 100 && Power(10, 4) == 10_000;
      assert Power(10, 6) == 1_000_000;
    }
    MinimalLength(r, 10, 8);
  }

  lemma {:induction false} ZerosAreZero(n: nat)
    ensures AllDigits(Zeros(n)) && NumberOf(Zeros(n)) == 0
  {
    if n > 0 {
      ZerosAreZero(n - 1);
      assert Zeros(n) == Zeros(n - 1) + "0";
      NumberConcat(Zeros(n - 1), "0");
      ZeroText();
    }
  }

  lemma {:induction false} FirstDot(whole: string, fraction: string)
    requires AllDigits(whole)
    ensures DotAt(whole + "." + fraction) == |whole|
  {
    if whole == [] {
      assert whole + "." + fraction == "." + fraction;
    } else {
      FirstDot(whole[1..], fraction);
      assert (whole + "." + fraction)[1..] == whole[1..] + "." + fraction;
    }
  }

  lemma {:induction false} PartsBack(negative: bool, whole: string, fraction: string)
    requires whole != [] && AllDigits(whole) && fraction != [] && AllDigits(fraction)
    ensures ParseParts((if negative then "-" else "") + whole + "." + fraction) ==
            Some(Parts(negative, whole, fraction))
  {
    var body := whole + "." + fraction;
    var s := (if negative then "-" else "") + whole + "." + fraction;
    assert s == (if negative then "-" else "") + body;
    FirstDot(whole, fraction);
    assert body[..|whole|] == whole && body[|whole| + 1..] == fraction;
    if negative {
      assert s[0] == '-' && s[1..] == body;
    } else {
      assert s == body && IsDigit(s[0]);
    }
  }

  lemma {:induction false} KoinuUnits(magnitude: nat)
    ensures var fraction := PadStart(Numeral(magnitude % KOINU_PER_DOGE), 8);
            && |fraction| == 8 && AllDigits(fraction)
            && UnitsOf(Parts(false, Numeral(magnitude / KOINU_PER_DOGE), fraction), 8) == magnitude
  {
    hide Numeral, NumberOf, PadStart, Power;
    var fraction := PadStart(Numeral(magnitude % KOINU_PER_DOGE), 8);
    PaddedNumber(magnitude % KOINU_PER_DOGE);
    NumberOfNumeral(magnitude / KOINU_PER_DOGE);
    ScaleIsKoinu();
    assert Scaled(fraction, 8) == fraction;
  }

  lemma {:induction false} SameUnits(negative: bool, whole: string, fraction: string, decimals: nat)
    requires AllDigits(whole) && AllDigits(fraction)
    ensures UnitsOf(Parts(negative, whole, fraction), decimals) == UnitsOf(Parts(false, whole, fraction), decimals)
  {}

  /** Writing any number of koinu as coins and reading it back in units of eight decimals gives the number itself. */
  lemma {:induction false} KoinuRoundTrip(v: int)
    ensures FromDecimalUnits(FormatKoinu(v), 8) == Some(Signed(v))
    ensures ParseParts(FormatKoinu(v)).Some? && |ParseParts(FormatKoinu(v)).value.fraction| == 8
  {
    hide Numeral, UnitsOf, PadStart, FromDecimalUnits, ParseParts;
    var magnitude := if v < 0 then -v else v;
    var whole, fraction := Numeral(magnitude / KOINU_PER_DOGE), PadStart(Numeral(magnitude % KOINU_PER_DOGE), 8);
    KoinuUnits(magnitude);
    SameUnits(v < 0, whole, fraction, 8);
    PartsBack(v < 0, whole, fraction);
    DecimalUnitsExact(FormatKoinu(v), 8);
    assert "" + Numeral(magnitude) == Numeral(magnitude);
  }

  lemma {:induction false} ScaleIsKoinu()
    ensures Power(10, 8) == KOINU_PER_DOGE
  {
    assert Power(10, 2) == 100 && Power(10, 4) == 10_000;
    assert Power(10, 6) == 1_000_000;
  }

  // ---------------------------------------------------------------- the grammar, and the value in numbers

  /** How an amount with these parts is written. */
  function Written(p: Parts): string {
    (if p.negative then "-" else "") + p.whole + (if p.fraction == "" then "" else "." + p.fraction)
  }

  lemma {:induction false} NoDot(whole: string)
    requires AllDigits(whole)
    ensures DotAt(whole) == |whole|
  {
    if whole != [] {
      NoDot(whole[1..]);
    }
  }

  lemma {:induction false} WholeBack(negative: bool, whole: string)
    requires whole != [] && AllDigits(whole)
    ensures ParseParts((if negative then "-" else "") + whole) == Some(Parts(negative, whole, ""))
  {
    var s := (if negative then "-" else "") + whole;
    NoDot(whole);
    assert whole[..|whole|] == whole;
    if negative {
      assert s[0] == '-' && s[1..] == whole;
    } else {
      assert s == whole && IsDigit(s[0]);
    }
  }

  lemma {:induction false} JoinParts(sign: string, whole: string, fraction: string)
    ensures sign + whole + ("." + fraction) == sign + (whole + "." + fraction) && sign + whole + "" == sign + whole
  {}

  lemma {:induction false} SplitSign(s: string)
    ensures s == if s != [] && s[0] == '-' then "-" + s[1..] else "" + s
  {}

  lemma {:induction false} SplitDot(body: string, k: nat)
    requires k < |body| && body[k] == '.'
    ensures body == body[..k] + "." + body[k + 1..]
  {}

  lemma {:induction false} ParsedIsWritten(s: string)
    requires ParseParts(s).Some?
    ensures Written(ParseParts(s).value) == s
  {
    hide AllDigits;
    var negative := s != [] && s[0] == '-';
    var body := if negative then s[1..] else s;
    var k := DotAt(body);
    SplitSign(s);
    if k < |body| {
      SplitDot(body, k);
      JoinParts(if negative then "-" else "", body[..k], body[k + 1..]);
    } else {
      JoinParts(if negative then "-" else "", body, "");
    }
  }

  lemma {:induction false} WrittenBack(p: Parts)
    requires p.whole != [] && AllDigits(p.whole) && AllDigits(p.fraction)
    ensures ParseParts(Written(p)) == Some(p)
  {
    hide ParseParts, AllDigits;
    JoinParts(if p.negative then "-" else "", p.whole, p.fraction);
    JoinMore(if p.negative then "-" else "", p.whole, p.fraction);
    if p.fraction == "" {
      WholeBack(p.negative, p.whole);
    } else {
      PartsBack(p.negative, p.whole, p.fraction);
    }
  }

  lemma {:induction false} JoinMore(sign: string, whole: string, fraction: string)
    ensures sign + (whole + "." + fraction) == sign + whole + "." + fraction
  {}

  /** Exactly an optional minus, digits, and optionally a point and more digits are read, into just these parts. */
  lemma {:induction false} ParsesExactly(s: string, p: Parts)
    ensures ParseParts(s) == Some(p)
            <==> p.whole != [] && AllDigits(p.whole) && AllDigits(p.fraction) && s == Written(p)
  {
    hide ParseParts, AllDigits, Written;
    if ParseParts(s) == Some(p) { ParsedIsWritten(s); }
    if p.whole != [] && AllDigits(p.whole) && AllDigits(p.fraction) && s == Written(p) { WrittenBack(p); }
  }

  lemma {:induction false} PowerAdd(a: nat, b: nat)
    ensures Power(10, a + b) == Power(10, a) * Power(10, b) && Power(10, a) >= 1
  {
    if a > 0 {
      PowerAdd(a - 1, b);
      assert 10 * (Power(10, a - 1) * Power(10, b)) == (10 * Power(10, a - 1)) * Power(10, b);
    }
  }

  lemma {:induction false} DigitsBelow(t: string)
    requires AllDigits(t)
    ensures NumberOf(t) < Power(10, |t|)
    ensures NumberOf(t) == 0 <==> forall i :: 0 <= i < |t| ==> t[i] == '0'
  {
    if t != [] {
      var n := |t| - 1;
      DigitsBelow(t[..n]);
      assert DigitsOfText(t)[..n] == DigitsOfText(t[..n]);
      assert forall i :: 0 <= i < n ==> t[i] == t[..n][i];
    }
  }

  /** n units of so many decimals are the amount with these parts, its digits read as one number. */
  predicate IsUnits(n: nat, p: Parts, decimals: nat)
    requires AllDigits(p.whole) && AllDigits(p.fraction)
  {
    AllDigits(p.whole + p.fraction)
    && n * Power(10, |p.fraction|) == NumberOf(p.whole + p.fraction) * Power(10, decimals)
  }

  lemma {:induction false} SameFactor(n: nat, m: nat, unit: nat)
    requires unit >= 1 && n * unit == m * unit
    ensures n == m
  {
    QuotientOf(n, 0, unit);
    QuotientOf(m, 0, unit);
  }

  /** Digits that are cut off must be zeros for the scaled number to be an integer. */
  lemma {:induction false} CutFraction(n: nat, front: nat, tail: nat, e: nat, d: nat)
    requires tail < e && d >= 1
    ensures n * (d * e) == (front * e + tail) * d <==> tail == 0 && n == front
  {
    assert (front * e + tail) * d == front * (d * e) + tail * d;
    assert tail * d < d * e by { assert (e - tail) * d >= 1; }
    if n * (d * e) == (front * e + tail) * d {
      QuotientOf(front, tail * d, d * e);
      QuotientOf(n, 0, d * e);
      assert tail * d == 0;
    }
  }

  /** An amount is accepted exactly when it is a whole number of units, and then the result is that number. */
  lemma {:induction false} AmountExact(value: string, decimals: nat)
    requires ParseParts(value).Some?
    ensures FromDecimalUnits(value, decimals).Some? <==> exists n: nat :: IsUnits(n, ParseParts(value).value, decimals)
    ensures forall n: nat :: IsUnits(n, ParseParts(value).value, decimals) ==>
              FromDecimalUnits(value, decimals)
              == Some((if ParseParts(value).value.negative then "-" else "") + Numeral(n))
  {
    hide Numeral, ParseParts, FromDecimalUnits, UnitsOf, IsUnits;
    var p := ParseParts(value).value;
    DecimalUnitsExact(value, decimals);
    forall n: nat
      ensures IsUnits(n, p, decimals) <==> !ExcessPrecision(p.fraction, decimals) && n == UnitsOf(p, decimals)
    {
      if |p.fraction| <= decimals {
        FilledExact(n, p, decimals);
      } else {
        CutExact(n, p, decimals);
      }
    }
    if !ExcessPrecision(p.fraction, decimals) { assert IsUnits(UnitsOf(p, decimals), p, decimals); }
  }

  lemma {:induction false} FilledExact(n: nat, p: Parts, decimals: nat)
    requires AllDigits(p.whole) && AllDigits(p.fraction) && |p.fraction| <= decimals
    ensures IsUnits(n, p, decimals) <==> n == UnitsOf(p, decimals)
  {
    hide NumberOf, Power, AllDigits;
    var f, z := Power(10, |p.fraction|), Power(10, decimals - |p.fraction|);
    NumberConcat(p.whole, p.fraction);
    ZerosAreZero(decimals - |p.fraction|);
    NumberConcat(p.fraction, Zeros(decimals - |p.fraction|));
    if |p.fraction| == decimals { assert p.fraction + Zeros(0) == p.fraction; }
    PowerAdd(|p.fraction|, decimals - |p.fraction|);
    Filled(NumberOf(p.whole), NumberOf(p.fraction), f, z);
    if n * f == UnitsOf(p, decimals) * f { SameFactor(n, UnitsOf(p, decimals), f); }
  }

  lemma {:induction false} Filled(whole: nat, fraction: nat, f: nat, z: nat)
    ensures (whole * (f * z) + fraction * z) * f == (whole * f + fraction) * (f * z)
  {
    assert whole * (f * z) + fraction * z == (whole * f + fraction) * z;
    assert ((whole * f + fraction) * z) * f == (whole * f + fraction) * (f * z);
  }

  lemma {:induction false} CutExact(n: nat, p: Parts, decimals: nat)
    requires AllDigits(p.whole) && AllDigits(p.fraction) && |p.fraction| > decimals
    ensures IsUnits(n, p, decimals) <==> !ExcessPrecision(p.fraction, decimals) && n == UnitsOf(p, decimals)
  {
    hide NumberOf, Power;
    var kept, cut := p.fraction[..decimals], p.fraction[decimals..];
    assert p.fraction == kept + cut && p.whole + p.fraction == p.whole + kept + cut;
    NumberConcat(p.whole, kept);
    NumberConcat(p.whole + kept, cut);
    PowerAdd(decimals, |cut|);
    DigitsBelow(cut);
    assert forall i :: decimals <= i < |p.fraction| ==> p.fraction[i] == cut[i - decimals];
    CutFraction(n, NumberOf(p.whole + kept), NumberOf(cut), Power(10, |cut|), Power(10, decimals));
  }
}
