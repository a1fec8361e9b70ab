/** Numbers in positional notation, most significant digit first. */
module Positional {

  type Digits = seq<nat>

  predicate InBase(ds: Digits, base: nat) {
    forall i :: 0 <= i < |ds| ==> ds[i] < base
  }

  function Value(ds: Digits, base: nat): nat {
    if ds == [] then 0 else Value(ds[..|ds| - 1], base) * base + ds[|ds| - 1]
  }

  /** The digits of a number without leading zeros; zero has none. */
  function Minimal(v: nat, base: nat): (ds: Digits)
    requires base >= 2
    ensures InBase(ds, base)
    ensures v > 0 ==> ds != [] && ds[0] != 0
    ensures v == 0 ==> ds == []
  {
    if v == 0 then [] else
      Smaller(v, base);
      var front := Minimal(v / base, base);
      assert front == [] ==> v / base == 0 && v % base == v;
      front + [v % base]
  }

  lemma {:induction false} Smaller(v: nat, base: nat)
    requires base >= 2 && v > 0
    ensures v / base < v && (v / base == 0 ==> v % base == v)
  {}

  function Stripped(ds: Digits): (r: Digits)
    ensures |r| <= |ds| && (r != [] ==> r[0] != 0)
  {
    if ds != [] && ds[0] == 0 then Stripped(ds[1..]) else ds
  }

  function LeadingZeros(ds: Digits): (n: nat)
    ensures n <= |ds|
  {
    if ds != [] && ds[0] == 0 then 1 + LeadingZeros(ds[1..]) else 0
  }

  function Power(base: nat, n: nat): nat {
    if n == 0 then 1 else base * Power(base, n - 1)
  }

  lemma {:induction false} Scaled(a: nat, b: nat, c: nat)
    requires a <= b
    ensures c * a <= c * b
  {
    assert c * (b - a) >= 0;
  }

  lemma {:induction false} DivMod(v: nat, base: nat)
    requires base >= 1
    ensures (v / base) * base + v % base == v && v % base < base
  {}

  lemma {:induction false} QuotientOf(q: nat, r: nat, base: nat)
    requires r < base
    ensures (q * base + r) / base == q && (q * base + r) % base == r
  {
    var v := q * base + r;
    DivMod(v, base);
    var other := v / base;
    assert base * q - base * other == v % base - r;
    if other < q {
      Scaled(other + 1, q, base);
    } else if other > q {
      Scaled(q + 1, other, base);
    }
  }

  lemma {:induction false} MinimalStep(v: nat, base: nat)
    requires base >= 2 && v > 0
    ensures Minimal(v, base) == Minimal(v / base, base) + [v % base] && v / base < v
  {
    Smaller(v, base);
  }

  lemma {:induction false} ValueStep(front: Digits, last: nat, base: nat)
    ensures Value(front + [last], base) == Value(front, base) * base + last
  {
    assert (front + [last])[..|front|] == front;
  }

  lemma {:induction false} ValueOfMinimal(v: nat, base: nat)
    requires base >= 2
    ensures Value(Minimal(v, base), base) == v
  {
    if v > 0 {
      MinimalStep(v, base);
      ValueOfMinimal(v / base, base);
      ValueStep(Minimal(v / base, base), v % base, base);
      DivMod(v, base);
    }
  }

  lemma {:induction false} ValuePositive(ds: Digits, base: nat)
    requires base >= 1 && ds != [] && ds[0] != 0
    ensures Value(ds, base) > 0
  {
    if |ds| > 1 {
      ValuePositive(ds[..|ds| - 1], base);
    }
  }

  /** Digits that do not start with a zero are the minimal ones of their value. */
  lemma {:induction false} MinimalOfValue(ds: Digits, base: nat)
    requires base >= 2 && InBase(ds, base) && (ds != [] ==> ds[0] != 0)
    ensures Minimal(Value(ds, base), base) == ds
  {
    if ds != [] {
      var front, last := ds[..|ds| - 1], ds[|ds| - 1];
      MinimalOfValue(front, base);
      ValuePositive(ds, base);
      QuotientOf(Value(front, base), last, base);
      assert ds == front + [last];
    }
  }

  lemma {:induction false} ValueConcat(x: Digits, y: Digits, base: nat)
    ensures Value(x + y, base) == Value(x, base) * Power(base, |y|) + Value(y, base)
  {
    if y == [] {
      assert x + y == x;
    } else {
      var front, last := y[..|y| - 1], y[|y| - 1];
      ValueConcat(x, front, base);
      assert (x + y)[..|x + y| - 1] == x + front;
      var p := Power(base, |front|);
      calc {
        Value(x + y, base);
        (Value(x, base) * p + Value(front, base)) * base + last;
        { Distribute(Value(x, base), p, Value(front, base), base); }
        Value(x, base) * (base * p) + (Value(front, base) * base + last);
      }
    }
  }

  lemma {:induction false} Distribute(a: nat, p: nat, b: nat, base: nat)
    ensures (a * p + b) * base == a * (base * p) + b * base
  {
    assert (a * p) * base == a * (base * p);
  }

  lemma {:induction false} ZerosDoNotCount(ds: Digits, base: nat)
    ensures Value(ds, base) == Value(Stripped(ds), base)
  {
    if ds != [] && ds[0] == 0 {
      ZerosDoNotCount(ds[1..], base);
      assert ds == [0] + ds[1..];
      ValueConcat([0], ds[1..], base);
      assert Value([0], base) == 0;
    }
  }

  lemma {:induction false} StrippedInBase(ds: Digits, base: nat)
    requires InBase(ds, base)
    ensures InBase(Stripped(ds), base)
  {
    if ds != [] && ds[0] == 0 {
      StrippedInBase(ds[1..], base);
    }
  }

  /** The minimal digits of a value are the digits it was given in, without leading zeros. */
  lemma {:induction false} MinimalIsStripped(ds: Digits, base: nat)
    requires base >= 2 && InBase(ds, base)
    ensures Minimal(Value(ds, base), base) == Stripped(ds)
  {
    ZerosDoNotCount(ds, base);
    StrippedInBase(ds, base);
    MinimalOfValue(Stripped(ds), base);
  }

  lemma {:induction false} ZerosThenStripped(ds: Digits)
    ensures ds == seq(LeadingZeros(ds), _ => 0) + Stripped(ds)
  {
    if ds != [] && ds[0] == 0 {
      ZerosThenStripped(ds[1..]);
      assert seq(LeadingZeros(ds), _ => 0) == [0] + seq(LeadingZeros(ds[1..]), _ => 0);
      assert ds == [0] + ds[1..];
    } else {
      assert seq(0, _ => 0) + ds == ds;
    }
  }

  lemma {:induction false} MinimalLength(v: nat, base: nat, n: nat)
    requires base >= 2 && v < Power(base, n)
    ensures |Minimal(v, base)| <= n
  {
    if v > 0 {
      assert n > 0;
      Smaller(v, base);
      QuotientBelow(v, base, Power(base, n - 1));
      MinimalLength(v / base, base, n - 1);
    }
  }

  lemma {:induction false} QuotientBelow(v: nat, base: nat, p: nat)
    requires base >= 1 && v < base * p
    ensures v / base < p
  {
    if v / base >= p {
      Scaled(p, v / base, base);
    }
  }
}
