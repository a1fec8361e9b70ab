/** Ranges of strings that bounded statements run over: no key is left out, none is visited twice. */
module KeyRanges {
  import opened Chain

  datatype StringRange = StringRange(start: Option<string>, end: Option<string>)

  /** Lexicographic order, as the warehouse compares strings. */
  predicate Less(a: string, b: string) {
    b != [] && (a == [] || a[0] < b[0] || (a[0] == b[0] && Less(a[1..], b[1..])))
  }

  predicate InRange(k: string, r: StringRange) {
    && (r.start.Some? ==> !Less(k, r.start.value))
    && (r.end.Some? ==> Less(k, r.end.value))
  }

  ghost predicate InExactlyOne(ranges: seq<StringRange>, k: string) {
    exists i :: 0 <= i < |ranges| && InRange(k, ranges[i]) && OnlyRange(ranges, k, i)
  }

  ghost predicate OnlyRange(ranges: seq<StringRange>, k: string, i: int) {
    forall j :: 0 <= j < |ranges| && InRange(k, ranges[j]) ==> j == i
  }

  ghost predicate Partition(ranges: seq<StringRange>) {
    forall k :: InExactlyOne(ranges, k)
  }

  predicate Increasing(bounds: seq<string>) {
    forall i, j :: 0 <= i < j < |bounds| ==> Less(bounds[i], bounds[j])
  }

  /** From nothing to the first boundary, between neighbours, and from the last boundary on. */
  function Between(bounds: seq<string>): (ranges: seq<StringRange>)
    ensures |ranges| == |bounds| + 1
  {
    seq(|bounds| + 1, i requires 0 <= i <= |bounds| =>
      StringRange(if i == 0 then None else Some(bounds[i - 1]), if i == |bounds| then None else Some(bounds[i])))
  }

  // ---------------------------------------------------------------- the order

  lemma {:induction false} LessTransitive(a: string, b: string, c: string)
    requires Less(a, b) && Less(b, c)
    ensures Less(a, c)
  {
    if a != [] && a[0] == b[0] && b[0] == c[0] {
      LessTransitive(a[1..], b[1..], c[1..]);
    }
  }

  lemma {:induction false} LessTotal(a: string, b: string)
    ensures Less(a, b) || Less(b, a) || a == b
  {
    if a != [] && b != [] && a[0] == b[0] {
      LessTotal(a[1..], b[1..]);
      assert a == [a[0]] + a[1..] && b == [b[0]] + b[1..];
    }
  }

  /** k lies below c whenever it does not lie above a smaller b. */
  lemma {:induction false} BelowLater(k: string, b: string, c: string)
    requires Less(b, c) && Less(k, b)
    ensures Less(k, c)
  {
    LessTransitive(k, b, c);
  }

  // ---------------------------------------------------------------- ranges between boundaries

  /** How many of the boundaries k does not lie below. */
  function Place(bounds: seq<string>, k: string): (i: nat)
    ensures i <= |bounds|
    ensures i > 0 ==> !Less(k, bounds[i - 1])
    ensures forall j :: i <= j < |bounds| ==> Less(k, bounds[j])
  {
    if bounds == [] then 0
    else if !Less(k, bounds[|bounds| - 1]) then |bounds|
    else Place(bounds[..|bounds| - 1], k)
  }

  lemma {:induction false} BoundariesPartition(bounds: seq<string>)
    requires Increasing(bounds)
    ensures Partition(Between(bounds))
  {
    forall k ensures InExactlyOne(Between(bounds), k) {
      var i := Place(bounds, k);
      assert InRange(k, Between(bounds)[i]);
      forall j | 0 <= j <= |bounds| && InRange(k, Between(bounds)[j]) ensures j == i {
        if j + 1 < i {
          BelowLater(k, bounds[j], bounds[i - 1]);
        }
      }
      assert OnlyRange(Between(bounds), k, i);
    }
  }

  // ---------------------------------------------------------------- output-key ranges

  function Power16(n: nat): (p: nat)
    ensures p >= 1
  {
    if n == 0 then 1 else 16 * Power16(n - 1)
  }

  function HexDigit(d: nat): char
    requires d < 16
  {
    "0123456789abcdef"[d]
  }

  function ToHex(v: nat): (s: string)
    ensures s != []
  {
    if v < 16 then [HexDigit(v)] else ToHex(v / 16) + [HexDigit(v % 16)]
  }

  function Zeros(n: nat): (s: string)
    ensures |s| == n
  {
    seq(n, _ => '0')
  }

  function PadStart(s: string, width: nat): string {
    if |s| >= width then s else Zeros(width - |s|) + s
  }

  /** One range below the hex digits, one for each prefix of the given length, and one above. */
  function OutputKeyRanges(prefixLength: nat): seq<StringRange> {
    var buckets := Power16(prefixLength);
    [StringRange(None, Some(Zeros(prefixLength)))]
    + seq(buckets, i requires 0 <= i < buckets => OutputKeyRange(i, buckets, prefixLength))
    + [StringRange(Some("g"), None)]
  }

  function OutputKeyRange(value: nat, buckets: nat, prefixLength: nat): StringRange {
    StringRange(Some(PadStart(ToHex(value), prefixLength)),
                Some(if value == buckets - 1 then "g" else PadStart(ToHex(value + 1), prefixLength)))
  }

  lemma {:induction false} PaddedHexStep(v: nat, n: nat)
    requires n >= 1 && v < Power16(n + 1)
    ensures PadStart(ToHex(v), n + 1) == PadStart(ToHex(v / 16), n) + [HexDigit(v % 16)]
  {
    if v < 16 {
      HexLength(0, n);
    } else {
      HexLength(v / 16, n);
    }
  }

  lemma {:induction false} HexLength(v: nat, n: nat)
    requires n >= 1 && v < Power16(n)
    ensures |ToHex(v)| <= n
  {
    if v >= 16 {
      assert n > 1;
      HexLength(v / 16, n - 1);
    }
  }

  lemma {:induction false} LessExtends(a: string, b: string, x: string, y: string)
    requires |a| == |b|
    ensures Less(a, b) ==> Less(a + x, b + y)
    ensures a == b && Less(x, y) ==> Less(a + x, b + y)
  {
    if a == [] {
      assert a + x == x && b + y == y;
    } else {
      LessExtends(a[1..], b[1..], x, y);
      assert (a + x)[1..] == a[1..] + x && (b + y)[1..] == b[1..] + y;
      assert (a + x)[0] == a[0] && (b + y)[0] == b[0];
    }
  }

  lemma {:induction false} PaddedLength(v: nat, n: nat)
    requires n >= 1 && v < Power16(n)
    ensures |PadStart(ToHex(v), n)| == n
  {
    HexLength(v, n);
  }

  lemma {:induction false} DivideBy16(v: nat, w: nat, limit: nat)
    requires v < w < 16 * limit
    ensures v / 16 < limit && w / 16 < limit
    ensures v / 16 < w / 16 || (v / 16 == w / 16 && v % 16 < w % 16)
  {}

  lemma {:induction false} DigitsIncrease(d: nat, e: nat)
    requires d < e < 16
    ensures Less([HexDigit(d)], [HexDigit(e)])
  {}

  lemma {:induction false} PowerStep(n: nat)
    requires n >= 1
    ensures Power16(n) == 16 * Power16(n - 1)
  {}

  lemma {:induction false} OneDigit()
    ensures Power16(1) == 16
  {}

  lemma {:induction false} SingleDigit(v: nat)
    requires v < Power16(1)
    ensures v < 16 && PadStart(ToHex(v), 1) == [HexDigit(v)]
  {
    assert Power16(1) == 16;
  }

  /** Fixed-width hexadecimal grows with its value. */
  lemma {:induction false} PaddedHexIncreases(v: nat, w: nat, n: nat)
    requires n >= 1 && v < w < Power16(n)
    ensures Less(PadStart(ToHex(v), n), PadStart(ToHex(w), n))
  {
    hide Power16, PadStart, ToHex, HexDigit, Less;
    if n == 1 {
      SingleDigit(v);
      SingleDigit(w);
      OneDigit();
      DigitsIncrease(v, w);
    } else {
      PaddedHexStep(v, n - 1);
      PaddedHexStep(w, n - 1);
      PowerStep(n);
      DivideBy16(v, w, Power16(n - 1));
      PaddedLength(v / 16, n - 1);
      PaddedLength(w / 16, n - 1);
      if v / 16 < w / 16 {
        PaddedHexIncreases(v / 16, w / 16, n - 1);
      } else {
        DigitsIncrease(v % 16, w % 16);
      }
      LessExtends(PadStart(ToHex(v / 16), n - 1), PadStart(ToHex(w / 16), n - 1), [HexDigit(v % 16)],
        [HexDigit(w % 16)]);
    }
  }

  lemma {:induction false} HexBelowG(v: nat, n: nat)
    ensures Less(PadStart(ToHex(v), n), "g")
  {
    FirstHexDigit(v);
  }

  lemma {:induction false} FirstHexDigit(v: nat)
    ensures ToHex(v)[0] < 'g'
  {
    if v >= 16 {
      FirstHexDigit(v / 16);
    }
  }

  function HexBounds(n: nat): (bounds: seq<string>)
    ensures |bounds| == Power16(n) + 1
  {
    seq(Power16(n), i requires 0 <= i < Power16(n) => PadStart(ToHex(i), n)) + ["g"]
  }

  lemma {:induction false} HexBoundsIncrease(n: nat)
    requires n >= 1
    ensures Increasing(HexBounds(n))
  {
    var bounds := HexBounds(n);
    forall i, j | 0 <= i < j < |bounds| ensures Less(bounds[i], bounds[j]) {
      if j < Power16(n) { PaddedHexIncreases(i, j, n); } else { HexBelowG(i, n); }
    }
  }

  lemma {:induction false} OutputKeyRangesAreBetween(n: nat)
    requires n >= 1
    ensures OutputKeyRanges(n) == Between(HexBounds(n))
  {
    var ranges, bounds := OutputKeyRanges(n), HexBounds(n);
    assert PadStart(ToHex(0), n) == Zeros(n);
    forall i | 0 <= i <= |bounds| ensures ranges[i] == Between(bounds)[i] {}
  }

  /** Every string is in exactly one output-key range precisely when at least one digit is used. */
  lemma {:induction false} OutputKeyRangesPartition(n: nat)
    ensures Partition(OutputKeyRanges(n)) <==> n >= 1
  {
    if n >= 1 {
      HexBoundsIncrease(n);
      OutputKeyRangesAreBetween(n);
      BoundariesPartition(HexBounds(n));
    } else {
      var ranges := OutputKeyRanges(0);
      assert !Less([], Zeros(0)) && Less([], "0") && Less([], "g");
      assert forall i :: 0 <= i < |ranges| ==> !InRange([], ranges[i]);
      assert !InExactlyOne(ranges, []);
    }
  }

  // ---------------------------------------------------------------- which range a key is in

  function HexDigitValue(c: char): Option<nat> {
    if '0' <= c <= '9' then Some(c as int - '0' as int)
    else if 'a' <= c <= 'f' then Some(10 + c as int - 'a' as int)
    else None
  }

  /** The number lower-case hexadecimal text stands for. */
  function HexNumber(s: string): Option<nat> {
    if s == "" then Some(0) else
      var front, last := HexNumber(s[..|s| - 1]), HexDigitValue(s[|s| - 1]);
      if front.Some? && last.Some? then Some(16 * front.value + last.value) else None
  }

  lemma {:induction false} HexStep(s: string, d: nat, v: nat)
    requires HexNumber(s) == Some(v) && d < 16
    ensures HexNumber(s + [HexDigit(d)]) == Some(16 * v + d)
  {
    assert (s + [HexDigit(d)])[..|s|] == s;
  }

  lemma {:induction false} ToHexNumber(v: nat)
    ensures HexNumber(ToHex(v)) == Some(v)
  {
    assert HexNumber("") == Some(0) && [] + [HexDigit(v % 16)] == [HexDigit(v % 16)];
    if v < 16 {
      HexStep("", v, 0);
    } else {
      ToHexNumber(v / 16);
      HexStep(ToHex(v / 16), v % 16, v / 16);
    }
  }

  lemma {:induction false} LeadingZeros(n: nat, s: string)
    ensures HexNumber(Zeros(n) + s) == HexNumber(s)
    decreases |s|, n
  {
    if s == "" {
      assert Zeros(n) + s == Zeros(n);
      if n > 0 {
        assert Zeros(n)[..n - 1] == Zeros(n - 1) && Zeros(n - 1) + s == Zeros(n - 1);
        LeadingZeros(n - 1, s);
      }
    } else {
      assert (Zeros(n) + s)[..n + |s| - 1] == Zeros(n) + s[..|s| - 1];
      LeadingZeros(n, s[..|s| - 1]);
    }
  }

  lemma {:induction false} LastDigit(c: char)
    requires HexDigitValue(c).Some?
    ensures HexDigitValue(c).value < 16 && HexDigit(HexDigitValue(c).value) == c
  {}

  lemma {:induction false} HexFront(t: string)
    requires t != [] && HexNumber(t).Some?
    ensures var n := |t| - 1;
            && HexNumber(t[..n]).Some? && HexDigitValue(t[n]).Some? && HexDigitValue(t[n]).value < 16
            && HexNumber(t).value == 16 * HexNumber(t[..n]).value + HexDigitValue(t[n]).value
            && t == t[..n] + [HexDigit(HexDigitValue(t[n]).value)]
  {
    LastDigit(t[|t| - 1]);
  }

  lemma {:induction false} SplitDigit(v: nat, front: nat, d: nat, limit: nat)
    requires v == 16 * front + d && d < 16 && front < limit
    ensures v / 16 == front && v % 16 == d && v < 16 * limit
  {}

  /** Hexadecimal text of a fixed width is the padded form of its number. */
  lemma {:induction false} PaddedBack(t: string)
    requires t != [] && HexNumber(t).Some?
    ensures HexNumber(t).value < Power16(|t|) && PadStart(ToHex(HexNumber(t).value), |t|) == t
  {
    hide PadStart, ToHex, HexNumber, Power16, HexDigit, HexDigitValue;
    var n := |t| - 1;
    HexFront(t);
    var v, d := HexNumber(t).value, HexDigitValue(t[n]).value;
    if n == 0 {
      NoDigits();
      assert t[..0] == "";
      OneDigit();
      SingleDigit(v);
      assert t == [HexDigit(d)];
    } else {
      PaddedBack(t[..n]);
      PowerStep(n + 1);
      SplitDigit(v, HexNumber(t[..n]).value, d, Power16(n));
      PaddedHexStep(v, n);
    }
  }

  lemma {:induction false} NoDigits()
    ensures HexNumber("") == Some(0)
  {}

  /** Two ranges more than there are prefixes; a key that starts with hexadecimal digits is in the range they number. */
  lemma {:induction false} PrefixPicksRange(key: string, n: nat)
    requires 1 <= n <= |key| && HexNumber(key[..n]).Some?
    ensures |OutputKeyRanges(n)| == Power16(n) + 2
    ensures HexNumber(key[..n]).value < Power16(n)
            && InRange(key, OutputKeyRanges(n)[1 + HexNumber(key[..n]).value])
  {
    hide ToHex, PadStart, HexNumber, Power16, Less;
    var t := key[..n];
    var v := HexNumber(t).value;
    PaddedBack(t);
    assert key == t + key[n..] && t + [] == t;
    NotLessExtends(t, key[n..]);
    if v + 1 < Power16(n) {
      PaddedHexIncreases(v, v + 1, n);
      PaddedLength(v + 1, n);
      assert PadStart(ToHex(v + 1), n) + [] == PadStart(ToHex(v + 1), n);
      LessExtends(t, PadStart(ToHex(v + 1), n), key[n..], []);
    } else {
      HexBelowG(v, n);
      LessThanG(t, key[n..]);
    }
  }

  lemma {:induction false} NotLessExtends(t: string, x: string)
    ensures !Less(t + x, t)
  {
    if t != [] {
      NotLessExtends(t[1..], x);
      assert (t + x)[1..] == t[1..] + x;
    }
  }

  lemma {:induction false} LessThanG(t: string, x: string)
    requires t != [] && Less(t, "g")
    ensures Less(t + x, "g")
  {
    assert (t + x)[0] == t[0];
  }

  // ---------------------------------------------------------------- ranges from a list of boundaries

  function InsertDistinct(sorted: seq<string>, b: string): seq<string> {
    if sorted == [] || Less(b, sorted[0]) then [b] + sorted
    else if sorted[0] == b then sorted
    else [sorted[0]] + InsertDistinct(sorted[1..], b)
  }

  /** The non-empty boundaries, sorted, each once. */
  function SortedDistinct(boundaries: seq<string>): seq<string> {
    if boundaries == [] then [] else
      var rest := SortedDistinct(boundaries[..|boundaries| - 1]);
      if boundaries[|boundaries| - 1] == "" then rest else InsertDistinct(rest, boundaries[|boundaries| - 1])
  }

  lemma {:induction false} InsertIncreases(sorted: seq<string>, b: string)
    requires Increasing(sorted)
    ensures Increasing(InsertDistinct(sorted, b))
    ensures forall x :: x in InsertDistinct(sorted, b) <==> x in sorted || x == b
  {
    var r := InsertDistinct(sorted, b);
    if sorted == [] {
    } else if Less(b, sorted[0]) {
      forall j | 0 <= j < |sorted| ensures Less(b, sorted[j]) {
        if j > 0 { LessTransitive(b, sorted[0], sorted[j]); }
      }
    } else if sorted[0] != b {
      LessTotal(b, sorted[0]);
      var rest := sorted[1..];
      InsertIncreases(rest, b);
      forall j | 0 < j < |r| ensures Less(r[0], r[j]) {
        var x := InsertDistinct(rest, b)[j - 1];
        assert x in InsertDistinct(rest, b);
        if x != b { var i :| 0 <= i < |rest| && rest[i] == x; assert x == sorted[i + 1]; }
      }
    }
  }

  lemma {:induction false} SortedDistinctIncreases(boundaries: seq<string>)
    ensures Increasing(SortedDistinct(boundaries))
    ensures forall x :: x in SortedDistinct(boundaries) <==> x in boundaries && x != ""
  {
    if boundaries != [] {
      var n := |boundaries| - 1;
      SortedDistinctIncreases(boundaries[..n]);
      assert boundaries == boundaries[..n] + [boundaries[n]];
      if boundaries[n] != "" { InsertIncreases(SortedDistinct(boundaries[..n]), boundaries[n]); }
    }
  }

  method RangesFromBoundaries(boundaries: seq<string>) returns (ranges: seq<StringRange>)
    ensures ranges == Between(SortedDistinct(boundaries))
    ensures Partition(ranges)
  {
    var sorted := SortedDistinct(boundaries);
    ranges := [];
    var start: Option<string> := None;
    for i := 0 to |sorted|
      invariant ranges == Between(sorted)[..i]
      invariant start == if i == 0 then None else Some(sorted[i - 1])
    {
      ranges := ranges + [StringRange(start, Some(sorted[i]))];
      start := Some(sorted[i]);
    }
    ranges := ranges + [StringRange(start, None)];
    SortedDistinctIncreases(boundaries);
    BoundariesPartition(sorted);
  }
}
