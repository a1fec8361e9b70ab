/** The Base58 encoder of addresses, and a decoder that undoes it. */
module Base58 {
  import opened Positional
  import opened Wire

  /** The alphabet in its six runs of consecutive characters: no zero, no capital I or O, no small l. */
  function Symbol(d: nat): char
    requires d < 58
  {
    if d < 9 then "123456789"[d]
    else if d < 17 then "ABCDEFGH"[d - 9]
    else if d < 22 then "JKLMN"[d - 17]
    else if d < 33 then "PQRSTUVWXYZ"[d - 22]
    else if d < 44 then "abcdefghijk"[d - 33]
    else "mnopqrstuvwxyz"[d - 44]
  }

  function Symbols(ds: Digits): (s: string)
    requires InBase(ds, 58)
    ensures |s| == |ds| && forall i :: 0 <= i < |ds| ==> s[i] == Symbol(ds[i])
  {
    seq(|ds|, i requires 0 <= i < |ds| => Symbol(ds[i]))
  }

  function Ones(n: nat): (s: string)
    ensures |s| == n && forall c <- s :: c == '1'
  {
    seq(n, _ => '1')
  }

  function AsDigits(bytes: Bytes): (ds: Digits)
    ensures |ds| == |bytes| && InBase(ds, 256) && forall i :: 0 <= i < |ds| ==> ds[i] == bytes[i]
  {
    seq(|bytes|, i requires 0 <= i < |bytes| => bytes[i] as nat)
  }

  /** A one for each leading zero byte, then the value of the bytes in base 58. */
  function Encoded(bytes: Bytes): string {
    Ones(LeadingZeros(AsDigits(bytes))) + Symbols(Minimal(Value(AsDigits(bytes), 256), 58))
  }

  method CountLeadingZeros(bytes: Bytes) returns (n: nat)
    ensures n == LeadingZeros(AsDigits(bytes))
  {
    ghost var ds := AsDigits(bytes);
    n := 0;
    assert ds[0..] == ds;
    while n < |bytes| && bytes[n] == 0
      invariant n <= |bytes| && LeadingZeros(ds) == n + LeadingZeros(ds[n..])
    {
      assert ds[n..][1..] == ds[n + 1..];
      n := n + 1;
    }
  }

  method ValueOfBytes(bytes: Bytes) returns (value: nat)
    ensures value == Value(AsDigits(bytes), 256)
  {
    ghost var ds := AsDigits(bytes);
    value := 0;
    for i := 0 to |bytes|
      invariant value == Value(ds[..i], 256)
    {
      ValueStep(ds[..i], ds[i], 256);
      assert ds[..i + 1] == ds[..i] + [ds[i]];
      value := value * 256 + bytes[i];
    }
    assert ds[..|bytes|] == ds;
  }

  method SymbolsOfValue(start: nat) returns (encoded: string)
    ensures encoded == Symbols(Minimal(start, 58))
  {
    hide Minimal, Symbol;
    var value := start;
    encoded := "";
    ghost var written: Digits := [];
    while value > 0
      invariant InBase(written, 58) && encoded == Symbols(written) && Minimal(start, 58) == Minimal(value, 58) + written
    {
      MinimalStep(value, 58);
      var remainder := value % 58;
      assert Minimal(start, 58) == Minimal(value / 58, 58) + ([remainder] + written);
      written := [remainder] + written;
      encoded := [Symbol(remainder)] + encoded;
      value := value / 58;
    }
    assert Minimal(0, 58) == [];
  }

  method EncodeBase58(bytes: Bytes) returns (encoded: string)
    ensures encoded == Encoded(bytes)
  {
    var leadingZeros := CountLeadingZeros(bytes);
    var value := ValueOfBytes(bytes);
    encoded := SymbolsOfValue(value);
    encoded := Ones(leadingZeros) + encoded;
  }

  // ---------------------------------------------------------------- decoding

  function SymbolValue(c: char, n: nat): (d: nat)
    requires n <= 58
    ensures d < 58
  {
    if n == 0 then 0 else if Symbol(n - 1) == c then n - 1 else SymbolValue(c, n - 1)
  }

  function LeadingOnes(s: string): (n: nat)
    ensures n <= |s|
  {
    if s != [] && s[0] == '1' then 1 + LeadingOnes(s[1..]) else 0
  }

  function DigitsOf(s: string): (ds: Digits)
    ensures |ds| == |s| && InBase(ds, 58) && forall i :: 0 <= i < |ds| ==> ds[i] == SymbolValue(s[i], 58)
  {
    seq(|s|, i requires 0 <= i < |s| => SymbolValue(s[i], 58))
  }

  function AsBytes(ds: Digits): (b: Bytes)
    requires InBase(ds, 256)
    ensures |b| == |ds| && forall i :: 0 <= i < |b| ==> b[i] == ds[i]
  {
    if ds == [] then [] else AsBytes(ds[..|ds| - 1]) + [ds[|ds| - 1]]
  }

  /** Zero bytes for the leading ones, then the value of the other symbols in base 256. */
  function Decoded(s: string): Bytes {
    var ones := LeadingOnes(s);
    ZeroBytes(ones) + AsBytes(Minimal(Value(DigitsOf(s[ones..]), 58), 256))
  }

  /** The runs follow each other in character order. */
  lemma {:induction false} SymbolsIncrease(i: nat, j: nat)
    requires i < j < 58
    ensures Symbol(i) < Symbol(j)
  {
    SymbolCode(i);
    SymbolCode(j);
  }

  lemma {:induction false} SymbolCode(d: nat)
    requires d < 58
    ensures Symbol(d) as int
            == d + (if d < 9 then 49 else if d < 17 then 56 else if d < 22 then 57 else if d < 33 then 58
              else if d < 44 then 64 else 65)
  {}

  lemma {:induction false} SymbolBack(d: nat, n: nat)
    requires d < n <= 58
    ensures SymbolValue(Symbol(d), n) == d
  {
    if d < n - 1 {
      SymbolsIncrease(d, n - 1);
      SymbolBack(d, n - 1);
    }
  }

  lemma {:induction false} SymbolsBack(ds: Digits)
    requires InBase(ds, 58)
    ensures DigitsOf(Symbols(ds)) == ds
  {
    forall i | 0 <= i < |ds| ensures DigitsOf(Symbols(ds))[i] == ds[i] {
      SymbolBack(ds[i], 58);
    }
  }

  lemma {:induction false} OnesCounted(n: nat, s: string)
    requires s == [] || s[0] != '1'
    ensures LeadingOnes(Ones(n) + s) == n && (Ones(n) + s)[n..] == s
  {
    if n == 0 {
      assert Ones(0) + s == s;
    } else {
      OnesCounted(n - 1, s);
      assert (Ones(n) + s)[1..] == Ones(n - 1) + s;
    }
  }

  function ZeroBytes(n: nat): (b: Bytes)
    ensures |b| == n && forall i :: 0 <= i < n ==> b[i] == 0
  {
    if n == 0 then [] else ZeroBytes(n - 1) + [0]
  }

  lemma {:induction false} SymbolsStart(ds: Digits)
    requires InBase(ds, 58) && (ds != [] ==> ds[0] != 0)
    ensures Symbols(ds) == [] || Symbols(ds)[0] != '1'
  {
    if ds != [] { SymbolsIncrease(0, ds[0]); }
    assert Symbol(0) == '1';
  }

  lemma {:induction false} TextBack(ones: nat, ds: Digits)
    requires InBase(ds, 58) && (ds != [] ==> ds[0] != 0)
    ensures Decoded(Ones(ones) + Symbols(ds)) == ZeroBytes(ones) + AsBytes(Minimal(Value(ds, 58), 256))
  {
    hide Ones, Symbols, LeadingOnes, DigitsOf, Value, Minimal, AsBytes;
    SymbolsStart(ds);
    OnesCounted(ones, Symbols(ds));
    SymbolsBack(ds);
  }

  lemma {:induction false} BytesBack(bytes: Bytes)
    ensures InBase(Stripped(AsDigits(bytes)), 256)
    ensures ZeroBytes(LeadingZeros(AsDigits(bytes))) + AsBytes(Stripped(AsDigits(bytes))) == bytes
  {
    hide LeadingZeros, Stripped, AsDigits;
    var ds := AsDigits(bytes);
    StrippedInBase(ds, 256);
    ZerosThenStripped(ds);
    var zeros := seq(LeadingZeros(ds), _ => 0);
    forall i | 0 <= i < |bytes| ensures (ZeroBytes(LeadingZeros(ds)) + AsBytes(Stripped(ds)))[i] == bytes[i] {
      assert ds[i] == (zeros + Stripped(ds))[i];
    }
  }

  /** Every byte string, leading zeros included, is what its encoding decodes to. */
  lemma {:induction false} DecodesBack(bytes: Bytes)
    ensures Decoded(Encoded(bytes)) == bytes
  {
    hide Decoded, Ones, Symbols, Value, Minimal, AsBytes, Stripped, LeadingZeros, AsDigits;
    var ds := AsDigits(bytes);
    TextBack(LeadingZeros(ds), Minimal(Value(ds, 256), 58));
    ValueOfMinimal(Value(ds, 256), 58);
    MinimalIsStripped(ds, 256);
    BytesBack(bytes);
  }
}
