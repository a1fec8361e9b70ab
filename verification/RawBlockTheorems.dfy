/** Decoding inverts encoding: every field, transaction and size comes back, and nothing but whole blocks decode. */
module RawBlockTheorems {
  import opened Chain
  import opened Amounts
  import opened Wire
  import opened WireProofs
  import opened WireFront
  import opened KeyRanges
  import opened RawBlockDecoder

  // ---------------------------------------------------------------- the views of what was written

  /** A transaction seen through the bytes it is written as. */
  function ExpectedTransaction(x: Transaction, hash: Hasher): DecodedTransaction
    requires ValidTransaction(x)
  {
    TransactionView(x, WriteTransaction(x, []), hash)
  }

  function ExpectedTransactions(xs: seq<Transaction>, hash: Hasher): (views: seq<DecodedTransaction>)
    requires forall x <- xs :: ValidTransaction(x)
    ensures |views| == |xs| && forall k :: 0 <= k < |xs| ==> views[k] == ExpectedTransaction(xs[k], hash)
  {
    seq(|xs|, k requires 0 <= k < |xs| => ExpectedTransaction(xs[k], hash))
  }

  lemma {:induction false} TransactionViewBack(x: Transaction, t: Bytes, hash: Hasher)
    requires ValidTransaction(x)
    ensures Viewer(hash)(WriteTransaction(x, t)) == Got(ExpectedTransaction(x, hash), t)
  {
    hide ReadTransaction, WriteTransaction, TransactionView, ValidTransaction;
    TransactionBack(x, t);
    TransactionFront(x, [], t);
    assert [] + t == t;
    var s := WriteTransaction(x, t);
    assert s[..|s| - |t|] == WriteTransaction(x, []);
  }

  lemma {:induction false} TransactionViewsBack(xs: seq<Transaction>, t: Bytes, hash: Hasher)
    requires forall x <- xs :: ValidTransaction(x)
    ensures ReadMany(|xs|, WriteTransactions(xs, t), Viewer(hash)) == Got(ExpectedTransactions(xs, hash), t)
  {
    hide ReadView, WriteTransaction, ValidTransaction, ExpectedTransaction, Viewer;
    if xs != [] {
      TransactionViewBack(xs[0], WriteTransactions(xs[1..], t), hash);
      TransactionViewsBack(xs[1..], t, hash);
      assert [ExpectedTransaction(xs[0], hash)] + ExpectedTransactions(xs[1..], hash) == ExpectedTransactions(xs, hash);
    }
  }

  lemma {:induction false} AuxPowPartBack(b: RawBlock, xs: Bytes)
    requires ValidBlock(b)
    ensures ReadOptionalAuxPow(b.header.version, if b.auxpow.Some? then WriteAuxPow(b.auxpow.value, xs) else xs) ==
            Got(b.auxpow, xs)
  {
    hide ReadAuxPow, WriteAuxPow, ValidAuxPow, ValidHeader, ValidTransaction, IsAuxPowVersion;
    if b.auxpow.Some? { AuxPowBack(b.auxpow.value, xs); }
  }

  lemma {:induction false} HeaderPartBack(h: Header, rest: Bytes)
    requires ValidHeader(h)
    ensures var s := WriteHeader(h, rest);
            |s| >= 80 && s[..80] == WriteHeader(h, []) && ReadHeader(s) == Got(h, rest)
  {
    hide ReadHeader, WriteHeader;
    HeaderFront(h, rest);
    HeaderBack(h, rest);
    var s := WriteHeader(h, rest);
    assert s[..80] == WriteHeader(h, []);
  }

  /**
   * Decoding the bytes of a block returns its header fields, the hashes of its own header, transactions and
   * parent header, every input and output in order, and the sizes of the transactions and of the block.
   */
  lemma {:induction false} BlockDecodes(b: RawBlock, hash: Hasher)
    requires ValidBlock(b)
    ensures Decoded(WriteBlock(b, []), hash)
            == Some(BlockView(b.header, WriteHeader(b.header, []), ParentHeader(b.auxpow),
              ExpectedTransactions(b.transactions, hash), |WriteBlock(b, [])|, hash))
  {
    hide ReadHeader, WriteHeader, ReadOptionalAuxPow, WriteAuxPow, ReadList, ReadMany, WriteCompact, WriteTransactions,
         Viewer, BlockView, ValidHeader, ValidAuxPow, ValidTransaction, ExpectedTransactions, ParentHeader;
    var xs := WriteCompact(|b.transactions|, WriteTransactions(b.transactions, []));
    HeaderPartBack(b.header, if b.auxpow.Some? then WriteAuxPow(b.auxpow.value, xs) else xs);
    AuxPowPartBack(b, xs);
    ListBack(|b.transactions|, WriteTransactions(b.transactions, []), Viewer(hash));
    TransactionViewsBack(b.transactions, [], hash);
  }

  // ---------------------------------------------------------------- the header of a report

  /** The number some bytes stand for, least significant byte first. */
  function LittleEndian(b: Bytes): nat {
    if b == [] then 0 else b[0] as nat + 0x100 * LittleEndian(b[1..])
  }

  lemma {:induction false} EightHexDigits(v: uint32)
    ensures var s := PadStart(ToHex(v), 8); |s| == 8 && HexNumber(s) == Some(v)
  {
    assert Power16(8) == LIMIT32;
    HexLength(v, 8);
    ToHexNumber(v);
    LeadingZeros(8 - |ToHex(v)|, ToHex(v));
  }

  lemma {:induction false} FourBytes(b: Bytes)
    requires |b| == 4
    ensures FromBytes(b) == LittleEndian(b)
  {
    assert b[1..][1..] == b[2..] && b[2..][1..] == b[3..] && b[3..][1..] == [];
    assert LittleEndian(b[3..]) == b[3] as nat + 0x100 * LittleEndian([]) == b[3];
    assert LittleEndian(b[2..]) == b[2] as nat + 0x100 * LittleEndian(b[3..]);
    assert LittleEndian(b[1..]) == b[1] as nat + 0x100 * LittleEndian(b[2..]);
  }

  ghost predicate HeaderAt(h: Header, bytes: Bytes)
    requires |bytes| >= 80
  {
    && h.version == ToSigned(FromBytes(bytes[..4])) && h.previous == bytes[4..36] && h.merkleRoot == bytes[36..68]
    && h.time == FromBytes(bytes[68..72]) && h.bits == FromBytes(bytes[72..76]) && h.nonce == FromBytes(bytes[76..80])
  }

  lemma {:induction false} HeaderFields(bytes: Bytes)
    requires ReadHeader(bytes).Got?
    ensures |bytes| >= 80 && ReadHeader(bytes).rest == bytes[80..]
    ensures HeaderAt(ReadHeader(bytes).value, bytes)
  {
    hide FromBytes, ToSigned;
    assert bytes[4..][32..] == bytes[36..] && bytes[36..][32..] == bytes[68..];
    assert bytes[68..][4..] == bytes[72..] && bytes[72..][4..] == bytes[76..] && bytes[76..][4..] == bytes[80..];
    assert bytes[4..][..32] == bytes[4..36] && bytes[36..][..32] == bytes[36..68];
    assert bytes[68..][..4] == bytes[68..72] && bytes[72..][..4] == bytes[72..76] && bytes[76..][..4] == bytes[76..80];
  }

  /** The version is the signed number of the first four bytes. */
  predicate IsSigned(version: int32, b: Bytes) {
    version == LittleEndian(b) || (version < 0 && version + LIMIT32 == LittleEndian(b))
  }

  lemma {:induction false} DropByte(v: int, low: int, rest: int)
    requires 0 <= low < 0x100 && v == low + 0x100 * rest
    ensures v / 0x100 == rest
  {}

  lemma {:induction false} LowestBit(low: int, rest: int, lowered: int)
    ensures (low + 0x100 * rest - 0x100 * lowered) % 2 == low % 2
  {
    var half := 0x80 * rest - 0x80 * lowered;
    assert low + 0x100 * rest - 0x100 * lowered == low + 2 * half;
    AddEven(low, half);
  }

  lemma {:induction false} AddEven(low: int, half: int)
    ensures (low + 2 * half) % 2 == low % 2
  {}

  /** The second byte of the header has its lowest bit set exactly when the version says so. */
  lemma {:induction false} VersionBit(b: Bytes)
    requires |b| == 4
    ensures IsAuxPowVersion(ToSigned(FromBytes(b))) <==> b[1] % 2 == 1
  {
    var v: int := FromBytes(b);
    var upper: int := b[2] as int + 0x100 * b[3] as int;
    var lowered := if v >= 0x8000_0000 then 0x1_0000 else 0;
    assert ToSigned(v) == v - 0x1_0000 * lowered;
    DropByte(ToSigned(v), b[0], b[1] as int + 0x100 * upper - 0x100 * lowered);
    LowestBit(b[1], upper, lowered);
  }

  predicate AllZero(b: Bytes) {
    forall i :: 0 <= i < |b| ==> b[i] == 0
  }

  lemma {:induction false} ZeroHash(b: Bytes)
    requires |b| == 32
    ensures Reversed(b) == ZeroBytes(32) <==> AllZero(b)
  {
    if Reversed(b) == ZeroBytes(32) {
      forall i | 0 <= i < 32 ensures b[i] == 0 { assert Reversed(b)[31 - i] == b[i]; }
    }
    if AllZero(b) { assert Reversed(b) == ZeroBytes(32); }
  }

  lemma {:induction false} ReversedTwice(b: Bytes)
    ensures Reversed(Reversed(b)) == b
  {}

  /** What a report says of the block's header, read off the first eighty bytes. */
  ghost predicate HeaderShown(r: DecodedBlock, bytes: Bytes, hash: Hasher)
    requires |bytes| >= 80
  {
    && r.hash == hash(bytes[..80]) && IsSigned(r.version, bytes[..4])
    && (r.previous.None? <==> AllZero(bytes[4..36]))
    && (r.previous.Some? ==> Reversed(r.previous.value) == bytes[4..36]) && Reversed(r.merkleRoot) == bytes[36..68]
    && r.time == LittleEndian(bytes[68..72]) && r.nonce == LittleEndian(bytes[76..80])
    && |r.bits| == 8 && HexNumber(r.bits) == Some(LittleEndian(bytes[72..76]))
    && (r.parentHash.Some? <==> bytes[1] % 2 == 1) && r.size == |bytes|
  }

  lemma {:induction false} ViewShows(h: Header, bytes: Bytes, parent: Option<Bytes>, xs: seq<DecodedTransaction>,
      hash: Hasher)
    requires |bytes| >= 80 && HeaderAt(h, bytes) && (parent.Some? <==> IsAuxPowVersion(h.version))
    ensures HeaderShown(BlockView(h, bytes[..80], parent, xs, |bytes|, hash), bytes, hash)
  {
    hide FromBytes, LittleEndian, ToHex, PadStart, HexNumber, Reversed, ZeroBytes, AllZero, IsAuxPowVersion, ToSigned,
         IsSigned;
    FourBytes(bytes[68..72]);
    FourBytes(bytes[72..76]);
    FourBytes(bytes[76..80]);
    EightHexDigits(h.bits);
    ZeroHash(bytes[4..36]);
    VersionBit(bytes[..4]);
    SignedBytes(bytes[..4]);
    ReversedTwice(bytes[4..36]);
    ReversedTwice(bytes[36..68]);
  }

  lemma {:induction false} AuxPowWhenMarked(version: int32, s: Bytes)
    requires ReadOptionalAuxPow(version, s).Got?
    ensures ReadOptionalAuxPow(version, s).value.Some? <==> IsAuxPowVersion(version)
  {}

  /** Whatever decodes, the report shows the header fields where the wire format has them. */
  lemma {:induction false} HeaderReported(bytes: Bytes, hash: Hasher)
    requires Decoded(bytes, hash).Some?
    ensures |bytes| >= 80 && HeaderShown(Decoded(bytes, hash).value, bytes, hash)
  {
    hide ReadHeader, ReadOptionalAuxPow, ReadList, Viewer, HeaderAt, BlockView, HeaderShown;
    HeaderFields(bytes);
    var header := ReadHeader(bytes);
    var auxpow := ReadOptionalAuxPow(header.value.version, header.rest);
    AuxPowWhenMarked(header.value.version, header.rest);
    var transactions := ReadList(auxpow.rest, Viewer(hash));
    ViewShows(header.value, bytes, ParentHeader(auxpow.value), transactions.value, hash);
  }

  lemma {:induction false} SignedBytes(b: Bytes)
    requires |b| == 4
    ensures IsSigned(ToSigned(FromBytes(b)), b)
  {
    FourBytes(b);
  }

  /** The report of a block's bytes names its own header, and that of its parent when there is merge-mining data. */
  lemma {:induction false} BlockReported(b: RawBlock, hash: Hasher)
    requires ValidBlock(b)
    ensures var r := Decoded(WriteBlock(b, []), hash);
            && r.Some? && r.value.hash == hash(WriteHeader(b.header, []))
            && r.value.version == b.header.version && r.value.time == b.header.time && r.value.nonce == b.header.nonce
            && HexNumber(r.value.bits) == Some(b.header.bits) && |r.value.bits| == 8
            && Reversed(r.value.merkleRoot) == b.header.merkleRoot
            && (r.value.previous.None? <==> AllZero(b.header.previous))
            && (r.value.previous.Some? ==> Reversed(r.value.previous.value) == b.header.previous)
            && r.value.parentHash == (if b.auxpow.Some? then Some(hash(b.auxpow.value.parentHeader)) else None)
  {
    BlockDecodes(b, hash);
    hide Decoded, WriteBlock, WriteHeader, ExpectedTransactions, ToHex, PadStart, HexNumber, Reversed, ZeroBytes,
         AllZero;
    EightHexDigits(b.header.bits);
    ZeroHash(b.header.previous);
    ReversedTwice(b.header.previous);
    ReversedTwice(b.header.merkleRoot);
  }

  // ---------------------------------------------------------------- nothing else decodes

  lemma {:induction false} ViewsEnd(n: nat, s: Bytes, hash: Hasher)
    ensures End(ReadMany(n, s, Viewer(hash))) == End(ReadMany(n, s, ReadTransaction))
    decreases n
  {
    hide ReadTransaction, TransactionView;
    if n > 0 && ReadTransaction(s).Got? {
      ViewsEnd(n - 1, ReadTransaction(s).rest, hash);
    }
  }

  lemma {:induction false} HeaderNeeds80(s: Bytes)
    ensures ReadHeader(s).Got? ==> |s| >= 80
  {
    hide FromBytes;
  }

  /** Decoding succeeds on exactly the payloads that are one block and nothing more. */
  lemma {:induction false} DecodesExactlyPayloads(bytes: Bytes, hash: Hasher)
    ensures Decoded(bytes, hash).Some? <==> ReadPayload(bytes).Some?
  {
    hide ReadHeader, ReadOptionalAuxPow, ReadMany, ReadCompact, ReadTransaction, Viewer, BlockView, ParentHeader;
    HeaderNeeds80(bytes);
    var header := ReadHeader(bytes);
    if header.Got? {
      var auxpow := ReadOptionalAuxPow(header.value.version, header.rest);
      if auxpow.Got? && ReadCompact(auxpow.rest).Got? {
        ViewsEnd(ReadCompact(auxpow.rest).value, ReadCompact(auxpow.rest).rest, hash);
      }
    }
  }

  /** Every proper truncation of a block's bytes and everything longer is rejected. */
  lemma {:induction false} TruncatedOrTrailingRejected(b: RawBlock, extra: Bytes, n: nat, hash: Hasher)
    requires ValidBlock(b) && extra != [] && n < |WriteBlock(b, [])|
    ensures Decoded(WriteBlock(b, [])[..n], hash) == None
    ensures Decoded(WriteBlock(b, []) + extra, hash) == None
  {
    hide Decoded, ReadBlock, WriteBlock, ValidBlock;
    OnlyWholeBlocksDecode(b, extra, n);
    DecodesExactlyPayloads(WriteBlock(b, [])[..n], hash);
    DecodesExactlyPayloads(WriteBlock(b, []) + extra, hash);
  }

  // ---------------------------------------------------------------- nothing is lost in the report

  /** The input a reported input stands for. */
  function InputOf(view: DecodedInput): TxInput {
    match view
    case Coinbase(script, sequence) => TxInput(ZeroBytes(32), 0xffff_ffff, script, sequence)
    case Spending(txid, vout, script, sequence) => TxInput(Reversed(txid), vout, script, sequence)
  }

  /** A coinbase input names no output; every other one names the output it spends. */
  predicate InputReported(view: DecodedInput, i: TxInput) {
    InputOf(view) == i && (view.Coinbase? <==> AllZero(i.previous) && i.vout == 0xffff_ffff)
  }

  lemma {:induction false} InputViewBack(i: TxInput)
    requires ValidInput(i)
    ensures InputReported(InputView(i), i)
  {
    ReversedTwice(i.previous);
    ZeroHash(i.previous);
    if Reversed(i.previous) == ZeroBytes(32) {
      assert Reversed(ZeroBytes(32)) == ZeroBytes(32);
    }
  }

  /** A reported transaction determines its inputs, and its outputs with their exact values in order. */
  ghost predicate Reports(view: DecodedTransaction, x: Transaction, hash: Hasher)
    requires ValidTransaction(x)
  {
    && view.txid == hash(WriteTransaction(x, [])) && view.size == |WriteTransaction(x, [])|
    && view.version == x.version && view.locktime == x.locktime
    && |view.inputs| == |x.inputs| && (forall k :: 0 <= k < |x.inputs| ==> InputReported(view.inputs[k], x.inputs[k]))
    && |view.outputs| == |x.outputs|
       && (forall k :: 0 <= k < |x.outputs| ==> OutputReported(view.outputs[k], x.outputs[k], k))
  }

  predicate OutputReported(view: DecodedOutput, o: TxOutput, k: nat) {
    view.n == k && view.script == o.script && FromDecimalUnits(view.value, 8) == Some(Signed(o.value))
  }

  lemma {:induction false} TransactionReported(x: Transaction, hash: Hasher)
    requires ValidTransaction(x)
    ensures Reports(ExpectedTransaction(x, hash), x, hash)
  {
    hide FromDecimalUnits, FormatKoinu, Signed, InputView, InputReported, WriteTransaction;
    var view := ExpectedTransaction(x, hash);
    forall k | 0 <= k < |x.inputs| ensures InputReported(view.inputs[k], x.inputs[k]) {
      assert x.inputs[k] in x.inputs;
      InputViewBack(x.inputs[k]);
    }
    forall k | 0 <= k < |x.outputs| ensures OutputReported(view.outputs[k], x.outputs[k], k) {
      KoinuRoundTrip(x.outputs[k].value);
    }
  }

  /** Decoding a block's bytes loses nothing about its transactions: each can be read off the report again. */
  lemma {:induction false} TransactionsReported(b: RawBlock, hash: Hasher)
    requires ValidBlock(b)
    ensures var r := Decoded(WriteBlock(b, []), hash);
            && r.Some? && |r.value.transactions| == |b.transactions| && r.value.size == |WriteBlock(b, [])|
            && forall k :: 0 <= k < |b.transactions| ==>
               ValidTransaction(b.transactions[k]) && Reports(r.value.transactions[k], b.transactions[k], hash)
  {
    BlockDecodes(b, hash);
    hide Decoded, WriteBlock, ValidTransaction, Reports, ExpectedTransaction, WriteHeader;
    forall k | 0 <= k < |b.transactions|
      ensures ValidTransaction(b.transactions[k])
              && Reports(ExpectedTransactions(b.transactions, hash)[k], b.transactions[k], hash)
    {
      assert b.transactions[k] in b.transactions;
      TransactionReported(b.transactions[k], hash);
    }
  }
}
