/** The raw block decoder: a byte reader that moves forward, and the block it reports. */
module RawBlockDecoder {
  import opened Chain
  import opened KeyRanges
  import opened Amounts
  import opened Wire

  // ---------------------------------------------------------------- what the decoder reports

  /** A hash function of the outside world. */
  type Hasher = Bytes -> string

  datatype DecodedInput = Coinbase(script: Bytes, sequence: uint32)
    | Spending(txid: Bytes, vout: uint32, script: Bytes, sequence: uint32)

  datatype DecodedOutput = DecodedOutput(n: nat, value: string, script: Bytes)

  datatype DecodedTransaction = DecodedTransaction(
    txid: string, size: nat, version: int32, inputs: seq<DecodedInput>, outputs: seq<DecodedOutput>, locktime: uint32)

  datatype DecodedBlock = DecodedBlock(
    hash: string, version: int32, previous: Option<Bytes>, merkleRoot: Bytes, time: uint32, bits: string, nonce: uint32,
    parentHash: Option<string>, transactions: seq<DecodedTransaction>, size: nat)

  /** Hashes are shown with their bytes reversed. */
  function Reversed(b: Bytes): (r: Bytes)
    ensures |r| == |b| && forall i :: 0 <= i < |b| ==> r[i] == b[|b| - 1 - i]
  {
    seq(|b|, i requires 0 <= i < |b| => b[|b| - 1 - i])
  }

  function ZeroBytes(n: nat): (b: Bytes)
    ensures |b| == n
  {
    seq(n, _ => 0)
  }

  function InputView(i: TxInput): DecodedInput {
    if Reversed(i.previous) == ZeroBytes(32) && i.vout == 0xffff_ffff then Coinbase(i.script, i.sequence)
    else Spending(Reversed(i.previous), i.vout, i.script, i.sequence)
  }

  function InputViews(inputs: seq<TxInput>): (views: seq<DecodedInput>)
    ensures |views| == |inputs| && forall k :: 0 <= k < |views| ==> views[k] == InputView(inputs[k])
  {
    seq(|inputs|, k requires 0 <= k < |inputs| => InputView(inputs[k]))
  }

  function OutputViews(outputs: seq<TxOutput>): (views: seq<DecodedOutput>)
    ensures |views| == |outputs| && forall k :: 0 <= k < |views| ==>
            views[k] == DecodedOutput(k, FormatKoinu(outputs[k].value), outputs[k].script)
  {
    seq(|outputs|, k requires 0 <= k < |outputs| => DecodedOutput(k, FormatKoinu(outputs[k].value), outputs[k].script))
  }

  /** A transaction is named by the hash of its own bytes. */
  function TransactionView(x: Transaction, raw: Bytes, hash: Hasher): DecodedTransaction {
    DecodedTransaction(hash(raw), |raw|, x.version, InputViews(x.inputs), OutputViews(x.outputs), x.locktime)
  }

  /** Reads one transaction and shows it through the bytes it was read from. */
  function ReadView(s: Bytes, hash: Hasher): Read<DecodedTransaction> {
    var x :- ReadTransaction(s);
    Got(TransactionView(x.value, if |x.rest| <= |s| then s[..|s| - |x.rest|] else [], hash), x.rest)
  }

  function Viewer(hash: Hasher): Bytes -> Read<DecodedTransaction> {
    s => ReadView(s, hash)
  }

  function BlockView(h: Header, headerBytes: Bytes, parentHeader: Option<Bytes>, transactions: seq<DecodedTransaction>,
      size: nat, hash: Hasher): DecodedBlock {
    DecodedBlock(hash(headerBytes), h.version, if Reversed(h.previous) == ZeroBytes(32) then None
      else Some(Reversed(h.previous)), Reversed(h.merkleRoot), h.time, PadStart(ToHex(h.bits), 8), h.nonce,
      if parentHeader.Some? then Some(hash(parentHeader.value)) else None, transactions, size)
  }

  function ParentHeader(auxpow: Option<AuxPow>): Option<Bytes> {
    if auxpow.Some? then Some(auxpow.value.parentHeader) else None
  }

  /**
   * What decoding these bytes means: a header, merge-mining data if the version says so, transactions, and nothing
   * more.
   */
  function Decoded(bytes: Bytes, hash: Hasher): Option<DecodedBlock> {
    var header := ReadHeader(bytes);
    if |bytes| < 80 || header.Short? then None else
      var auxpow := ReadOptionalAuxPow(header.value.version, header.rest);
      if auxpow.Short? then None else
        var transactions := ReadList(auxpow.rest, Viewer(hash));
        if transactions.Short? || transactions.rest != [] then None
        else Some(BlockView(header.value, bytes[..80], ParentHeader(auxpow.value), transactions.value, |bytes|, hash))
  }

  // ---------------------------------------------------------------- the reader

  class ByteReader {
    const bytes: Bytes
    var offset: nat

    predicate Valid()
      reads this
    {
      offset <= |bytes|
    }

    /** Bytes not read yet. */
    function Rest(): Bytes
      requires Valid()
      reads this
    {
      bytes[offset..]
    }

    constructor (bytes: Bytes)
      ensures Valid() && this.bytes == bytes && offset == 0 && Rest() == bytes
    {
      this.bytes, offset := bytes, 0;
    }

    /** What a read leaves behind when it succeeds; when it fails the decoding is over. */
    ghost predicate Reads<T>(r: Read<T>, result: Option<T>)
      reads this
    {
      if r.Short? then result.None? else Valid() && result == Some(r.value) && Rest() == r.rest
    }

    method Read(length: nat) returns (result: Option<Bytes>)
      requires Valid()
      modifies this
      ensures Reads(Take(length, old(Rest())), result)
    {
      if offset + length > |bytes| {
        return None;
      }
      var value := bytes[offset..offset + length];
      assert Rest()[..length] == value && Rest()[length..] == bytes[offset + length..];
      offset := offset + length;
      result := Some(value);
    }

    method ReadUint32LE() returns (result: Option<uint32>)
      requires Valid()
      modifies this
      ensures Reads(ReadUint32(old(Rest())), result)
    {
      var b := Read(4);
      if b.None? {
        return None;
      }
      result := Some(FromBytes(b.value));
    }

    method ReadInt32LE() returns (result: Option<int32>)
      requires Valid()
      modifies this
      ensures Reads(ReadInt32(old(Rest())), result)
    {
      var v := ReadUint32LE();
      if v.None? {
        return None;
      }
      result := Some(ToSigned(v.value));
    }

    method ReadInt64LE() returns (result: Option<int64>)
      requires Valid()
      modifies this
      ensures Reads(ReadInt64(old(Rest())), result)
    {
      hide ReadUint32;
      var low := ReadUint32LE();
      if low.None? {
        return None;
      }
      var high := ReadUint32LE();
      if high.None? {
        return None;
      }
      result := Some(ToSigned(high.value) * 0x1_0000_0000 + low.value);
    }

    method ReadCompactSize() returns (result: Option<uint32>)
      requires Valid()
      modifies this
      ensures Reads(ReadCompact(old(Rest())), result)
    {
      var first := Read(1);
      if first.None? {
        return None;
      }
      if first.value[0] < 0xfd {
        return Some(first.value[0]);
      }
      if first.value[0] == 0xfd {
        var b := Read(2);
        if b.None? {
          return None;
        }
        return Some(b.value[0] as int + 0x100 * b.value[1] as int);
      }
      if first.value[0] == 0xfe {
        result := ReadUint32LE();
        return;
      }
      result := None;
    }

    method ReadScriptBytes() returns (result: Option<Bytes>)
      requires Valid()
      modifies this
      ensures Reads(ReadScript(old(Rest())), result)
    {
      hide ReadCompact, Take;
      var n := ReadCompactSize();
      if n.None? {
        return None;
      }
      result := Read(n.value);
    }

    method ReadTxInput() returns (result: Option<TxInput>)
      requires Valid()
      modifies this
      ensures Reads(ReadInput(old(Rest())), result)
    {
      hide ReadUint32, ReadScript, Take;
      var previous := Read(32);
      if previous.None? {
        return None;
      }
      var vout := ReadUint32LE();
      if vout.None? {
        return None;
      }
      var script := ReadScriptBytes();
      if script.None? {
        return None;
      }
      var sequence := ReadUint32LE();
      if sequence.None? {
        return None;
      }
      result := Some(TxInput(previous.value, vout.value, script.value, sequence.value));
    }

    method ReadTxOutput() returns (result: Option<TxOutput>)
      requires Valid()
      modifies this
      ensures Reads(ReadOutput(old(Rest())), result)
    {
      hide ReadInt64, ReadScript;
      var value := ReadInt64LE();
      if value.None? {
        return None;
      }
      var script := ReadScriptBytes();
      if script.None? {
        return None;
      }
      result := Some(TxOutput(value.value, script.value));
    }

    method ReadInputs() returns (result: Option<seq<TxInput>>)
      requires Valid()
      modifies this
      ensures Reads(ReadList(old(Rest()), ReadInput), result)
    {
      hide ReadCompact, ReadInput;
      var count := ReadCompactSize();
      if count.None? {
        return None;
      }
      ghost var all := ReadMany(count.value, Rest(), ReadInput);
      var inputs: seq<TxInput> := [];
      BeforeNothing(all);
      for index := 0 to count.value
        invariant Valid() && all == Before(inputs, ReadMany(count.value - index, Rest(), ReadInput))
      {
        BeforeNext(inputs, count.value - index, Rest(), ReadInput);
        var one := ReadTxInput();
        if one.None? {
          return None;
        }
        inputs := inputs + [one.value];
      }
      assert inputs + [] == inputs;
      result := Some(inputs);
    }

    method ReadOutputs() returns (result: Option<seq<TxOutput>>)
      requires Valid()
      modifies this
      ensures Reads(ReadList(old(Rest()), ReadOutput), result)
    {
      hide ReadCompact, ReadOutput;
      var count := ReadCompactSize();
      if count.None? {
        return None;
      }
      ghost var all := ReadMany(count.value, Rest(), ReadOutput);
      var outputs: seq<TxOutput> := [];
      BeforeNothing(all);
      for index := 0 to count.value
        invariant Valid() && all == Before(outputs, ReadMany(count.value - index, Rest(), ReadOutput))
      {
        BeforeNext(outputs, count.value - index, Rest(), ReadOutput);
        var one := ReadTxOutput();
        if one.None? {
          return None;
        }
        outputs := outputs + [one.value];
      }
      assert outputs + [] == outputs;
      result := Some(outputs);
    }

    method ReadWholeTransaction() returns (result: Option<Transaction>)
      requires Valid()
      modifies this
      ensures Reads(ReadTransaction(old(Rest())), result)
    {
      hide ReadInt32, ReadUint32, ReadList, ReadInput, ReadOutput;
      var version := ReadInt32LE();
      if version.None? {
        return None;
      }
      var inputs := ReadInputs();
      if inputs.None? {
        return None;
      }
      var outputs := ReadOutputs();
      if outputs.None? {
        return None;
      }
      var locktime := ReadUint32LE();
      if locktime.None? {
        return None;
      }
      result := Some(Transaction(version.value, inputs.value, outputs.value, locktime.value));
    }

    // -------------------------------------------------------------- merge-mining data is skipped

    /** A skip succeeds exactly when the structure is there, and ends where it ends. */
    ghost predicate Skips(end: Option<Bytes>, ok: bool)
      reads this
    {
      if end.None? then !ok else ok && Valid() && Rest() == end.value
    }

    method Skip(length: nat) returns (ok: bool)
      requires Valid()
      modifies this
      ensures Skips(End(Take(length, old(Rest()))), ok)
    {
      if offset + length > |bytes| {
        return false;
      }
      assert Rest()[length..] == bytes[offset + length..];
      offset := offset + length;
      ok := true;
    }

    method SkipScript() returns (ok: bool)
      requires Valid()
      modifies this
      ensures Skips(End(ReadScript(old(Rest()))), ok)
    {
      hide ReadCompact, Take;
      var n := ReadCompactSize();
      if n.None? {
        return false;
      }
      ok := Skip(n.value);
    }

    method SkipHashVector() returns (ok: bool)
      requires Valid()
      modifies this
      ensures Skips(End(ReadList(old(Rest()), ReadHash)), ok)
    {
      hide ReadCompact, Take, ReadMany;
      var count := ReadCompactSize();
      if count.None? {
        return false;
      }
      HashesAtOnce(count.value, Rest());
      ok := Skip(count.value as int * 32);
    }

    method SkipParentInputs(count: nat) returns (ok: bool)
      requires Valid()
      modifies this
      ensures Skips(End(ReadMany(count, old(Rest()), ReadParentInput)), ok)
    {
      hide ReadScript, Take;
      ghost var end := End(ReadMany(count, Rest(), ReadParentInput));
      for index := 0 to count
        invariant Valid() && end == End(ReadMany(count - index, Rest(), ReadParentInput))
      {
        EndNext(count - index, Rest(), ReadParentInput);
        ok := Skip(36);
        if !ok {
          return;
        }
        ok := SkipScript();
        if !ok {
          return;
        }
        ok := Skip(4);
        if !ok {
          return;
        }
      }
      ok := true;
    }

    method SkipParentOutputs() returns (ok: bool)
      requires Valid()
      modifies this
      ensures Skips(End(ReadList(old(Rest()), ReadParentOutput)), ok)
    {
      hide ReadScript, Take, ReadCompact;
      var count := ReadCompactSize();
      if count.None? {
        return false;
      }
      ghost var end := End(ReadMany(count.value, Rest(), ReadParentOutput));
      for index := 0 to count.value
        invariant Valid() && end == End(ReadMany(count.value - index, Rest(), ReadParentOutput))
      {
        EndNext(count.value - index, Rest(), ReadParentOutput);
        ok := Skip(8);
        if !ok {
          return;
        }
        ok := SkipScript();
        if !ok {
          return;
        }
      }
      ok := true;
    }

    method SkipWitness() returns (ok: bool)
      requires Valid()
      modifies this
      ensures Skips(End(ReadWitness(old(Rest()))), ok)
    {
      hide ReadScript, ReadCompact;
      var items := ReadCompactSize();
      if items.None? {
        return false;
      }
      ghost var end := End(ReadMany(items.value, Rest(), ReadScript));
      for item := 0 to items.value
        invariant Valid() && end == End(ReadMany(items.value - item, Rest(), ReadScript))
      {
        EndNext(items.value - item, Rest(), ReadScript);
        ok := SkipScript();
        if !ok {
          return;
        }
      }
      ok := true;
    }

    method SkipWitnesses(inputs: nat) returns (ok: bool)
      requires Valid()
      modifies this
      ensures Skips(End(ReadMany(inputs, old(Rest()), ReadWitness)), ok)
    {
      hide ReadWitness;
      ghost var end := End(ReadMany(inputs, Rest(), ReadWitness));
      for input := 0 to inputs
        invariant Valid() && end == End(ReadMany(inputs - input, Rest(), ReadWitness))
      {
        EndNext(inputs - input, Rest(), ReadWitness);
        ok := SkipWitness();
        if !ok {
          return;
        }
      }
      ok := true;
    }

    method SkipParentBody(inputs: nat, extended: bool, ghost version: Bytes) returns (ok: bool)
      requires Valid()
      modifies this
      ensures Skips(End(ReadParentBody(version, inputs, extended, old(Rest()))), ok)
    {
      hide ReadMany, ReadList, Take, ReadParentInput, ReadParentOutput, ReadWitness;
      ok := SkipParentInputs(inputs);
      if !ok {
        return;
      }
      ok := SkipParentOutputs();
      if !ok {
        return;
      }
      if extended {
        ok := SkipWitnesses(inputs);
        if !ok {
          return;
        }
      }
      ok := Skip(4);
    }

    /** The parent's coinbase: no inputs followed by a one means that the extended format begins. */
    method SkipTransaction() returns (ok: bool)
      requires Valid()
      modifies this
      ensures Skips(End(ReadParent(old(Rest()))), ok)
    {
      hide ReadCompact, Take, ReadParentBody;
      ghost var version := Take(4, Rest());
      ok := Skip(4);
      if !ok {
        return;
      }
      var inputs := ReadCompactSize();
      if inputs.None? {
        return false;
      }
      if inputs.value == 0 {
        if offset + 1 > |bytes| {
          return false;
        }
        var flag := bytes[offset];
        assert Take(1, Rest()).value[0] == flag by { assert Rest() == [flag] + bytes[offset + 1..]; }
        if flag == 1 {
          ok := Skip(1);
          inputs := ReadCompactSize();
          if inputs.None? {
            return false;
          }
          ok := SkipParentBody(inputs.value, true, version.value);
          return;
        }
      }
      ok := SkipParentBody(inputs.value, false, version.value);
    }

    /** Merge-mining data; all that is kept is the parent's header. */
    method ReadAuxPowHeader() returns (result: Option<Bytes>)
      requires Valid()
      modifies this
      ensures var r := ReadAuxPow(old(Rest()));
              if r.Short? then result.None? else result == Some(r.value.parentHeader) && Valid() && Rest() == r.rest
    {
      hide ReadParent, Take, ReadList, ReadHash;
      var ok := SkipTransaction();
      if !ok {
        return None;
      }
      ok := Skip(32);
      if !ok {
        return None;
      }
      ok := SkipHashVector();
      if !ok {
        return None;
      }
      ok := Skip(4);
      if !ok {
        return None;
      }
      ok := SkipHashVector();
      if !ok {
        return None;
      }
      ok := Skip(4);
      if !ok {
        return None;
      }
      result := Read(80);
    }
  }

  /** Where a read ends, when it does. */
  function End<T>(r: Read<T>): Option<Bytes> {
    if r.Short? then None else Some(r.rest)
  }

  lemma {:induction false} EndNext<T>(n: nat, s: Bytes, one: Bytes -> Read<T>)
    requires n > 0
    ensures End(ReadMany(n, s, one)) == if one(s).Short? then None else End(ReadMany(n - 1, one(s).rest, one))
  {}

  /** Skipping hashes together ends where reading them one by one does. */
  lemma {:induction false} HashesAtOnce(n: nat, s: Bytes)
    ensures End(ReadMany(n, s, ReadHash)) == End(Take(n * 32, s))
    decreases n
  {
    if n > 0 && |s| >= 32 {
      HashesAtOnce(n - 1, s[32..]);
    }
  }

  /** Items already read, before the result of reading the rest. */
  function Before<T>(done: seq<T>, r: Read<seq<T>>): Read<seq<T>> {
    if r.Short? then Short else Got(done + r.value, r.rest)
  }

  lemma {:induction false} BeforeNothing<T>(r: Read<seq<T>>)
    ensures Before([], r) == r
  {
    if r.Got? { assert [] + r.value == r.value; }
  }

  lemma {:induction false} BeforeNext<T>(done: seq<T>, n: nat, s: Bytes, one: Bytes -> Read<T>)
    requires n > 0
    ensures Before(done, ReadMany(n, s, one))
            == if one(s).Short? then Short else Before(done + [one(s).value], ReadMany(n - 1, one(s).rest, one))
  {
    if one(s).Got? && ReadMany(n - 1, one(s).rest, one).Got? {
      var others := ReadMany(n - 1, one(s).rest, one).value;
      assert done + ([one(s).value] + others) == (done + [one(s).value]) + others;
    }
  }

  /** Reading never gives bytes back. */
  ghost predicate Shrinks<T>(one: Bytes -> Read<T>) {
    forall s :: one(s).Got? ==> |one(s).rest| <= |s|
  }

  lemma {:induction false} ManyShrinks<T>(n: nat, s: Bytes, one: Bytes -> Read<T>)
    requires Shrinks(one) && ReadMany(n, s, one).Got?
    ensures |ReadMany(n, s, one).rest| <= |s|
    decreases n
  {
    if n > 0 {
      ManyShrinks(n - 1, one(s).rest, one);
    }
  }

  lemma {:induction false} PartsShrink()
    ensures Shrinks(ReadUint32) && Shrinks(ReadInt32) && Shrinks(ReadInt64) && Shrinks(ReadCompact)
            && Shrinks(ReadScript)
  {}

  lemma {:induction false} ItemsShrink()
    ensures Shrinks(ReadInput) && Shrinks(ReadOutput)
  {
    hide ReadUint32, ReadInt64, ReadScript;
    PartsShrink();
  }

  lemma {:induction false} TransactionShrinks(s: Bytes)
    requires ReadTransaction(s).Got?
    ensures |ReadTransaction(s).rest| <= |s|
  {
    hide ReadInt32, ReadUint32, ReadCompact, ReadInput, ReadOutput, ReadMany;
    PartsShrink();
    ItemsShrink();
    var ins := ReadCompact(ReadInt32(s).rest);
    ManyShrinks(ins.value, ins.rest, ReadInput);
    var outs := ReadCompact(ReadMany(ins.value, ins.rest, ReadInput).rest);
    ManyShrinks(outs.value, outs.rest, ReadOutput);
  }

  // ---------------------------------------------------------------- decoding

  method ReadBlockHeader(reader: ByteReader) returns (result: Option<Header>)
    requires reader.Valid()
    modifies reader
    ensures reader.Reads(ReadHeader(old(reader.Rest())), result)
  {
    hide ReadInt32, ReadUint32, Take;
    var version := reader.ReadInt32LE();
    if version.None? {
      return None;
    }
    var previous := reader.Read(32);
    if previous.None? {
      return None;
    }
    var merkleRoot := reader.Read(32);
    if merkleRoot.None? {
      return None;
    }
    var time := reader.ReadUint32LE();
    if time.None? {
      return None;
    }
    var bits := reader.ReadUint32LE();
    if bits.None? {
      return None;
    }
    var nonce := reader.ReadUint32LE();
    if nonce.None? {
      return None;
    }
    result := Some(Header(version.value, previous.value, merkleRoot.value, time.value, bits.value, nonce.value));
  }

  method ReadTransactions(reader: ByteReader, hash: Hasher) returns (result: Option<seq<DecodedTransaction>>)
    requires reader.Valid()
    modifies reader
    ensures reader.Reads(ReadList(old(reader.Rest()), Viewer(hash)), result)
  {
    hide ReadCompact, ReadTransaction;
    var txCount := reader.ReadCompactSize();
    if txCount.None? {
      return None;
    }
    ghost var all := ReadMany(txCount.value, reader.Rest(), Viewer(hash));
    var tx: seq<DecodedTransaction> := [];
    BeforeNothing(all);
    for index := 0 to txCount.value
      invariant reader.Valid() && all == Before(tx, ReadMany(txCount.value - index, reader.Rest(), Viewer(hash)))
    {
      BeforeNext(tx, txCount.value - index, reader.Rest(), Viewer(hash));
      var start := reader.offset;
      ghost var before := reader.Rest();
      var one := reader.ReadWholeTransaction();
      if one.None? {
        return None;
      }
      TransactionShrinks(before);
      var raw := reader.bytes[start..reader.offset];
      assert raw == before[..|before| - |reader.Rest()|];
      tx := tx + [TransactionView(one.value, raw, hash)];
    }
    assert tx + [] == tx;
    result := Some(tx);
  }

  method DecodeRawBlock(bytes: Bytes, hash: Hasher) returns (result: Option<DecodedBlock>)
    ensures result == Decoded(bytes, hash)
  {
    hide ReadHeader, ReadAuxPow, ReadList, ReadTransaction, BlockView, IsAuxPowVersion, ReadView;
    var reader := new ByteReader(bytes);
    if |bytes| < 80 {
      return None;
    }
    var headerBytes := bytes[..80];
    var header := ReadBlockHeader(reader);
    if header.None? {
      return None;
    }
    var parentHeader: Option<Bytes> := None;
    if IsAuxPowVersion(header.value.version) {
      parentHeader := reader.ReadAuxPowHeader();
      if parentHeader.None? {
        return None;
      }
    }
    var tx := ReadTransactions(reader, hash);
    if tx.None? {
      return None;
    }
    if reader.offset != |bytes| {
      return None;
    }
    result := Some(BlockView(header.value, headerBytes, parentHeader, tx.value, |bytes|, hash));
  }
}
