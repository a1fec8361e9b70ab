/** Bitcoin wire format: what each structure looks like in bytes, and reading it back. */
module Wire {
  import opened Chain

  type byte = x: int | 0 <= x < 256
  type Bytes = seq<byte>

  const LIMIT32 := 0x1_0000_0000

  type uint32 = x: int | 0 <= x < 0x1_0000_0000
  type int32 = x: int | -0x8000_0000 <= x < 0x8000_0000
  type int64 = x: int | -0x8000_0000_0000_0000 <= x < 0x8000_0000_0000_0000

  /** A value and the bytes left after it, or too few bytes. */
  datatype Read<+T> = Got(value: T, rest: Bytes) | Short {
    predicate IsFailure() {
      Short?
    }

    function PropagateFailure<U>(): Read<U>
      requires IsFailure()
    {
      Short
    }

    function Extract(): Read<T>
      requires !IsFailure()
    {
      this
    }
  }

  // ---------------------------------------------------------------- reading

  function Take(n: nat, s: Bytes): (r: Read<Bytes>)
    ensures r.Got? ==> |r.value| == n && s == r.value + r.rest
    ensures r.Short? <==> n > |s|
  {
    if n <= |s| then Got(s[..n], s[n..]) else Short
  }

  function FromBytes(b: Bytes): uint32
    requires |b| == 4
  {
    b[0] as int + 0x100 * b[1] as int + 0x1_0000 * b[2] as int + 0x100_0000 * b[3] as int
  }

  function ReadUint32(s: Bytes): Read<uint32> {
    var b :- Take(4, s);
    Got(FromBytes(b.value), b.rest)
  }

  function ToSigned(v: uint32): int32 {
    if v >= 0x8000_0000 then v - 0x1_0000_0000 else v
  }

  function ReadInt32(s: Bytes): Read<int32> {
    var v :- ReadUint32(s);
    Got(ToSigned(v.value), v.rest)
  }

  function ReadInt64(s: Bytes): Read<int64> {
    var low :- ReadUint32(s);
    var high :- ReadUint32(low.rest);
    Got(ToSigned(high.value) * 0x1_0000_0000 + low.value, high.rest)
  }

  /** One byte, or a marker and two or four more; eight-byte sizes are refused. */
  function ReadCompact(s: Bytes): Read<uint32> {
    var first :- Take(1, s);
    if first.value[0] < 0xfd then Got(first.value[0], first.rest)
    else if first.value[0] == 0xfd then
      var b :- Take(2, first.rest);
      Got(b.value[0] as int + 0x100 * b.value[1] as int, b.rest)
    else if first.value[0] == 0xfe then ReadUint32(first.rest)
    else Short
  }

  function ReadScript(s: Bytes): Read<Bytes> {
    var n :- ReadCompact(s);
    Take(n.value, n.rest)
  }

  function ReadMany<T>(n: nat, s: Bytes, one: Bytes -> Read<T>): Read<seq<T>>
    decreases n
  {
    if n == 0 then Got([], s) else
      var first :- one(s);
      var others :- ReadMany(n - 1, first.rest, one);
      Got([first.value] + others.value, others.rest)
  }

  function ReadList<T>(s: Bytes, one: Bytes -> Read<T>): Read<seq<T>> {
    var n :- ReadCompact(s);
    ReadMany(n.value, n.rest, one)
  }

  // ---------------------------------------------------------------- structures

  datatype TxInput = TxInput(previous: Bytes, vout: uint32, script: Bytes, sequence: uint32)
  datatype TxOutput = TxOutput(value: int64, script: Bytes)
  datatype Transaction = Transaction(version: int32, inputs: seq<TxInput>, outputs: seq<TxOutput>, locktime: uint32)
  datatype Header = Header(version: int32, previous: Bytes, merkleRoot: Bytes, time: uint32, bits: uint32,
    nonce: uint32)

  datatype ParentInput = ParentInput(outpoint: Bytes, script: Bytes, sequence: Bytes)
  datatype ParentOutput = ParentOutput(value: Bytes, script: Bytes)

  /** The parent chain's coinbase; with witnesses it is in the extended format of BIP 144, section "Serialization". */
  datatype Parent = Parent(version: Bytes, inputs: seq<ParentInput>, outputs: seq<ParentOutput>,
                           witnesses: Option<seq<seq<Bytes>>>, locktime: Bytes)

  datatype AuxPow = AuxPow(coinbase: Parent, blockHash: Bytes, branch: seq<Bytes>, index: Bytes,
                           chainBranch: seq<Bytes>, chainIndex: Bytes, parentHeader: Bytes)

  datatype RawBlock = RawBlock(header: Header, auxpow: Option<AuxPow>, transactions: seq<Transaction>)

  function ReadInput(s: Bytes): Read<TxInput> {
    var previous :- Take(32, s);
    var vout :- ReadUint32(previous.rest);
    var script :- ReadScript(vout.rest);
    var sequence :- ReadUint32(script.rest);
    Got(TxInput(previous.value, vout.value, script.value, sequence.value), sequence.rest)
  }

  function ReadOutput(s: Bytes): Read<TxOutput> {
    var value :- ReadInt64(s);
    var script :- ReadScript(value.rest);
    Got(TxOutput(value.value, script.value), script.rest)
  }

  function ReadTransaction(s: Bytes): Read<Transaction> {
    var version :- ReadInt32(s);
    var inputs :- ReadList(version.rest, ReadInput);
    var outputs :- ReadList(inputs.rest, ReadOutput);
    var locktime :- ReadUint32(outputs.rest);
    Got(Transaction(version.value, inputs.value, outputs.value, locktime.value), locktime.rest)
  }

  function ReadHeader(s: Bytes): Read<Header> {
    var version :- ReadInt32(s);
    var previous :- Take(32, version.rest);
    var merkleRoot :- Take(32, previous.rest);
    var time :- ReadUint32(merkleRoot.rest);
    var bits :- ReadUint32(time.rest);
    var nonce :- ReadUint32(bits.rest);
    Got(Header(version.value, previous.value, merkleRoot.value, time.value, bits.value, nonce.value), nonce.rest)
  }

  function ReadHash(s: Bytes): Read<Bytes> {
    Take(32, s)
  }

  function ReadParentInput(s: Bytes): Read<ParentInput> {
    var outpoint :- Take(36, s);
    var script :- ReadScript(outpoint.rest);
    var sequence :- Take(4, script.rest);
    Got(ParentInput(outpoint.value, script.value, sequence.value), sequence.rest)
  }

  function ReadParentOutput(s: Bytes): Read<ParentOutput> {
    var value :- Take(8, s);
    var script :- ReadScript(value.rest);
    Got(ParentOutput(value.value, script.value), script.rest)
  }

  function ReadWitness(s: Bytes): Read<seq<Bytes>> {
    ReadList(s, ReadScript)
  }

  /** The body of the parent's coinbase after its input count, with or without witnesses. */
  function ReadParentBody(version: Bytes, count: nat, extended: bool, s: Bytes): Read<Parent> {
    var inputs :- ReadMany(count, s, ReadParentInput);
    var outputs :- ReadList(inputs.rest, ReadParentOutput);
    if extended then
      var witnesses :- ReadMany(count, outputs.rest, ReadWitness);
      var locktime :- Take(4, witnesses.rest);
      Got(Parent(version, inputs.value, outputs.value, Some(witnesses.value), locktime.value), locktime.rest)
    else
      var locktime :- Take(4, outputs.rest);
      Got(Parent(version, inputs.value, outputs.value, None, locktime.value), locktime.rest)
  }

  /** No inputs and a one after them mark the extended format; running out right there is an error. */
  function ReadParent(s: Bytes): Read<Parent> {
    var version :- Take(4, s);
    var count :- ReadCompact(version.rest);
    if count.value == 0 then
      var flag :- Take(1, count.rest);
      if flag.value[0] == 1 then
        var inner :- ReadCompact(flag.rest);
        ReadParentBody(version.value, inner.value, true, inner.rest)
      else ReadParentBody(version.value, 0, false, count.rest)
    else ReadParentBody(version.value, count.value, false, count.rest)
  }

  function ReadAuxPow(s: Bytes): Read<AuxPow> {
    var coinbase :- ReadParent(s);
    var blockHash :- Take(32, coinbase.rest);
    var branch :- ReadList(blockHash.rest, ReadHash);
    var index :- Take(4, branch.rest);
    var chainBranch :- ReadList(index.rest, ReadHash);
    var chainIndex :- Take(4, chainBranch.rest);
    var parentHeader :- Take(80, chainIndex.rest);
    Got(AuxPow(coinbase.value, blockHash.value, branch.value, index.value, chainBranch.value, chainIndex.value,
      parentHeader.value), parentHeader.rest)
  }

  /** Bit 8 of the version, in two's complement, says that merge-mining data follows the header. */
  predicate IsAuxPowVersion(version: int32) {
    (version / 0x100) % 2 == 1
  }

  function ReadOptionalAuxPow(version: int32, s: Bytes): Read<Option<AuxPow>> {
    if IsAuxPowVersion(version) then
      var auxpow :- ReadAuxPow(s);
      Got(Some(auxpow.value), auxpow.rest)
    else Got(None, s)
  }

  function ReadBlock(s: Bytes): Read<RawBlock> {
    var header :- ReadHeader(s);
    var auxpow :- ReadOptionalAuxPow(header.value.version, header.rest);
    var transactions :- ReadList(auxpow.rest, ReadTransaction);
    Got(RawBlock(header.value, auxpow.value, transactions.value), transactions.rest)
  }

  // ---------------------------------------------------------------- writing, each structure before what follows it

  function Uint32Bytes(v: uint32): (b: Bytes)
    ensures |b| == 4
  {
    [v % 0x100, (v / 0x100) % 0x100, (v / 0x1_0000) % 0x100, v / 0x100_0000]
  }

  function WriteUint32(v: uint32, t: Bytes): Bytes {
    Uint32Bytes(v) + t
  }

  function ToUnsigned(v: int32): uint32 {
    if v < 0 then v + 0x1_0000_0000 else v
  }

  function WriteInt64(v: int64, t: Bytes): Bytes {
    WriteUint32(v % 0x1_0000_0000, WriteUint32(ToUnsigned(v / 0x1_0000_0000), t))
  }

  function CompactBytes(v: uint32): Bytes {
    if v < 0xfd then [v]
    else if v < 0x1_0000 then [0xfd, v % 0x100, v / 0x100]
    else [0xfe] + Uint32Bytes(v)
  }

  function WriteCompact(v: uint32, t: Bytes): Bytes {
    CompactBytes(v) + t
  }

  function WriteScript(script: Bytes, t: Bytes): Bytes
    requires |script| < LIMIT32
  {
    WriteCompact(|script|, script + t)
  }

  predicate ValidInput(i: TxInput) {
    |i.previous| == 32 && |i.script| < LIMIT32
  }

  predicate ValidOutput(o: TxOutput) {
    |o.script| < LIMIT32
  }

  predicate ValidTransaction(x: Transaction) {
    && |x.inputs| < LIMIT32 && |x.outputs| < LIMIT32
    && (forall i <- x.inputs :: ValidInput(i)) && (forall o <- x.outputs :: ValidOutput(o))
  }

  function WriteInput(i: TxInput, t: Bytes): Bytes
    requires ValidInput(i)
  {
    i.previous + WriteUint32(i.vout, WriteScript(i.script, WriteUint32(i.sequence, t)))
  }

  function WriteInputs(inputs: seq<TxInput>, t: Bytes): Bytes
    requires forall i <- inputs :: ValidInput(i)
  {
    if inputs == [] then t else WriteInput(inputs[0], WriteInputs(inputs[1..], t))
  }

  function WriteOutput(o: TxOutput, t: Bytes): Bytes
    requires ValidOutput(o)
  {
    WriteInt64(o.value, WriteScript(o.script, t))
  }

  function WriteOutputs(outputs: seq<TxOutput>, t: Bytes): Bytes
    requires forall o <- outputs :: ValidOutput(o)
  {
    if outputs == [] then t else WriteOutput(outputs[0], WriteOutputs(outputs[1..], t))
  }

  function WriteTransaction(x: Transaction, t: Bytes): Bytes
    requires ValidTransaction(x)
  {
    WriteUint32(ToUnsigned(x.version),
      WriteCompact(|x.inputs|, WriteInputs(x.inputs,
        WriteCompact(|x.outputs|, WriteOutputs(x.outputs, WriteUint32(x.locktime, t))))))
  }

  function WriteTransactions(xs: seq<Transaction>, t: Bytes): Bytes
    requires forall x <- xs :: ValidTransaction(x)
  {
    if xs == [] then t else WriteTransaction(xs[0], WriteTransactions(xs[1..], t))
  }

  predicate ValidHeader(h: Header) {
    |h.previous| == 32 && |h.merkleRoot| == 32
  }

  function WriteHeader(h: Header, t: Bytes): Bytes
    requires ValidHeader(h)
  {
    WriteUint32(ToUnsigned(h.version), h.previous + (h.merkleRoot +
      WriteUint32(h.time, WriteUint32(h.bits, WriteUint32(h.nonce, t)))))
  }

  predicate ValidHashes(hashes: seq<Bytes>) {
    |hashes| < LIMIT32 && forall h <- hashes :: |h| == 32
  }

  function WriteHashes(hashes: seq<Bytes>, t: Bytes): Bytes {
    if hashes == [] then t else hashes[0] + WriteHashes(hashes[1..], t)
  }

  predicate ValidScripts(items: seq<Bytes>) {
    |items| < LIMIT32 && forall item <- items :: |item| < LIMIT32
  }

  function WriteScripts(items: seq<Bytes>, t: Bytes): Bytes
    requires forall item <- items :: |item| < LIMIT32
  {
    if items == [] then t else WriteScript(items[0], WriteScripts(items[1..], t))
  }

  function WriteWitnesses(witnesses: seq<seq<Bytes>>, t: Bytes): Bytes
    requires forall items <- witnesses :: ValidScripts(items)
  {
    if witnesses == [] then t else
      assert ValidScripts(witnesses[0]);
      WriteCompact(|witnesses[0]|, WriteScripts(witnesses[0], WriteWitnesses(witnesses[1..], t)))
  }

  predicate ValidParentInput(i: ParentInput) {
    |i.outpoint| == 36 && |i.script| < LIMIT32 && |i.sequence| == 4
  }

  predicate ValidParentOutput(o: ParentOutput) {
    |o.value| == 8 && |o.script| < LIMIT32
  }

  function WriteParentInputs(inputs: seq<ParentInput>, t: Bytes): Bytes
    requires forall i <- inputs :: ValidParentInput(i)
  {
    if inputs == [] then t else
      assert ValidParentInput(inputs[0]);
      inputs[0].outpoint + WriteScript(inputs[0].script, inputs[0].sequence + WriteParentInputs(inputs[1..], t))
  }

  function WriteParentOutputs(outputs: seq<ParentOutput>, t: Bytes): Bytes
    requires forall o <- outputs :: ValidParentOutput(o)
  {
    if outputs == [] then t else
      assert ValidParentOutput(outputs[0]);
      outputs[0].value + WriteScript(outputs[0].script, WriteParentOutputs(outputs[1..], t))
  }

  /** Sizes the format can express, and one witness for each input when there are any. */
  predicate WellSized(p: Parent) {
    && |p.version| == 4 && |p.locktime| == 4 && |p.inputs| < LIMIT32 && |p.outputs| < LIMIT32
    && (forall i <- p.inputs :: ValidParentInput(i)) && (forall o <- p.outputs :: ValidParentOutput(o))
    && (p.witnesses.Some? ==>
          && |p.witnesses.value| == |p.inputs|
          && forall items <- p.witnesses.value :: ValidScripts(items))
  }

  /** The bytes of a legacy transaction without inputs and with one output start like the extended format. */
  predicate Unambiguous(p: Parent) {
    p.witnesses.None? ==> p.inputs != [] || |p.outputs| != 1
  }

  predicate ValidParent(p: Parent) {
    WellSized(p) && Unambiguous(p)
  }

  function WriteParentBody(p: Parent, t: Bytes): Bytes
    requires WellSized(p)
  {
    WriteCompact(|p.inputs|, WriteParentInputs(p.inputs, WriteCompact(|p.outputs|, WriteParentOutputs(p.outputs,
      if p.witnesses.Some? then WriteWitnesses(p.witnesses.value, p.locktime + t) else p.locktime + t))))
  }

  function WriteParent(p: Parent, t: Bytes): Bytes
    requires WellSized(p)
  {
    p.version + ((if p.witnesses.Some? then [0, 1] else []) + WriteParentBody(p, t))
  }

  predicate ValidAuxPow(a: AuxPow) {
    && ValidParent(a.coinbase) && |a.blockHash| == 32 && ValidHashes(a.branch) && |a.index| == 4
    && ValidHashes(a.chainBranch) && |a.chainIndex| == 4 && |a.parentHeader| == 80
  }

  function WriteAuxPow(a: AuxPow, t: Bytes): Bytes
    requires ValidAuxPow(a)
  {
    WriteParent(a.coinbase, a.blockHash + WriteCompact(|a.branch|, WriteHashes(a.branch, a.index +
      WriteCompact(|a.chainBranch|, WriteHashes(a.chainBranch, a.chainIndex + (a.parentHeader + t))))))
  }

  /** Merge-mining data is there exactly when the version says so. */
  predicate ValidBlock(b: RawBlock) {
    && ValidHeader(b.header) && (b.auxpow.Some? <==> IsAuxPowVersion(b.header.version))
    && (b.auxpow.Some? ==> ValidAuxPow(b.auxpow.value))
    && |b.transactions| < LIMIT32 && forall x <- b.transactions :: ValidTransaction(x)
  }

  function WriteBlock(b: RawBlock, t: Bytes): Bytes
    requires ValidBlock(b)
  {
    WriteHeader(b.header,
      if b.auxpow.Some? then WriteAuxPow(b.auxpow.value,
        WriteCompact(|b.transactions|, WriteTransactions(b.transactions, t)))
      else WriteCompact(|b.transactions|, WriteTransactions(b.transactions, t)))
  }
}
