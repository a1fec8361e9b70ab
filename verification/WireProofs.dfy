/** Reading inverts writing, and needs every byte. */
module WireProofs {
  import opened Chain
  import opened Wire

  // ---------------------------------------------------------------- reading back what was written

  lemma {:induction false} TakeBack(b: Bytes, t: Bytes)
    ensures Take(|b|, b + t) == Got(b, t)
  {}

  lemma {:induction false} BytesBack(v: uint32)
    ensures FromBytes(Uint32Bytes(v)) == v
  {}

  lemma {:induction false} Uint32Back(v: uint32, t: Bytes)
    ensures ReadUint32(WriteUint32(v, t)) == Got(v, t)
  {
    hide FromBytes, Uint32Bytes;
    BytesBack(v);
    TakeBack(Uint32Bytes(v), t);
  }

  lemma {:induction false} Int32Back(v: int32, t: Bytes)
    ensures ReadInt32(WriteUint32(ToUnsigned(v), t)) == Got(v, t)
  {
    hide WriteUint32, ReadUint32;
    Uint32Back(ToUnsigned(v), t);
  }

  lemma {:induction false} Int64Back(v: int64, t: Bytes)
    ensures ReadInt64(WriteInt64(v, t)) == Got(v, t)
  {
    hide WriteUint32, ReadUint32;
    Uint32Back(v % 0x1_0000_0000, WriteUint32(ToUnsigned(v / 0x1_0000_0000), t));
    Uint32Back(ToUnsigned(v / 0x1_0000_0000), t);
  }

  lemma {:induction false} CompactBack(v: uint32, t: Bytes)
    ensures ReadCompact(WriteCompact(v, t)) == Got(v, t)
  {
    if v < 0xfd {
      TakeBack([v], t);
    } else if v < 0x1_0000 {
      assert CompactBytes(v) + t == [0xfd] + ([v % 0x100, v / 0x100] + t);
      TakeBack([0xfd], [v % 0x100, v / 0x100] + t);
      TakeBack([v % 0x100, v / 0x100], t);
    } else {
      hide FromBytes, Uint32Bytes;
      assert CompactBytes(v) + t == [0xfe] + (Uint32Bytes(v) + t);
      TakeBack([0xfe], Uint32Bytes(v) + t);
      Uint32Back(v, t);
    }
  }

  lemma {:induction false} ScriptBack(script: Bytes, t: Bytes)
    requires |script| < LIMIT32
    ensures ReadScript(WriteScript(script, t)) == Got(script, t)
  {
    hide ReadCompact, WriteCompact, Take;
    CompactBack(|script|, script + t);
    TakeBack(script, t);
  }

  lemma {:induction false} InputBack(i: TxInput, t: Bytes)
    requires ValidInput(i)
    ensures ReadInput(WriteInput(i, t)) == Got(i, t)
  {
    hide ReadUint32, WriteUint32, ReadScript, WriteScript, Take;
    TakeBack(i.previous, WriteUint32(i.vout, WriteScript(i.script, WriteUint32(i.sequence, t))));
    Uint32Back(i.vout, WriteScript(i.script, WriteUint32(i.sequence, t)));
    ScriptBack(i.script, WriteUint32(i.sequence, t));
    Uint32Back(i.sequence, t);
  }

  lemma {:induction false} InputsBack(inputs: seq<TxInput>, t: Bytes)
    requires forall i <- inputs :: ValidInput(i)
    ensures ReadMany(|inputs|, WriteInputs(inputs, t), ReadInput) == Got(inputs, t)
  {
    hide ReadInput, WriteInput, ValidInput;
    if inputs != [] {
      InputBack(inputs[0], WriteInputs(inputs[1..], t));
      InputsBack(inputs[1..], t);
      assert [inputs[0]] + inputs[1..] == inputs;
    }
  }

  lemma {:induction false} OutputBack(o: TxOutput, t: Bytes)
    requires ValidOutput(o)
    ensures ReadOutput(WriteOutput(o, t)) == Got(o, t)
  {
    hide ReadInt64, WriteInt64, ReadScript, WriteScript;
    Int64Back(o.value, WriteScript(o.script, t));
    ScriptBack(o.script, t);
  }

  lemma {:induction false} OutputsBack(outputs: seq<TxOutput>, t: Bytes)
    requires forall o <- outputs :: ValidOutput(o)
    ensures ReadMany(|outputs|, WriteOutputs(outputs, t), ReadOutput) == Got(outputs, t)
  {
    hide ReadOutput, WriteOutput, ValidOutput;
    if outputs != [] {
      OutputBack(outputs[0], WriteOutputs(outputs[1..], t));
      OutputsBack(outputs[1..], t);
      assert [outputs[0]] + outputs[1..] == outputs;
    }
  }

  lemma {:induction false} ListBack<T>(n: uint32, s: Bytes, one: Bytes -> Read<T>)
    ensures ReadList(WriteCompact(n, s), one) == ReadMany(n, s, one)
  {
    hide ReadCompact, WriteCompact;
    CompactBack(n, s);
  }

  lemma {:induction false} TransactionBack(x: Transaction, t: Bytes)
    requires ValidTransaction(x)
    ensures ReadTransaction(WriteTransaction(x, t)) == Got(x, t)
  {
    hide ReadInt32, ReadUint32, WriteUint32, ReadList, ReadMany, WriteCompact, WriteInputs, WriteOutputs, ReadInput,
         ReadOutput, ToUnsigned;
    var end := WriteUint32(x.locktime, t);
    var outs := WriteOutputs(x.outputs, end);
    var ins := WriteInputs(x.inputs, WriteCompact(|x.outputs|, outs));
    Int32Back(x.version, WriteCompact(|x.inputs|, ins));
    ListBack(|x.inputs|, ins, ReadInput);
    InputsBack(x.inputs, WriteCompact(|x.outputs|, outs));
    ListBack(|x.outputs|, outs, ReadOutput);
    OutputsBack(x.outputs, end);
    Uint32Back(x.locktime, t);
  }

  lemma {:induction false} TransactionsBack(xs: seq<Transaction>, t: Bytes)
    requires forall x <- xs :: ValidTransaction(x)
    ensures ReadMany(|xs|, WriteTransactions(xs, t), ReadTransaction) == Got(xs, t)
  {
    hide ReadTransaction, WriteTransaction, ValidTransaction;
    if xs != [] {
      TransactionBack(xs[0], WriteTransactions(xs[1..], t));
      TransactionsBack(xs[1..], t);
      assert [xs[0]] + xs[1..] == xs;
    }
  }

  lemma {:induction false} HeaderBack(h: Header, t: Bytes)
    requires ValidHeader(h)
    ensures ReadHeader(WriteHeader(h, t)) == Got(h, t)
  {
    hide ReadInt32, ReadUint32, WriteUint32, Take, ToUnsigned;
    var nonce := WriteUint32(h.nonce, t);
    var bits := WriteUint32(h.bits, nonce);
    var time := WriteUint32(h.time, bits);
    Int32Back(h.version, h.previous + (h.merkleRoot + time));
    TakeBack(h.previous, h.merkleRoot + time);
    TakeBack(h.merkleRoot, time);
    Uint32Back(h.time, bits);
    Uint32Back(h.bits, nonce);
    Uint32Back(h.nonce, t);
  }

  lemma {:induction false} HashesBack(hashes: seq<Bytes>, t: Bytes)
    requires forall h <- hashes :: |h| == 32
    ensures ReadMany(|hashes|, WriteHashes(hashes, t), ReadHash) == Got(hashes, t)
  {
    hide Take;
    if hashes != [] {
      TakeBack(hashes[0], WriteHashes(hashes[1..], t));
      HashesBack(hashes[1..], t);
      assert [hashes[0]] + hashes[1..] == hashes;
    }
  }

  lemma {:induction false} ScriptsBack(items: seq<Bytes>, t: Bytes)
    requires forall item <- items :: |item| < LIMIT32
    ensures ReadMany(|items|, WriteScripts(items, t), ReadScript) == Got(items, t)
  {
    hide ReadScript, WriteScript;
    if items != [] {
      ScriptBack(items[0], WriteScripts(items[1..], t));
      ScriptsBack(items[1..], t);
      assert [items[0]] + items[1..] == items;
    }
  }

  lemma {:induction false} WitnessesBack(witnesses: seq<seq<Bytes>>, t: Bytes)
    requires forall items <- witnesses :: ValidScripts(items)
    ensures ReadMany(|witnesses|, WriteWitnesses(witnesses, t), ReadWitness) == Got(witnesses, t)
  {
    hide ReadList, WriteCompact, WriteScripts, ReadScript;
    if witnesses != [] {
      var rest := WriteWitnesses(witnesses[1..], t);
      assert ValidScripts(witnesses[0]);
      ListBack(|witnesses[0]|, WriteScripts(witnesses[0], rest), ReadScript);
      ScriptsBack(witnesses[0], rest);
      WitnessesBack(witnesses[1..], t);
      assert [witnesses[0]] + witnesses[1..] == witnesses;
    }
  }

  lemma {:induction false} ParentInputBack(i: ParentInput, t: Bytes)
    requires ValidParentInput(i)
    ensures ReadParentInput(i.outpoint + WriteScript(i.script, i.sequence + t)) == Got(i, t)
  {
    hide ReadScript, WriteScript, Take;
    TakeBack(i.outpoint, WriteScript(i.script, i.sequence + t));
    ScriptBack(i.script, i.sequence + t);
    TakeBack(i.sequence, t);
  }

  lemma {:induction false} ParentInputsBack(inputs: seq<ParentInput>, t: Bytes)
    requires forall i <- inputs :: ValidParentInput(i)
    ensures ReadMany(|inputs|, WriteParentInputs(inputs, t), ReadParentInput) == Got(inputs, t)
  {
    hide ReadParentInput, WriteScript;
    if inputs != [] {
      assert ValidParentInput(inputs[0]);
      ParentInputBack(inputs[0], WriteParentInputs(inputs[1..], t));
      ParentInputsBack(inputs[1..], t);
      assert [inputs[0]] + inputs[1..] == inputs;
    }
  }

  lemma {:induction false} ParentOutputBack(o: ParentOutput, t: Bytes)
    requires ValidParentOutput(o)
    ensures ReadParentOutput(o.value + WriteScript(o.script, t)) == Got(o, t)
  {
    hide ReadScript, WriteScript, Take;
    TakeBack(o.value, WriteScript(o.script, t));
    ScriptBack(o.script, t);
  }

  lemma {:induction false} ParentOutputsBack(outputs: seq<ParentOutput>, t: Bytes)
    requires forall o <- outputs :: ValidParentOutput(o)
    ensures ReadMany(|outputs|, WriteParentOutputs(outputs, t), ReadParentOutput) == Got(outputs, t)
  {
    hide ReadParentOutput, WriteScript;
    if outputs != [] {
      assert ValidParentOutput(outputs[0]);
      ParentOutputBack(outputs[0], WriteParentOutputs(outputs[1..], t));
      ParentOutputsBack(outputs[1..], t);
      assert [outputs[0]] + outputs[1..] == outputs;
    }
  }

  function WriteParentEnd(p: Parent, t: Bytes): Bytes
    requires WellSized(p)
  {
    if p.witnesses.Some? then WriteWitnesses(p.witnesses.value, p.locktime + t) else p.locktime + t
  }

  lemma {:induction false} ParentBodyBack(p: Parent, t: Bytes)
    requires WellSized(p)
    ensures var outs := WriteCompact(|p.outputs|, WriteParentOutputs(p.outputs, WriteParentEnd(p, t)));
            ReadParentBody(p.version, |p.inputs|, p.witnesses.Some?, WriteParentInputs(p.inputs, outs)) == Got(p, t)
  {
    hide ReadList, ReadMany, WriteCompact, WriteParentInputs, WriteParentOutputs, WriteWitnesses, Take, ReadParentInput,
         ReadParentOutput, ReadWitness;
    var end := WriteParentEnd(p, t);
    var outs := WriteCompact(|p.outputs|, WriteParentOutputs(p.outputs, end));
    ParentInputsBack(p.inputs, outs);
    ListBack(|p.outputs|, WriteParentOutputs(p.outputs, end), ReadParentOutput);
    ParentOutputsBack(p.outputs, end);
    TakeBack(p.locktime, t);
    if p.witnesses.Some? {
      WitnessesBack(p.witnesses.value, p.locktime + t);
    }
  }

  lemma {:induction false} CompactFirst(v: uint32, t: Bytes)
    ensures var s := WriteCompact(v, t);
            |s| >= 1 && Take(1, s) == Got([s[0]], s[1..]) && (s[0] == 1 <==> v == 1)
  {
    var s := WriteCompact(v, t);
    assert s[..1] == [s[0]];
  }

  lemma {:induction false} NoParentInputs(t: Bytes)
    ensures WriteParentInputs([], t) == t
  {}

  /** The parent's coinbase is read back exactly when its format can be told from its bytes. */
  lemma {:induction false} ParentBack(p: Parent, t: Bytes)
    requires WellSized(p)
    ensures ReadParent(WriteParent(p, t)) == Got(p, t) <==> Unambiguous(p)
  {
    hide ReadCompact, WriteCompact, WriteParentInputs, WriteParentOutputs, WriteWitnesses, ReadParentBody, Take,
         CompactBytes;
    var body := WriteParentBody(p, t);
    var outs := WriteCompact(|p.outputs|, WriteParentOutputs(p.outputs, WriteParentEnd(p, t)));
    var ins := WriteParentInputs(p.inputs, outs);
    ParentBodyBack(p, t);
    CompactBack(|p.inputs|, ins);
    if p.witnesses.Some? {
      assert WriteParent(p, t) == p.version + ([0, 1] + body);
      TakeBack(p.version, [0, 1] + body);
      MarkerBack(body);
    } else {
      assert [] + body == body;
      TakeBack(p.version, body);
      if p.inputs == [] {
        NoParentInputs(outs);
        CompactFirst(|p.outputs|, WriteParentOutputs(p.outputs, WriteParentEnd(p, t)));
        ExtendedHasWitnesses(p.version, outs[1..]);
      }
    }
  }

  /** Whatever follows the marker, the result has witnesses. */
  lemma {:induction false} ExtendedHasWitnesses(version: Bytes, s: Bytes)
    ensures ReadCompact(s).Got? ==>
              var r := ReadParentBody(version, ReadCompact(s).value, true, ReadCompact(s).rest);
                r.Got? ==> r.value.witnesses.Some?
  {
    hide ReadCompact, ReadMany, ReadList, Take;
  }

  lemma {:induction false} MarkerBack(body: Bytes)
    ensures ReadCompact([0, 1] + body) == Got(0, [1] + body)
    ensures Take(1, [1] + body) == Got([1], body)
  {
    assert [0, 1] + body == [0] + ([1] + body);
  }

  lemma {:induction false} AuxPowBack(a: AuxPow, t: Bytes)
    requires ValidAuxPow(a)
    ensures ReadAuxPow(WriteAuxPow(a, t)) == Got(a, t)
  {
    hide ReadParent, WriteParent, ReadList, ReadMany, WriteCompact, WriteHashes, Take, ReadHash, WellSized, Unambiguous;
    var end := a.chainIndex + (a.parentHeader + t);
    var second := WriteHashes(a.chainBranch, end);
    var first := WriteHashes(a.branch, a.index + WriteCompact(|a.chainBranch|, second));
    ParentBack(a.coinbase, a.blockHash + WriteCompact(|a.branch|, first));
    TakeBack(a.blockHash, WriteCompact(|a.branch|, first));
    ListBack(|a.branch|, first, ReadHash);
    HashesBack(a.branch, a.index + WriteCompact(|a.chainBranch|, second));
    TakeBack(a.index, WriteCompact(|a.chainBranch|, second));
    ListBack(|a.chainBranch|, second, ReadHash);
    HashesBack(a.chainBranch, end);
    TakeBack(a.chainIndex, a.parentHeader + t);
    TakeBack(a.parentHeader, t);
  }

  /** Reading a block gives every field back, and leaves exactly the bytes that follow it. */
  lemma {:induction false} BlockBack(b: RawBlock, t: Bytes)
    requires ValidBlock(b)
    ensures ReadBlock(WriteBlock(b, t)) == Got(b, t)
  {
    hide ReadHeader, WriteHeader, ReadAuxPow, WriteAuxPow, ReadList, ReadMany, WriteCompact, WriteTransactions,
         ReadTransaction, ValidHeader, ValidAuxPow, ValidTransaction, IsAuxPowVersion;
    var xs := WriteCompact(|b.transactions|, WriteTransactions(b.transactions, t));
    HeaderBack(b.header, if b.auxpow.Some? then WriteAuxPow(b.auxpow.value, xs) else xs);
    if b.auxpow.Some? { AuxPowBack(b.auxpow.value, xs); }
    ListBack(|b.transactions|, WriteTransactions(b.transactions, t), ReadTransaction);
    TransactionsBack(b.transactions, t);
  }

  // ---------------------------------------------------------------- truncated and trailing bytes

  /** More bytes behind a structure change neither what is read nor what is left before them. */
  ghost predicate ExtendsAt<T>(one: Bytes -> Read<T>, s: Bytes, t: Bytes) {
    one(s).Got? ==> one(s + t) == Got(one(s).value, one(s).rest + t)
  }

  ghost predicate Extends<T>(one: Bytes -> Read<T>) {
    forall s, t :: ExtendsAt(one, s, t)
  }

  lemma {:induction false} TakeExtends(n: nat, s: Bytes, t: Bytes)
    requires Take(n, s).Got?
    ensures Take(n, s + t) == Got(Take(n, s).value, Take(n, s).rest + t)
  {
    assert (s + t)[..n] == s[..n] && (s + t)[n..] == s[n..] + t;
  }

  lemma {:induction false} Uint32Extends(s: Bytes, t: Bytes)
    requires ReadUint32(s).Got?
    ensures ReadUint32(s + t) == Got(ReadUint32(s).value, ReadUint32(s).rest + t)
  {
    TakeExtends(4, s, t);
  }

  lemma {:induction false} Int32Extends(s: Bytes, t: Bytes)
    requires ReadInt32(s).Got?
    ensures ReadInt32(s + t) == Got(ReadInt32(s).value, ReadInt32(s).rest + t)
  {
    hide ReadUint32;
    Uint32Extends(s, t);
  }

  lemma {:induction false} Int64Extends(s: Bytes, t: Bytes)
    requires ReadInt64(s).Got?
    ensures ReadInt64(s + t) == Got(ReadInt64(s).value, ReadInt64(s).rest + t)
  {
    hide ReadUint32;
    Uint32Extends(s, t);
    Uint32Extends(ReadUint32(s).rest, t);
  }

  lemma {:induction false} CompactExtends(s: Bytes, t: Bytes)
    requires ReadCompact(s).Got?
    ensures ReadCompact(s + t) == Got(ReadCompact(s).value, ReadCompact(s).rest + t)
  {
    hide Take, ReadUint32;
    TakeExtends(1, s, t);
    var rest := Take(1, s).rest;
    if Take(2, rest).Got? { TakeExtends(2, rest, t); }
    if ReadUint32(rest).Got? { Uint32Extends(rest, t); }
  }

  lemma {:induction false} ScriptExtends()
    ensures Extends(ReadScript)
  {
    forall s, t ensures ExtendsAt(ReadScript, s, t) {
      if ReadScript(s).Got? {
        CompactExtends(s, t);
        TakeExtends(ReadCompact(s).value, ReadCompact(s).rest, t);
      }
    }
  }

  lemma {:induction false} ManyExtends<T>(n: nat, s: Bytes, t: Bytes, one: Bytes -> Read<T>)
    requires Extends(one) && ReadMany(n, s, one).Got?
    ensures ReadMany(n, s + t, one) == Got(ReadMany(n, s, one).value, ReadMany(n, s, one).rest + t)
    decreases n
  {
    if n > 0 {
      assert ExtendsAt(one, s, t);
      ManyExtends(n - 1, one(s).rest, t, one);
    }
  }

  lemma {:induction false} ListExtends<T>(s: Bytes, t: Bytes, one: Bytes -> Read<T>)
    requires Extends(one) && ReadList(s, one).Got?
    ensures ReadList(s + t, one) == Got(ReadList(s, one).value, ReadList(s, one).rest + t)
  {
    hide ReadCompact, ReadMany, Extends;
    CompactExtends(s, t);
    ManyExtends(ReadCompact(s).value, ReadCompact(s).rest, t, one);
  }

  lemma {:induction false} InputExtends()
    ensures Extends(ReadInput)
  {
    forall s, t ensures ExtendsAt(ReadInput, s, t) {
      if ReadInput(s).Got? { InputExtendsAt(s, t); }
    }
  }

  lemma {:induction false} ReadScriptExtends(s: Bytes, t: Bytes)
    requires ReadScript(s).Got?
    ensures ReadScript(s + t) == Got(ReadScript(s).value, ReadScript(s).rest + t)
  {
    hide ReadScript;
    ScriptExtends();
    assert ExtendsAt(ReadScript, s, t);
  }

  lemma {:induction false} InputExtendsAt(s: Bytes, t: Bytes)
    requires ReadInput(s).Got?
    ensures ReadInput(s + t) == Got(ReadInput(s).value, ReadInput(s).rest + t)
  {
    hide Take, ReadUint32, ReadScript;
    var previous := Take(32, s);
    TakeExtends(32, s, t);
    var vout := ReadUint32(previous.rest);
    Uint32Extends(previous.rest, t);
    var script := ReadScript(vout.rest);
    ReadScriptExtends(vout.rest, t);
    Uint32Extends(script.rest, t);
  }

  lemma {:induction false} OutputExtends()
    ensures Extends(ReadOutput)
  {
    hide ReadInt64, ReadScript;
    forall s, t ensures ExtendsAt(ReadOutput, s, t) {
      if ReadOutput(s).Got? {
        Int64Extends(s, t);
        ReadScriptExtends(ReadInt64(s).rest, t);
      }
    }
  }

  lemma {:induction false} TransactionExtends()
    ensures Extends(ReadTransaction)
  {
    forall s, t ensures ExtendsAt(ReadTransaction, s, t) {
      if ReadTransaction(s).Got? { TransactionExtendsAt(s, t); }
    }
  }

  lemma {:induction false} TransactionExtendsAt(s: Bytes, t: Bytes)
    requires ReadTransaction(s).Got?
    ensures ReadTransaction(s + t) == Got(ReadTransaction(s).value, ReadTransaction(s).rest + t)
  {
    hide ReadInt32, ReadUint32, ReadList, ReadInput, ReadOutput, Extends;
    InputExtends();
    OutputExtends();
    var version := ReadInt32(s);
    Int32Extends(s, t);
    var inputs := ReadList(version.rest, ReadInput);
    ListExtends(version.rest, t, ReadInput);
    var outputs := ReadList(inputs.rest, ReadOutput);
    ListExtends(inputs.rest, t, ReadOutput);
    Uint32Extends(outputs.rest, t);
  }

  lemma {:induction false} HeaderExtends(s: Bytes, t: Bytes)
    requires ReadHeader(s).Got?
    ensures ReadHeader(s + t) == Got(ReadHeader(s).value, ReadHeader(s).rest + t)
  {
    hide ReadInt32, ReadUint32, Take;
    var version := ReadInt32(s);
    Int32Extends(s, t);
    var previous := Take(32, version.rest);
    TakeExtends(32, version.rest, t);
    var merkleRoot := Take(32, previous.rest);
    TakeExtends(32, previous.rest, t);
    var time := ReadUint32(merkleRoot.rest);
    Uint32Extends(merkleRoot.rest, t);
    var bits := ReadUint32(time.rest);
    Uint32Extends(time.rest, t);
    Uint32Extends(bits.rest, t);
  }

  lemma {:induction false} HashExtends()
    ensures Extends(ReadHash)
  {
    hide Take;
    forall s, t ensures ExtendsAt(ReadHash, s, t) {
      if ReadHash(s).Got? { TakeExtends(32, s, t); }
    }
  }

  lemma {:induction false} ParentInputExtends()
    ensures Extends(ReadParentInput)
  {
    hide Take, ReadScript;
    forall s, t ensures ExtendsAt(ReadParentInput, s, t) {
      if ReadParentInput(s).Got? {
        var outpoint := Take(36, s);
        TakeExtends(36, s, t);
        var script := ReadScript(outpoint.rest);
        ReadScriptExtends(outpoint.rest, t);
        TakeExtends(4, script.rest, t);
      }
    }
  }

  lemma {:induction false} ParentOutputExtends()
    ensures Extends(ReadParentOutput)
  {
    hide Take, ReadScript;
    forall s, t ensures ExtendsAt(ReadParentOutput, s, t) {
      if ReadParentOutput(s).Got? {
        TakeExtends(8, s, t);
        ReadScriptExtends(Take(8, s).rest, t);
      }
    }
  }

  lemma {:induction false} WitnessExtends()
    ensures Extends(ReadWitness)
  {
    hide ReadScript, ReadList, Extends;
    ScriptExtends();
    forall s, t ensures ExtendsAt(ReadWitness, s, t) {
      if ReadWitness(s).Got? { ListExtends(s, t, ReadScript); }
    }
    AllExtend(ReadWitness);
  }

  lemma {:induction false} AllExtend<T>(one: Bytes -> Read<T>)
    requires forall s, t :: ExtendsAt(one, s, t)
    ensures Extends(one)
  {}

  lemma {:induction false} ParentBodyExtends(version: Bytes, count: nat, extended: bool, s: Bytes, t: Bytes)
    requires ReadParentBody(version, count, extended, s).Got?
    ensures ReadParentBody(version, count, extended, s + t)
            == Got(ReadParentBody(version, count, extended, s).value,
              ReadParentBody(version, count, extended, s).rest + t)
  {
    hide ReadMany, ReadList, Take, ReadParentInput, ReadParentOutput, ReadWitness, Extends;
    ParentInputExtends();
    ParentOutputExtends();
    WitnessExtends();
    var inputs := ReadMany(count, s, ReadParentInput);
    ManyExtends(count, s, t, ReadParentInput);
    var outputs := ReadList(inputs.rest, ReadParentOutput);
    ListExtends(inputs.rest, t, ReadParentOutput);
    if extended {
      var witnesses := ReadMany(count, outputs.rest, ReadWitness);
      ManyExtends(count, outputs.rest, t, ReadWitness);
      TakeExtends(4, witnesses.rest, t);
    } else {
      TakeExtends(4, outputs.rest, t);
    }
  }

  lemma {:induction false} ParentExtends(s: Bytes, t: Bytes)
    requires ReadParent(s).Got?
    ensures ReadParent(s + t) == Got(ReadParent(s).value, ReadParent(s).rest + t)
  {
    hide ReadCompact, Take, ReadParentBody;
    var version := Take(4, s);
    TakeExtends(4, s, t);
    var count := ReadCompact(version.rest);
    CompactExtends(version.rest, t);
    if count.value == 0 {
      var flag := Take(1, count.rest);
      TakeExtends(1, count.rest, t);
      if flag.value[0] == 1 {
        var inner := ReadCompact(flag.rest);
        CompactExtends(flag.rest, t);
        ParentBodyExtends(version.value, inner.value, true, inner.rest, t);
      } else {
        ParentBodyExtends(version.value, 0, false, count.rest, t);
      }
    } else {
      ParentBodyExtends(version.value, count.value, false, count.rest, t);
    }
  }

  lemma {:induction false} AuxPowExtends(s: Bytes, t: Bytes)
    requires ReadAuxPow(s).Got?
    ensures ReadAuxPow(s + t) == Got(ReadAuxPow(s).value, ReadAuxPow(s).rest + t)
  {
    hide ReadParent, ReadList, Take, ReadHash, Extends;
    HashExtends();
    var coinbase := ReadParent(s);
    ParentExtends(s, t);
    var blockHash := Take(32, coinbase.rest);
    TakeExtends(32, coinbase.rest, t);
    var branch := ReadList(blockHash.rest, ReadHash);
    ListExtends(blockHash.rest, t, ReadHash);
    var index := Take(4, branch.rest);
    TakeExtends(4, branch.rest, t);
    var chainBranch := ReadList(index.rest, ReadHash);
    ListExtends(index.rest, t, ReadHash);
    var chainIndex := Take(4, chainBranch.rest);
    TakeExtends(4, chainBranch.rest, t);
    TakeExtends(80, chainIndex.rest, t);
  }

  lemma {:induction false} BlockExtends(s: Bytes, t: Bytes)
    requires ReadBlock(s).Got?
    ensures ReadBlock(s + t) == Got(ReadBlock(s).value, ReadBlock(s).rest + t)
  {
    hide ReadHeader, ReadAuxPow, ReadList, ReadTransaction, IsAuxPowVersion, Extends;
    TransactionExtends();
    var header := ReadHeader(s);
    HeaderExtends(s, t);
    if IsAuxPowVersion(header.value.version) { AuxPowExtends(header.rest, t); }
    var auxpow := ReadOptionalAuxPow(header.value.version, header.rest);
    ListExtends(auxpow.rest, t, ReadTransaction);
  }

  /** A whole payload: a block and nothing after it. */
  function ReadPayload(s: Bytes): Option<RawBlock> {
    var r := ReadBlock(s);
    if r.Got? && r.rest == [] then Some(r.value) else None
  }

  /** The bytes of a block decode to it; any proper beginning of them, and anything longer, is refused. */
  lemma {:induction false} OnlyWholeBlocksDecode(b: RawBlock, extra: Bytes, n: nat)
    requires ValidBlock(b) && extra != [] && n < |WriteBlock(b, [])|
    ensures ReadPayload(WriteBlock(b, [])) == Some(b)
    ensures ReadPayload(WriteBlock(b, []) + extra) == None
    ensures ReadBlock(WriteBlock(b, [])[..n]) == Short
  {
    hide ReadBlock, WriteBlock, ValidBlock;
    var s := WriteBlock(b, []);
    BlockBack(b, []);
    BlockExtends(s, extra);
    assert [] + extra == extra;
    assert s[..n] + s[n..] == s && s[n..] != [];
    if ReadBlock(s[..n]).Got? {
      BlockExtends(s[..n], s[n..]);
    }
  }
}
