/** Bytes written in front of others: what a structure is written as does not depend on what follows it. */
module WireFront {
  import opened Wire

  lemma {:induction false} Uint32Front(v: uint32, t: Bytes, u: Bytes)
    ensures WriteUint32(v, t + u) == WriteUint32(v, t) + u
  {}

  lemma {:induction false} CompactFront(v: uint32, t: Bytes, u: Bytes)
    ensures WriteCompact(v, t + u) == WriteCompact(v, t) + u
  {
    hide CompactBytes;
  }

  lemma {:induction false} ScriptFront(script: Bytes, t: Bytes, u: Bytes)
    requires |script| < LIMIT32
    ensures WriteScript(script, t + u) == WriteScript(script, t) + u
  {
    hide WriteCompact;
    assert script + (t + u) == (script + t) + u;
    CompactFront(|script|, script + t, u);
  }

  lemma {:induction false} InputFront(i: TxInput, t: Bytes, u: Bytes)
    requires ValidInput(i)
    ensures WriteInput(i, t + u) == WriteInput(i, t) + u
  {
    hide WriteUint32, WriteScript;
    Uint32Front(i.sequence, t, u);
    ScriptFront(i.script, WriteUint32(i.sequence, t), u);
    Uint32Front(i.vout, WriteScript(i.script, WriteUint32(i.sequence, t)), u);
  }

  lemma {:induction false} InputsFront(inputs: seq<TxInput>, t: Bytes, u: Bytes)
    requires forall i <- inputs :: ValidInput(i)
    ensures WriteInputs(inputs, t + u) == WriteInputs(inputs, t) + u
  {
    hide WriteInput, ValidInput;
    if inputs != [] {
      InputsFront(inputs[1..], t, u);
      InputFront(inputs[0], WriteInputs(inputs[1..], t), u);
    }
  }

  lemma {:induction false} OutputFront(o: TxOutput, t: Bytes, u: Bytes)
    requires ValidOutput(o)
    ensures WriteOutput(o, t + u) == WriteOutput(o, t) + u
  {
    hide WriteUint32, WriteScript;
    ScriptFront(o.script, t, u);
    Uint32Front(ToUnsigned(o.value / 0x1_0000_0000), WriteScript(o.script, t), u);
    Uint32Front(o.value % 0x1_0000_0000, WriteUint32(ToUnsigned(o.value / 0x1_0000_0000), WriteScript(o.script, t)), u);
  }

  lemma {:induction false} OutputsFront(outputs: seq<TxOutput>, t: Bytes, u: Bytes)
    requires forall o <- outputs :: ValidOutput(o)
    ensures WriteOutputs(outputs, t + u) == WriteOutputs(outputs, t) + u
  {
    hide WriteOutput, ValidOutput;
    if outputs != [] {
      OutputsFront(outputs[1..], t, u);
      OutputFront(outputs[0], WriteOutputs(outputs[1..], t), u);
    }
  }

  lemma {:induction false} TransactionFront(x: Transaction, t: Bytes, u: Bytes)
    requires ValidTransaction(x)
    ensures WriteTransaction(x, t + u) == WriteTransaction(x, t) + u
  {
    hide WriteUint32, WriteCompact, WriteInputs, WriteOutputs, ToUnsigned;
    var end := WriteUint32(x.locktime, t);
    Uint32Front(x.locktime, t, u);
    var outs := WriteOutputs(x.outputs, end);
    OutputsFront(x.outputs, end, u);
    var outCount := WriteCompact(|x.outputs|, outs);
    CompactFront(|x.outputs|, outs, u);
    var ins := WriteInputs(x.inputs, outCount);
    InputsFront(x.inputs, outCount, u);
    CompactFront(|x.inputs|, ins, u);
    Uint32Front(ToUnsigned(x.version), WriteCompact(|x.inputs|, ins), u);
  }

  lemma {:induction false} HeaderFront(h: Header, t: Bytes)
    requires ValidHeader(h)
    ensures WriteHeader(h, t) == WriteHeader(h, []) + t && |WriteHeader(h, [])| == 80
  {
    hide Uint32Bytes;
    assert WriteUint32(h.nonce, t) == WriteUint32(h.nonce, []) + t;
    assert WriteUint32(h.bits, WriteUint32(h.nonce, t)) == WriteUint32(h.bits, WriteUint32(h.nonce, [])) + t;
    assert WriteUint32(h.time, WriteUint32(h.bits, WriteUint32(h.nonce, t))) ==
           WriteUint32(h.time, WriteUint32(h.bits, WriteUint32(h.nonce, []))) + t;
  }
}
