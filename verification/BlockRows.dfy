/** What the movement and fact rows of a block say, column by column, and which rows there are. */
module BlockRows {
  import opened Chain
  import opened Projection
  import opened FactTotals

  // ---------------------------------------------------------------- movements

  /** The row of a created output, under the output's own stamps. */
  predicate CreditsOutput(v: Movement, o: Output) {
    && v.direction.Credit? && v.id == CreditId(o.key) && v.key == o.key
    && v.height == o.height && v.blockHash == o.blockHash && v.time == o.time
    && v.txid == o.txid && v.txIndex == o.txIndex && v.entryIndex == o.vout
    && v.address == o.address && v.amount == o.value
  }

  /** The row of a spend, under the stamps of its block and named by the spender; its transaction index is not kept. */
  predicate DebitsSpend(v: Movement, b: Block, s: Spend) {
    && v.direction.Debit? && v.id == DebitId(s.key, s.spender.txid, s.spender.inputIndex) && v.key == s.key
    && v.height == b.height && v.blockHash == b.hash && v.time == b.time
    && v.txid == s.spender.txid && v.txIndex == 0 && v.entryIndex == s.spender.inputIndex
  }

  predicate Moves(o: Output) {
    o.isSpendable && |o.address| > 0
  }

  ghost predicate CreditOf(b: Block, v: Movement) {
    exists o :: o in b.creates && Moves(o) && CreditsOutput(v, o)
  }

  /** A debit takes from the owner of an output what that output is worth. */
  predicate TakesFrom(v: Movement, look: Ledger) {
    v.key in look && Moves(look[v.key]) && v.address == look[v.key].address && v.amount == look[v.key].value
  }

  ghost predicate DebitOf(b: Block, look: Ledger, v: Movement) {
    SomeDebit(b, v) && TakesFrom(v, look)
  }

  ghost predicate SomeDebit(b: Block, v: Movement) {
    exists s :: s in b.spends && DebitsSpend(v, b, s)
  }

  lemma {:induction false} MovementsFrom(b: Block, es: seq<Event>, look: Ledger, v: Movement)
    ensures v in MovementsFor(b, es, look) <==> exists e :: e in es && v in EventMovements(b, e, look)
  {
    if es != [] {
      MovementsFrom(b, es[1..], look, v);
      assert es[0] in es && forall e :: e in es[1..] ==> e in es;
      assert forall e :: e in es ==> e == es[0] || e in es[1..];
    }
  }

  /** A block's movements are the credits of the outputs it creates and the debits of the known outputs it spends. */
  lemma {:induction false} MovementsAre(b: Block, look: Ledger, v: Movement)
    ensures v in BlockMovements(b, look) <==> CreditOf(b, v) || DebitOf(b, look, v)
  {
    MovementsFrom(b, BlockEvents(b), look, v);
    if e :| e in BlockEvents(b) && v in EventMovements(b, e, look) {
      match e
      case Created(o) => assert o in b.creates && Moves(o) && CreditsOutput(v, o);
      case Consumed(s) => assert s in b.spends && DebitsSpend(v, b, s) && Moves(look[s.key]);
    }
    if o :| o in b.creates && Moves(o) && CreditsOutput(v, o) {
      var i :| 0 <= i < |b.creates| && b.creates[i] == o;
      assert BlockEvents(b)[i] == Created(o) && v in EventMovements(b, Created(o), look);
    }
    if DebitOf(b, look, v) {
      var s :| s in b.spends && DebitsSpend(v, b, s);
      var i :| 0 <= i < |b.spends| && b.spends[i] == s;
      assert BlockEvents(b)[|b.creates| + i] == Consumed(s) && v in EventMovements(b, Consumed(s), look);
    }
  }

  // ---------------------------------------------------------------- facts

  /** The transaction index is that of an output with the lowest number. */
  ghost predicate IndexOfFirst(f: Fact, b: Block) {
    exists o :: o in b.creates && o.txid == f.txid && f.txIndex == o.txIndex
      && forall p <- b.creates :: p.txid == f.txid ==> o.vout <= p.vout
  }

  /** What a fact says of its transaction, all but the total of its inputs; the fee is what is left of that. */
  ghost predicate Describes(f: Fact, b: Block) {
    && f.height == b.height && f.blockHash == b.hash && f.time == b.time && f.version == b.height
    && f.outputCount == CountIn(b.creates, {f.txid}) && f.grossOutput == ValueIn(b.creates, {f.txid})
    && f.inputCount == SpendsIn(b.spends, {f.txid}) && IndexOfFirst(f, b)
    && (f.isCoinbase <==> exists o :: o in b.creates && o.txid == f.txid && o.isCoinbase)
    && (f.fee.None? <==> f.isCoinbase || f.totalInput == 0)
    && (f.fee.Some? ==> f.fee.value + f.grossOutput == f.totalInput)
  }

  lemma {:induction false} OutputsAre(creates: seq<Output>, txid: string)
    ensures SumValues(OutputsOfTx(creates, txid)) == ValueIn(creates, {txid})
    ensures |OutputsOfTx(creates, txid)| == CountIn(creates, {txid})
  {
    NoIds(creates);
    OneMoreId(creates, {}, txid);
    assert {} + {txid} == {txid};
  }

  lemma {:induction false} OutputsFound(creates: seq<Output>, txid: string)
    ensures forall o :: o in OutputsOfTx(creates, txid) <==> o in creates && o.txid == txid
  {
    if creates != [] {
      OutputsFound(creates[1..], txid);
    }
  }

  lemma {:induction false} SpendsAre(spends: seq<Spend>, txid: string, look: Ledger)
    ensures SpentValue(SpendsOfTx(spends, txid), look) == SpentIn(spends, {txid}, look)
    ensures |SpendsOfTx(spends, txid)| == SpendsIn(spends, {txid})
  {
    NoSpenders(spends, look);
    OneMoreSpender(spends, {}, txid, look);
    assert {} + {txid} == {txid};
  }

  /** Each fact of a block describes a transaction that creates an output, with the inputs its lookup knows. */
  lemma {:induction false} FactSays(b: Block, look: Ledger, f: Fact)
    requires f in BlockFacts(b, look)
    ensures Describes(f, b) && f.totalInput == SpentIn(b.spends, {f.txid}, look)
  {
    var ids := CreatingTxids(b.creates);
    var i :| 0 <= i < |ids| && BlockFacts(b, look)[i] == f;
    assert ids[i] in ids && f == TransactionFact(b, ids[i], look);
    OutputsAre(b.creates, f.txid);
    OutputsFound(b.creates, f.txid);
    SpendsAre(b.spends, f.txid, look);
    var first := FirstByVout(OutputsOfTx(b.creates, f.txid));
    assert first in b.creates && first.txid == f.txid && f.txIndex == first.txIndex;
  }

  /** Every transaction that creates an output has its fact, and no two facts share a transaction. */
  lemma {:induction false} FactsCover(b: Block, look: Ledger)
    ensures forall o <- b.creates :: exists f :: f in BlockFacts(b, look) && f.txid == o.txid
    ensures forall i, j :: 0 <= i < j < |BlockFacts(b, look)| ==>
            BlockFacts(b, look)[i].txid != BlockFacts(b, look)[j].txid
  {
    EveryTxidCreates(b.creates);
    forall o | o in b.creates ensures exists f :: f in BlockFacts(b, look) && f.txid == o.txid {
      var i :| 0 <= i < |CreatingTxids(b.creates)| && CreatingTxids(b.creates)[i] == o.txid;
      assert BlockFacts(b, look)[i].txid == o.txid;
    }
  }
}
