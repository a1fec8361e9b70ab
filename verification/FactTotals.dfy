/** Grouping a block by transaction neither loses nor counts twice any of its value. */
module FactTotals {
  import opened Chain
  import opened Projection

  // ---------------------------------------------------------------- totals over the facts

  function GrossTotal(facts: seq<Fact>): int {
    if facts == [] then 0 else GrossTotal(facts[..|facts| - 1]) + facts[|facts| - 1].grossOutput
  }

  function OutputTotal(facts: seq<Fact>): int {
    if facts == [] then 0 else OutputTotal(facts[..|facts| - 1]) + facts[|facts| - 1].outputCount
  }

  function InputTotal(facts: seq<Fact>): int {
    if facts == [] then 0 else InputTotal(facts[..|facts| - 1]) + facts[|facts| - 1].totalInput
  }

  function SpendTotal(facts: seq<Fact>): int {
    if facts == [] then 0 else SpendTotal(facts[..|facts| - 1]) + facts[|facts| - 1].inputCount
  }

  // ---------------------------------------------------------------- outputs

  predicate DistinctIds(ids: seq<string>) {
    forall i, j :: 0 <= i < j < |ids| ==> ids[i] != ids[j]
  }

  /** What the outputs with one of these transaction ids are worth, and how many they are. */
  function ValueIn(creates: seq<Output>, ids: set<string>): int {
    if creates == [] then 0 else (if creates[0].txid in ids then creates[0].value else 0) + ValueIn(creates[1..], ids)
  }

  function CountIn(creates: seq<Output>, ids: set<string>): int {
    if creates == [] then 0 else (if creates[0].txid in ids then 1 else 0) + CountIn(creates[1..], ids)
  }

  lemma {:induction false} OneMoreId(creates: seq<Output>, ids: set<string>, id: string)
    requires id !in ids
    ensures ValueIn(creates, ids + {id}) == ValueIn(creates, ids) + SumValues(OutputsOfTx(creates, id))
    ensures CountIn(creates, ids + {id}) == CountIn(creates, ids) + |OutputsOfTx(creates, id)|
  {
    if creates != [] {
      OneMoreId(creates[1..], ids, id);
      var rest := OutputsOfTx(creates[1..], id);
      assert creates[0].txid == id ==> ([creates[0]] + rest)[1..] == rest;
      assert [] + rest == rest;
    }
  }

  lemma {:induction false} NoIds(creates: seq<Output>)
    ensures ValueIn(creates, {}) == 0 && CountIn(creates, {}) == 0
  {
    if creates != [] {
      NoIds(creates[1..]);
    }
  }

  lemma {:induction false} AllIds(creates: seq<Output>, ids: set<string>)
    requires forall o <- creates :: o.txid in ids
    ensures ValueIn(creates, ids) == SumValues(creates) && CountIn(creates, ids) == |creates|
  {
    if creates != [] {
      AllIds(creates[1..], ids);
    }
  }

  lemma {:induction false} EveryTxidCreates(creates: seq<Output>)
    ensures forall o <- creates :: o.txid in CreatingTxids(creates)
  {
    if creates != [] {
      var n := |creates| - 1;
      EveryTxidCreates(creates[..n]);
      forall o | o in creates ensures o.txid in CreatingTxids(creates) {
        assert o == creates[n] || o in creates[..n];
      }
    }
  }

  /** The facts of some transactions of a block. */
  ghost predicate FactsFor(facts: seq<Fact>, b: Block, ids: seq<string>, look: Ledger) {
    && |facts| == |ids| && DistinctIds(ids)
    && forall i :: 0 <= i < |ids| ==>
         && facts[i].grossOutput == SumValues(OutputsOfTx(b.creates, ids[i]))
            && facts[i].outputCount == |OutputsOfTx(b.creates, ids[i])|
         && facts[i].totalInput == SpentValue(SpendsOfTx(b.spends, ids[i]), look)
            && facts[i].inputCount == |SpendsOfTx(b.spends, ids[i])|
  }

  lemma {:induction false} BlockFactsFor(b: Block, look: Ledger)
    ensures FactsFor(BlockFacts(b, look), b, CreatingTxids(b.creates), look)
  {
    var ids := CreatingTxids(b.creates);
    forall i | 0 <= i < |ids|
      ensures ids[i] in ids && BlockFacts(b, look)[i] == TransactionFact(b, ids[i], look)
    {
      assert ids[i] in ids;
    }
  }

  lemma {:induction false} FrontFactsFor(facts: seq<Fact>, b: Block, ids: seq<string>, look: Ledger)
    requires FactsFor(facts, b, ids, look) && ids != []
    ensures FactsFor(facts[..|facts| - 1], b, ids[..|ids| - 1], look)
    ensures ids[|ids| - 1] !in Members(ids[..|ids| - 1]) && Members(ids) == Members(ids[..|ids| - 1]) + {ids[|ids| - 1]}
  {
    assert ids == ids[..|ids| - 1] + [ids[|ids| - 1]];
  }

  function Members(ids: seq<string>): set<string> {
    set id | id in ids
  }

  lemma {:induction false} OutputTotals(facts: seq<Fact>, b: Block, ids: seq<string>, look: Ledger)
    requires FactsFor(facts, b, ids, look)
    ensures GrossTotal(facts) == ValueIn(b.creates, Members(ids))
            && OutputTotal(facts) == CountIn(b.creates, Members(ids))
  {
    if ids == [] {
      NoIds(b.creates);
      assert Members(ids) == {};
    } else {
      var n := |ids| - 1;
      FrontFactsFor(facts, b, ids, look);
      OutputTotals(facts[..n], b, ids[..n], look);
      OneMoreId(b.creates, Members(ids[..n]), ids[n]);
    }
  }

  // ---------------------------------------------------------------- spends

  function SpentIn(spends: seq<Spend>, ids: set<string>, look: Ledger): int {
    if spends == [] then 0 else
      (if spends[0].spender.txid in ids && spends[0].key in look then look[spends[0].key].value else 0)
        + SpentIn(spends[1..], ids, look)
  }

  function SpendsIn(spends: seq<Spend>, ids: set<string>): int {
    if spends == [] then 0 else (if spends[0].spender.txid in ids then 1 else 0) + SpendsIn(spends[1..], ids)
  }

  lemma {:induction false} OneMoreSpender(spends: seq<Spend>, ids: set<string>, id: string, look: Ledger)
    requires id !in ids
    ensures SpentIn(spends, ids + {id}, look) == SpentIn(spends, ids, look) + SpentValue(SpendsOfTx(spends, id), look)
    ensures SpendsIn(spends, ids + {id}) == SpendsIn(spends, ids) + |SpendsOfTx(spends, id)|
  {
    if spends != [] {
      OneMoreSpender(spends[1..], ids, id, look);
      var rest := SpendsOfTx(spends[1..], id);
      assert spends[0].spender.txid == id ==> ([spends[0]] + rest)[1..] == rest;
      assert [] + rest == rest;
    }
  }

  lemma {:induction false} NoSpenders(spends: seq<Spend>, look: Ledger)
    ensures SpentIn(spends, {}, look) == 0 && SpendsIn(spends, {}) == 0
  {
    if spends != [] {
      NoSpenders(spends[1..], look);
    }
  }

  lemma {:induction false} AllSpenders(spends: seq<Spend>, ids: set<string>, look: Ledger)
    requires forall s <- spends :: s.spender.txid in ids
    ensures SpentIn(spends, ids, look) == SpentValue(spends, look) && SpendsIn(spends, ids) == |spends|
  {
    if spends != [] {
      AllSpenders(spends[1..], ids, look);
    }
  }

  lemma {:induction false} SpendTotals(facts: seq<Fact>, b: Block, ids: seq<string>, look: Ledger)
    requires FactsFor(facts, b, ids, look)
    ensures InputTotal(facts) == SpentIn(b.spends, Members(ids), look)
            && SpendTotal(facts) == SpendsIn(b.spends, Members(ids))
  {
    if ids == [] {
      NoSpenders(b.spends, look);
      assert Members(ids) == {};
    } else {
      var n := |ids| - 1;
      FrontFactsFor(facts, b, ids, look);
      SpendTotals(facts[..n], b, ids[..n], look);
      OneMoreSpender(b.spends, Members(ids[..n]), ids[n], look);
    }
  }

  // ---------------------------------------------------------------- conservation

  /**
   * The facts of a block account for every output it creates, and for every spend exactly when each spending
   * transaction also creates an output: the grouping starts from outputs.
   */
  lemma {:induction false} FactsConserve(b: Block, look: Ledger)
    ensures var facts := BlockFacts(b, look);
            && GrossTotal(facts) == SumValues(b.creates) && OutputTotal(facts) == |b.creates|
            && (SpendTotal(facts) == |b.spends| <==>
               forall s <- b.spends :: exists o :: o in b.creates && o.txid == s.spender.txid)
            && ((forall s <- b.spends :: exists o :: o in b.creates && o.txid == s.spender.txid) ==>
               InputTotal(facts) == SpentValue(b.spends, look))
  {
    var facts, ids := BlockFacts(b, look), CreatingTxids(b.creates);
    hide BlockFacts, SumValues, SpentValue;
    BlockFactsFor(b, look);
    OutputTotals(facts, b, ids, look);
    SpendTotals(facts, b, ids, look);
    EveryTxidCreates(b.creates);
    AllIds(b.creates, Members(ids));
    if forall s <- b.spends :: exists o :: o in b.creates && o.txid == s.spender.txid {
      forall s | s in b.spends ensures s.spender.txid in Members(ids) {
        var o :| o in b.creates && o.txid == s.spender.txid;
      }
      AllSpenders(b.spends, Members(ids), look);
    } else {
      var s :| s in b.spends && forall o :: o in b.creates ==> o.txid != s.spender.txid;
      assert s.spender.txid !in ids;
      SomeSpenderMissing(b.spends, Members(ids), s);
    }
  }

  lemma {:induction false} SomeSpenderMissing(spends: seq<Spend>, ids: set<string>, s: Spend)
    requires s in spends && s.spender.txid !in ids
    ensures SpendsIn(spends, ids) < |spends|
  {
    if spends[0] == s {
      AtMostAll(spends[1..], ids);
    } else {
      SomeSpenderMissing(spends[1..], ids, s);
    }
  }

  lemma {:induction false} AtMostAll(spends: seq<Spend>, ids: set<string>)
    ensures SpendsIn(spends, ids) <= |spends|
  {
    if spends != [] {
      AtMostAll(spends[1..], ids);
    }
  }
}
