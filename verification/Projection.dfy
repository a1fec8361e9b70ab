/** What a block adds to the address movements and to the transaction facts. */
module Projection {
  import opened Chain
  import opened Balances

  datatype MovementId = CreditId(key: OutputKey) | DebitId(key: OutputKey, txid: string, inputIndex: nat)

  datatype Direction = Credit | Debit

  datatype Movement = Movement(
    id: MovementId, height: nat, blockHash: Hash, time: nat, txid: string, txIndex: nat, entryIndex: nat,
    address: Address, direction: Direction, amount: int, key: OutputKey)

  datatype Fact = Fact(
    height: nat, blockHash: Hash, time: nat, txid: string, txIndex: nat, isCoinbase: bool,
    inputCount: nat, outputCount: nat, totalInput: int, grossOutput: int, fee: Option<int>, version: nat)

  // ---------------------------------------------------------------- movements

  /** The movement of one event of block b: none when the output is unknown or carries no balance. */
  function EventMovements(b: Block, e: Event, look: Ledger): seq<Movement> {
    match e
    case Created(o) =>
      if !AffectsBalance(o) then [] else
        [Movement(CreditId(o.key), o.height, o.blockHash, o.time, o.txid, o.txIndex, o.vout, o.address, Credit, o.value,
          o.key)]
    case Consumed(s) =>
      if s.key !in look || !AffectsBalance(look[s.key]) then [] else
        [Movement(DebitId(s.key, s.spender.txid, s.spender.inputIndex), b.height, b.hash, b.time, s.spender.txid, 0,
                  s.spender.inputIndex, look[s.key].address, Debit, look[s.key].value, s.key)]
  }

  function MovementsFor(b: Block, es: seq<Event>, look: Ledger): seq<Movement> {
    if es == [] then [] else EventMovements(b, es[0], look) + MovementsFor(b, es[1..], look)
  }

  /** Credits of the creates, then debits of the spends. */
  function BlockMovements(b: Block, look: Ledger): seq<Movement> {
    MovementsFor(b, BlockEvents(b), look)
  }

  /** Credits minus debits of one address. */
  function Net(movements: seq<Movement>, a: Address): int {
    if movements == [] then 0 else
      var last := movements[|movements| - 1];
      Net(movements[..|movements| - 1], a)
      + (if last.address != a then 0 else if last.direction.Credit? then last.amount else -last.amount)
  }

  lemma {:induction false} NetConcat(x: seq<Movement>, y: seq<Movement>, a: Address)
    ensures Net(x + y, a) == Net(x, a) + Net(y, a)
  {
    if y == [] {
      assert x + y == x;
    } else {
      var front := y[..|y| - 1];
      assert (x + y)[..|x + y| - 1] == x + front;
      NetConcat(x, front, a);
    }
  }

  // ---------------------------------------------------------------- transaction facts

  function OutputsOfTx(creates: seq<Output>, txid: string): seq<Output> {
    if creates == [] then [] else
      (if creates[0].txid == txid then [creates[0]] else []) + OutputsOfTx(creates[1..], txid)
  }

  function SpendsOfTx(spends: seq<Spend>, txid: string): seq<Spend> {
    if spends == [] then [] else
      (if spends[0].spender.txid == txid then [spends[0]] else []) + SpendsOfTx(spends[1..], txid)
  }

  /** Transaction ids in order of their first output, as the grouping map iterates them. */
  function CreatingTxids(creates: seq<Output>): (ids: seq<string>)
    ensures forall id <- ids :: exists o :: o in creates && o.txid == id
    ensures forall i, j :: 0 <= i < j < |ids| ==> ids[i] != ids[j]
  {
    if creates == [] then [] else
      var rest := CreatingTxids(creates[..|creates| - 1]);
      var last := creates[|creates| - 1];
      if last.txid in rest then rest else rest + [last.txid]
  }

  /** The first output of the stable sort by vout. */
  function FirstByVout(outputs: seq<Output>): (o: Output)
    requires outputs != []
    ensures o in outputs && forall p <- outputs :: o.vout <= p.vout
  {
    if |outputs| == 1 then outputs[0] else
      var first := FirstByVout(outputs[..|outputs| - 1]);
      if outputs[|outputs| - 1].vout < first.vout then outputs[|outputs| - 1] else first
  }

  function SumValues(outputs: seq<Output>): int {
    if outputs == [] then 0 else outputs[0].value + SumValues(outputs[1..])
  }

  function SpentValue(spends: seq<Spend>, look: Ledger): int {
    if spends == [] then 0 else
      (if spends[0].key in look then look[spends[0].key].value else 0) + SpentValue(spends[1..], look)
  }

  lemma {:induction false} CreatesItsTxid(creates: seq<Output>, o: Output)
    requires o in creates
    ensures OutputsOfTx(creates, o.txid) != []
  {
    if creates[0] != o {
      CreatesItsTxid(creates[1..], o);
    }
  }

  function TransactionFact(b: Block, txid: string, look: Ledger): Fact
    requires exists o :: o in b.creates && o.txid == txid
  {
    var outputs, spends := OutputsOfTx(b.creates, txid), SpendsOfTx(b.spends, txid);
    var input, gross := SpentValue(spends, look), SumValues(outputs);
    var coinbase := exists o <- outputs :: o.isCoinbase;
    var o :| o in b.creates && o.txid == txid;
    assert outputs != [] by { CreatesItsTxid(b.creates, o); }
    Fact(b.height, b.hash, b.time, txid, FirstByVout(outputs).txIndex, coinbase, |spends|, |outputs|,
         input, gross, if coinbase || input == 0 then None else Some(input - gross), b.height)
  }

  function BlockFacts(b: Block, look: Ledger): (facts: seq<Fact>)
    ensures |facts| == |CreatingTxids(b.creates)|
    ensures forall i :: 0 <= i < |facts| ==>
              facts[i].txid == CreatingTxids(b.creates)[i] && facts[i].height == b.height
  {
    var ids := CreatingTxids(b.creates);
    seq(|ids|, i requires 0 <= i < |ids| => assert ids[i] in ids; TransactionFact(b, ids[i], look))
  }

  // ---------------------------------------------------------------- what lookups may differ in

  /** Two lookups agree on the terms of every output a block spends. */
  predicate SameTerms(spends: seq<Spend>, x: Ledger, y: Ledger) {
    forall s <- spends :: s.key in x && s.key in y && Terms(x[s.key]) == Terms(y[s.key])
  }

  lemma {:induction false} MovementsNeedTermsOnly(b: Block, es: seq<Event>, x: Ledger, y: Ledger)
    requires forall s :: Consumed(s) in es ==> s.key in x && s.key in y && Terms(x[s.key]) == Terms(y[s.key])
    ensures MovementsFor(b, es, x) == MovementsFor(b, es, y)
  {
    if es != [] {
      assert es[0] in es;
      assert forall s :: Consumed(s) in es[1..] ==> Consumed(s) in es;
      MovementsNeedTermsOnly(b, es[1..], x, y);
      match es[0]
      case Created(_) =>
      case Consumed(s) =>
        assert x[s.key] == Terms(x[s.key]).(spent := x[s.key].spent);
        assert y[s.key] == Terms(y[s.key]).(spent := y[s.key].spent);
    }
  }

  lemma {:induction false} SpentValueNeedsTermsOnly(spends: seq<Spend>, x: Ledger, y: Ledger)
    requires SameTerms(spends, x, y)
    ensures SpentValue(spends, x) == SpentValue(spends, y)
  {
    if spends != [] {
      SpentValueNeedsTermsOnly(spends[1..], x, y);
      var k := spends[0].key;
      assert x[k].value == Terms(x[k]).value && y[k].value == Terms(y[k]).value;
    }
  }

  lemma {:induction false} SpendsOfTxAreSpends(spends: seq<Spend>, txid: string)
    ensures forall s <- SpendsOfTx(spends, txid) :: s in spends
  {
    if spends != [] {
      SpendsOfTxAreSpends(spends[1..], txid);
    }
  }

  /** Movements and facts of a block depend on its prevouts only through their terms. */
  lemma {:induction false} EffectsNeedTermsOnly(b: Block, x: Ledger, y: Ledger)
    requires SameTerms(b.spends, x, y)
    ensures BlockMovements(b, x) == BlockMovements(b, y)
    ensures BlockFacts(b, x) == BlockFacts(b, y)
  {
    MovementsNeedTermsOnly(b, BlockEvents(b), x, y);
    var ids := CreatingTxids(b.creates);
    forall i | 0 <= i < |ids| ensures BlockFacts(b, x)[i] == BlockFacts(b, y)[i] {
      assert ids[i] in ids;
      SpendsOfTxAreSpends(b.spends, ids[i]);
      SpentValueNeedsTermsOnly(SpendsOfTx(b.spends, ids[i]), x, y);
    }
  }

  // ---------------------------------------------------------------- whole chains

  /** What a block was applied with: all its prevouts, only some of them, or rows that may be wrong. */
  datatype Lookup = Whole | Only(rows: Ledger) | Unsure(rows: Ledger)

  /** By height; a block without an entry was applied with all its prevouts. */
  type Lookups = map<nat, Lookup>

  function LookAt(looks: Lookups, h: nat, m: Ledger): Ledger {
    if h in looks && !looks[h].Whole? then looks[h].rows else m
  }

  function MovementsOf(chain: seq<Block>, looks: Lookups := map[]): seq<Movement> {
    if chain == [] then [] else
      var n := |chain| - 1;
      MovementsOf(chain[..n], looks) + BlockMovements(chain[n], LookAt(looks, n, LedgerOf(chain)))
  }

  function FactsOf(chain: seq<Block>, looks: Lookups := map[]): seq<Fact> {
    if chain == [] then [] else
      var n := |chain| - 1;
      FactsOf(chain[..n], looks) + BlockFacts(chain[n], LookAt(looks, n, LedgerOf(chain)))
  }

  lemma {:induction false} MovementHeights(b: Block, es: seq<Event>, look: Ledger)
    requires forall o :: Created(o) in es ==> o.height == b.height
    ensures forall v <- MovementsFor(b, es, look) :: v.height == b.height
  {
    if es != [] {
      assert es[0] in es;
      assert forall o :: Created(o) in es[1..] ==> Created(o) in es;
      MovementHeights(b, es[1..], look);
    }
  }
}
