/** Blocks of a UTXO chain, the events they carry, and the ledger those events lead to. */
module Chain {

  datatype Option<+T> = None | Some(value: T)

  type OutputKey = string
  type Address = string
  type Hash = string

  /** Who consumed an output: the three nullable spent columns, which are always written together. */
  datatype Spender = Spender(txid: string, height: nat, inputIndex: nat)

  datatype Output = Output(
    key: OutputKey, height: nat, blockHash: Hash, time: nat, txid: string, txIndex: nat, vout: nat,
    address: Address, scriptType: string, value: int, isCoinbase: bool, isSpendable: bool,
    spent: Option<Spender>)

  datatype Spend = Spend(key: OutputKey, spender: Spender)

  datatype Block = Block(
    height: nat, hash: Hash, previous: Option<Hash>, time: nat,
    creates: seq<Output>, spends: seq<Spend>)

  /** A block is a list of creates followed by a list of spends. */
  datatype Event = Created(output: Output) | Consumed(spend: Spend)

  type Ledger = map<OutputKey, Output>

  function EventHeight(e: Event): nat {
    match e
    case Created(o) => o.height
    case Consumed(s) => s.spender.height
  }

  function CreateEvents(creates: seq<Output>): (es: seq<Event>)
    ensures |es| == |creates|
    ensures forall i :: 0 <= i < |es| ==> es[i] == Created(creates[i])
  {
    seq(|creates|, i requires 0 <= i < |creates| => Created(creates[i]))
  }

  function SpendEvents(spends: seq<Spend>): (es: seq<Event>)
    ensures |es| == |spends|
    ensures forall i :: 0 <= i < |es| ==> es[i] == Consumed(spends[i])
  {
    seq(|spends|, i requires 0 <= i < |spends| => Consumed(spends[i]))
  }

  function BlockEvents(b: Block): seq<Event> {
    CreateEvents(b.creates) + SpendEvents(b.spends)
  }

  function Events(blocks: seq<Block>): seq<Event> {
    if blocks == [] then [] else Events(blocks[..|blocks| - 1]) + BlockEvents(blocks[|blocks| - 1])
  }

  /** Applies one event; a spend of an unknown key leaves the ledger alone. */
  function Step(m: Ledger, e: Event): Ledger {
    match e
    case Created(o) => m[o.key := o]
    case Consumed(s) => if s.key in m then m[s.key := m[s.key].(spent := Some(s.spender))] else m
  }

  function Run(m: Ledger, es: seq<Event>): Ledger
    decreases es
  {
    if es == [] then m else Run(Step(m, es[0]), es[1..])
  }

  /** Keys are fresh, an output is spent at most once and never before it exists. */
  predicate ValidEvent(m: Ledger, e: Event) {
    match e
    case Created(o) => o.key !in m && o.spent.None? && o.value >= 0
    case Consumed(s) => s.key in m && m[s.key].spent.None?
  }

  predicate ValidEvents(m: Ledger, es: seq<Event>)
    decreases es
  {
    es == [] || (ValidEvent(m, es[0]) && ValidEvents(Step(m, es[0]), es[1..]))
  }

  /** Every row of a block carries the block's own height and hash. */
  predicate WellStamped(b: Block) {
    && (forall o <- b.creates :: o.height == b.height && o.blockHash == b.hash && o.time == b.time)
    && (forall s <- b.spends :: s.spender.height == b.height)
  }

  function LedgerOf(chain: seq<Block>): Ledger {
    Run(map[], Events(chain))
  }

  function TxidsOf(b: Block): set<string> {
    set o | o in b.creates :: o.txid
  }

  /** No transaction id creates outputs in two different blocks. */
  predicate FreshTxids(chain: seq<Block>) {
    forall i, j :: 0 <= i < j < |chain| ==> TxidsOf(chain[i]) !! TxidsOf(chain[j])
  }

  /** Block i has height i, and its rows carry its stamps. */
  predicate Stamped(chain: seq<Block>) {
    forall i :: 0 <= i < |chain| ==> chain[i].height == i && WellStamped(chain[i])
  }

  predicate Linked(chain: seq<Block>) {
    forall i :: 0 < i < |chain| ==> chain[i].previous == Some(chain[i - 1].hash)
  }

  /** A chain the node would serve: stamped, linked, and every event valid on the ledger before it. */
  predicate ValidChain(chain: seq<Block>) {
    Stamped(chain) && Linked(chain) && FreshTxids(chain) && ValidEvents(map[], Events(chain))
  }

  // ---------------------------------------------------------------- runs

  lemma {:induction false} RunConcat(m: Ledger, a: seq<Event>, b: seq<Event>)
    ensures Run(m, a + b) == Run(Run(m, a), b)
    ensures ValidEvents(m, a + b) <==> ValidEvents(m, a) && ValidEvents(Run(m, a), b)
    decreases a
  {
    if a == [] {
      assert a + b == b;
    } else {
      assert (a + b)[0] == a[0] && (a + b)[1..] == a[1..] + b;
      RunConcat(Step(m, a[0]), a[1..], b);
    }
  }

  lemma {:induction false} EventsConcat(a: seq<Block>, b: seq<Block>)
    ensures Events(a + b) == Events(a) + Events(b)
  {
    if b == [] {
      assert a + b == a;
    } else {
      var front, last := b[..|b| - 1], b[|b| - 1];
      assert (a + b)[..|a + b| - 1] == a + front && (a + b)[|a + b| - 1] == last;
      EventsConcat(a, front);
      calc {
        Events(a + b);
        Events(a + front) + BlockEvents(last);
        (Events(a) + Events(front)) + BlockEvents(last);
        Events(a) + (Events(front) + BlockEvents(last));
      }
    }
  }

  /** The ledger of a longer chain is the ledger of its prefix run forward. */
  lemma {:induction false} LedgerConcat(a: seq<Block>, b: seq<Block>)
    ensures LedgerOf(a + b) == Run(LedgerOf(a), Events(b))
    ensures ValidEvents(map[], Events(a + b)) <==>
            ValidEvents(map[], Events(a)) && ValidEvents(LedgerOf(a), Events(b))
  {
    EventsConcat(a, b);
    RunConcat(map[], Events(a), Events(b));
  }

  lemma {:induction false} SingleBlockEvents(b: Block)
    ensures Events([b]) == BlockEvents(b)
  {
    assert [b][..0] == [];
    assert Events([]) + BlockEvents(b) == BlockEvents(b);
  }

  lemma {:induction false} FreshPrefix(chain: seq<Block>, n: nat)
    requires FreshTxids(chain) && n <= |chain|
    ensures FreshTxids(chain[..n])
  {}

  lemma {:induction false} ValidPrefix(chain: seq<Block>, n: nat)
    requires ValidChain(chain) && n <= |chain|
    ensures ValidChain(chain[..n])
  {
    var front := chain[..n];
    assert chain == front + chain[n..];
    assert Stamped(front) && Linked(front);
    FreshPrefix(chain, n);
    hide Stamped, Linked, FreshTxids, WellStamped, ValidEvents;
    LedgerConcat(front, chain[n..]);
  }

  /** What identifies an output for movements: everything but its spent columns. */
  function Terms(o: Output): Output {
    o.(spent := None)
  }

  /** Running valid events keeps every key, changes no terms and never un-spends. */
  lemma {:induction false} RunKeepsTerms(m: Ledger, es: seq<Event>, k: OutputKey)
    requires ValidEvents(m, es) && k in m
    ensures k in Run(m, es) && Terms(Run(m, es)[k]) == Terms(m[k])
    ensures m[k].spent.Some? ==> Run(m, es)[k] == m[k]
    decreases es
  {
    if es != [] {
      RunKeepsTerms(Step(m, es[0]), es[1..], k);
    }
  }

  // ---------------------------------------------------------------- rewinding

  /** Forgets everything that happened at or above a height. */
  function RewindOutput(o: Output, from: nat): Option<Output> {
    if o.height >= from then None
    else if o.spent.Some? && o.spent.value.height >= from then Some(o.(spent := None))
    else Some(o)
  }

  /** Everything in the ledger happened below a height. */
  predicate Below(m: Ledger, h: nat) {
    forall k :: k in m ==> m[k].height < h && (m[k].spent.Some? ==> m[k].spent.value.height < h)
  }

  predicate AtOrAbove(es: seq<Event>, h: nat) {
    forall e <- es :: EventHeight(e) >= h
  }

  lemma {:induction false} EventHeights(blocks: seq<Block>, lo: nat, hi: nat)
    requires forall b <- blocks :: WellStamped(b) && lo <= b.height < hi
    ensures forall e <- Events(blocks) :: lo <= EventHeight(e) < hi
  {
    if blocks != [] {
      EventHeights(blocks[..|blocks| - 1], lo, hi);
      assert blocks[|blocks| - 1] in blocks;
      forall e | e in BlockEvents(blocks[|blocks| - 1]) ensures lo <= EventHeight(e) < hi {}
    }
  }

  lemma {:induction false} StepBelow(m: Ledger, e: Event, h: nat)
    requires ValidEvent(m, e) && Below(m, h) && EventHeight(e) < h
    ensures Below(Step(m, e), h)
  {
    forall k | k in Step(m, e)
      ensures Step(m, e)[k].height < h && (Step(m, e)[k].spent.Some? ==> Step(m, e)[k].spent.value.height < h)
    {
      if k in m { assert m[k].height < h; }
    }
  }

  lemma {:induction false} RunBelow(m: Ledger, es: seq<Event>, h: nat)
    requires ValidEvents(m, es) && Below(m, h) && forall e <- es :: EventHeight(e) < h
    ensures Below(Run(m, es), h)
    decreases es
  {
    if es != [] {
      assert es[0] in es;
      StepBelow(m, es[0], h);
      RunBelow(Step(m, es[0]), es[1..], h);
    }
  }

  lemma {:induction false} BlockHeights(chain: seq<Block>, lo: nat, hi: nat)
    requires ValidChain(chain) && lo <= hi <= |chain|
    ensures forall e <- Events(chain[lo..hi]) :: lo <= EventHeight(e) < hi
  {
    var part := chain[lo..hi];
    forall b | b in part ensures WellStamped(b) && lo <= b.height < hi {
      var i :| 0 <= i < |part| && part[i] == b;
      assert chain[lo + i] == b;
    }
    EventHeights(part, lo, hi);
  }

  lemma {:induction false} LedgerBelow(chain: seq<Block>)
    requires ValidChain(chain)
    ensures Below(LedgerOf(chain), |chain|)
  {
    assert chain[0..|chain|] == chain;
    BlockHeights(chain, 0, |chain|);
    RunBelow(map[], Events(chain), |chain|);
  }
}
