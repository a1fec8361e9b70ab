/** Windows applied through the projection port: next outputs from the rows read, next balances from the movements. */
module ProjectionWindow {
  import opened Chain
  import opened Balances
  import opened Projection
  import opened Store
  import opened StoreProofs
  import opened StoreTheorems
  import opened FactTables
  import opened Materialization
  import opened CoreWindow
  import opened CoreState
  import opened Agreement

  // ---------------------------------------------------------------- outputs

  datatype NextOutputs = Built(next: Ledger) | UnknownOutput(key: OutputKey)

  /** The rows of a mutation, without its balance changes. */
  function RowsOf(r: MutationResult): NextOutputs {
    match r
    case Mutated(mu) => Built(mu.next)
    case MissingPrevout(k) => UnknownOutput(k)
  }

  method ApplySpends(start: Ledger, current: Ledger, spends: seq<Spend>, ghost from: Mutation)
    returns (r: NextOutputs, ghost to: MutationResult)
    requires from.next == start
    ensures r == RowsOf(Mutate(from, SpendEvents(spends), current))
    ensures to == Mutate(from, SpendEvents(spends), current)
  {
    var next := start;
    ghost var mu := from;
    for i := 0 to |spends|
      invariant mu.next == next
      invariant Mutate(from, SpendEvents(spends), current) == Mutate(mu, SpendEvents(spends)[i..], current)
    {
      ghost var rest := SpendEvents(spends)[i..];
      assert rest[0] == Consumed(spends[i]) && rest[1..] == SpendEvents(spends)[i + 1..];
      var k := spends[i].key;
      if k !in next && k !in current {
        return UnknownOutput(k), MissingPrevout(k);
      }
      mu := MutateSpend(mu, spends[i], current).mutation;
      next := next[k := (if k in next then next[k] else current[k]).(spent := Some(spends[i].spender))];
    }
    return Built(next), Mutated(mu);
  }

  method ApplyCreates(start: Ledger, creates: seq<Output>, ghost from: Mutation, ghost current: Ledger)
    returns (next: Ledger, ghost mu: Mutation)
    requires from.next == start
    ensures RowsOf(Mutate(from, CreateEvents(creates), current)) == Built(next)
    ensures Mutate(from, CreateEvents(creates), current) == Mutated(mu)
  {
    next, mu := start, from;
    for i := 0 to |creates|
      invariant mu.next == next
      invariant Mutate(from, CreateEvents(creates), current) == Mutate(mu, CreateEvents(creates)[i..], current)
    {
      ghost var rest := CreateEvents(creates)[i..];
      assert rest[0] == Created(creates[i]) && rest[1..] == CreateEvents(creates)[i + 1..];
      mu := MutateCreate(mu, creates[i]);
      next := next[creates[i].key := creates[i]];
    }
  }

  /** The rows this path writes are those the window engine writes, and it stops at the same missing output. */
  method BuildNextOutputs(batches: seq<Block>, current: Ledger) returns (r: NextOutputs)
    ensures r == RowsOf(Mutate(NO_MUTATION, Events(batches), current))
  {
    var next: Ledger := map[];
    ghost var mu := NO_MUTATION;
    for i := 0 to |batches|
      invariant mu.next == next
      invariant Mutate(NO_MUTATION, Events(batches), current) == Mutate(mu, Events(batches[i..]), current)
    {
      FirstBlock(mu, batches[i..], current);
      assert batches[i..][0] == batches[i] && batches[i..][1..] == batches[i + 1..];
      ghost var created, spent;
      next, created := ApplyCreates(next, batches[i].creates, mu, current);
      r, spent := ApplySpends(next, current, batches[i].spends, created);
      if r.UnknownOutput? {
        return;
      }
      next, mu := r.next, spent.mutation;
    }
    r := Built(next);
  }

  function SpentKeys(batches: seq<Block>): set<OutputKey> {
    set b, s | b in batches && s in b.spends :: s.key
  }

  /** This path reads the rows of every output spent; those the window creates itself have none yet. */
  lemma {:induction false} ReadsTheSame(chain: seq<Block>, w: seq<Block>, c: Ledger, current: Ledger, full: bool)
    requires ValidChain(chain + w) && View(c, LedgerOf(chain), full)
    ensures ReadFrom(current, c, SpentKeys(w)) <==> ReadFrom(current, c, ExternalKeys(w))
  {
    hide LedgerOf, Events, ValidEvents, ValidChain, AtOrAbove;
    WindowEvents(chain, w);
    var m, es := LedgerOf(chain), Events(w);
    forall k | k in c ensures k in SpentKeys(w) <==> k in ExternalKeys(w) {
      SpentBefore(m, es, k);
      assert CreatedInWindow(w) == CreatedIn(es);
    }
  }

  // ---------------------------------------------------------------- balances

  datatype NextBalances = Balanced(next: map<Address, int>) | Negative(address: Address)

  /** What an address holds: by the window so far, else by the rows read. */
  function Holding(amounts: map<Address, int>, next: map<Address, int>, a: Address): int {
    if a in next then next[a] else if a in amounts then amounts[a] else 0
  }

  function Settle(amounts: map<Address, int>, next: map<Address, int>, movements: seq<Movement>): NextBalances
    decreases movements
  {
    if movements == [] then Balanced(next) else
      var v := movements[0];
      var amount := Holding(amounts, next, v.address) + SignedAmount(v);
      if amount < 0 then Negative(v.address) else Settle(amounts, next[v.address := amount], movements[1..])
  }

  lemma {:induction false} SettleConcat(amounts: map<Address, int>, next: map<Address, int>, x: seq<Movement>,
      y: seq<Movement>)
    ensures Settle(amounts, next, x + y)
            == if Settle(amounts, next, x).Balanced? then Settle(amounts, Settle(amounts, next, x).next, y)
              else Settle(amounts, next, x)
    decreases x
  {
    if x == [] {
      assert x + y == y;
    } else {
      assert (x + y)[0] == x[0] && (x + y)[1..] == x[1..] + y;
      var amount := Holding(amounts, next, x[0].address) + SignedAmount(x[0]);
      if amount >= 0 {
        SettleConcat(amounts, next[x[0].address := amount], x[1..], y);
      }
    }
  }

  method ApplyMovements(amounts: map<Address, int>, start: map<Address, int>, movements: seq<Movement>)
    returns (r: NextBalances)
    ensures r == Settle(amounts, start, movements)
  {
    var next := start;
    for i := 0 to |movements|
      invariant Settle(amounts, start, movements) == Settle(amounts, next, movements[i..])
    {
      var v := movements[i];
      assert movements[i..][0] == v && movements[i..][1..] == movements[i + 1..];
      var amount := Holding(amounts, next, v.address) + SignedAmount(v);
      if amount < 0 {
        return Negative(v.address);
      }
      next := next[v.address := amount];
    }
    r := Balanced(next);
  }

  /** Batch after batch, each with its own movements. */
  method BuildNextBalances(batches: seq<Block>, look: Ledger, amounts: map<Address, int>) returns (r: NextBalances)
    ensures r == Settle(amounts, map[], WindowMovements(batches, look))
  {
    hide Settle, BlockMovements;
    var next: map<Address, int> := map[];
    for i := 0 to |batches|
      invariant Settle(amounts, map[], WindowMovements(batches, look)) ==
                Settle(amounts, next, WindowMovements(batches[i..], look))
    {
      assert batches[i..][0] == batches[i] && batches[i..][1..] == batches[i + 1..];
      SettleConcat(amounts, next, BlockMovements(batches[i], look), WindowMovements(batches[i + 1..], look));
      r := ApplyMovements(amounts, next, BlockMovements(batches[i], look));
      if r.Negative? {
        return;
      }
      next := r.next;
    }
    NothingSettled(amounts, next);
    r := Balanced(next);
  }

  /** One event: its movement is the whole balance change, and no balance goes negative on the way. */
  lemma {:induction false} SettleEvent(amounts: map<Address, int>, next: map<Address, int>, b: Block, e: Event,
      look: Ledger, m: Ledger)
    requires ValidEvent(m, e) && NonNegative(m) && BalancesAre(amounts + next, m)
    requires e.Consumed? ==> e.spend.key in look && Terms(look[e.spend.key]) == Terms(m[e.spend.key])
    ensures var r := Settle(amounts, next, EventMovements(b, e, look));
            r.Balanced? && BalancesAre(amounts + r.next, Step(m, e))
  {
    var vs, n := EventMovements(b, e, look), Step(m, e);
    EventMovementFacts([], b, e, look, m);
    StepNonNegative(m, e);
    hide EventMovements, Step, EventDelta, NonNegative, AffectsBalance;
    if vs == [] {
      forall a | a != "" ensures BalanceOf(n, a) == BalanceOf(m, a) { StepBalance(m, e, a); }
    } else {
      SettleOne(amounts, next, vs[0], m, e);
      assert vs == [vs[0]] && [vs[0]][1..] == [];
    }
  }

  lemma {:induction false} SettleOne(amounts: map<Address, int>, next: map<Address, int>, v: Movement, m: Ledger,
      e: Event)
    requires ValidEvent(m, e) && NonNegative(Step(m, e)) && BalancesAre(amounts + next, m) && v.address != ""
    requires forall a :: a != "" ==> EventDelta(m, e, a) == Net([v], a)
    ensures var amount := Holding(amounts, next, v.address) + SignedAmount(v);
            amount >= 0 && BalancesAre(amounts + next[v.address := amount], Step(m, e))
  {
    var n := Step(m, e);
    var amount := Holding(amounts, next, v.address) + SignedAmount(v);
    var after := amounts + next[v.address := amount];
    hide Step, ValidEvent, EventDelta, NonNegative, SignedAmount, Net;
    forall a | a != "" ensures (if a in after then after[a] else 0) == BalanceOf(n, a) {
      StepBalance(m, e, a);
      NetOne(v, a);
      assert (if a in amounts + next then (amounts + next)[a] else 0) == BalanceOf(m, a);
    }
    BalanceNonNegative(n, v.address);
  }

  lemma {:induction false} SettleEvents(amounts: map<Address, int>, next: map<Address, int>, b: Block, es: seq<Event>,
      look: Ledger, m: Ledger)
    requires ValidEvents(m, es) && NonNegative(m) && BalancesAre(amounts + next, m) && LookupFits(look, Run(m, es), es)
    ensures var r := Settle(amounts, next, MovementsFor(b, es, look));
            r.Balanced? && BalancesAre(amounts + r.next, Run(m, es))
    decreases es
  {
    hide BalancesAre, NonNegative, EventMovements, LookupFits, Settle;
    if es == [] {
      NothingSettled(amounts, next);
    } else {
      LookupFitsHead(look, m, es);
      SettleEvent(amounts, next, b, es[0], look, m);
      StepNonNegative(m, es[0]);
      var one := Settle(amounts, next, EventMovements(b, es[0], look));
      SettleEvents(amounts, one.next, b, es[1..], look, Step(m, es[0]));
      SettleConcat(amounts, next, EventMovements(b, es[0], look), MovementsFor(b, es[1..], look));
    }
  }

  lemma {:induction false} NothingSettled(amounts: map<Address, int>, next: map<Address, int>)
    ensures Settle(amounts, next, []) == Balanced(next)
  {}

  /** Settling the movements of a window leads to the balances of the longer chain; the negative check never fires. */
  lemma {:induction false} SettleWindow(amounts: map<Address, int>, next: map<Address, int>, chain: seq<Block>,
      w: seq<Block>, look: Ledger)
    requires ValidChain(chain + w) && BalancesAre(amounts + next, LedgerOf(chain))
             && LookupFits(look, LedgerOf(chain + w), Events(w))
    ensures var r := Settle(amounts, next, WindowMovements(w, look));
            r.Balanced? && BalancesAre(amounts + r.next, LedgerOf(chain + w))
    decreases w
  {
    hide BalancesAre, ValidChain, LookupFits, LedgerOf, Events, Settle, BlockMovements, NonNegative;
    if w == [] {
      NothingSettled(amounts, next);
      assert chain + w == chain;
    } else {
      var longer := chain + [w[0]];
      assert chain + w == longer + w[1..];
      LookupFitsFirst(look, chain, w);
      SettleBlock(amounts, next, chain, w[0], look);
      var one := Settle(amounts, next, BlockMovements(w[0], look));
      SettleWindow(amounts, one.next, longer, w[1..], look);
      SettleConcat(amounts, next, BlockMovements(w[0], look), WindowMovements(w[1..], look));
    }
  }

  lemma {:induction false} SettleBlock(amounts: map<Address, int>, next: map<Address, int>, chain: seq<Block>, b: Block,
      look: Ledger)
    requires ValidChain(chain + [b]) && BalancesAre(amounts + next, LedgerOf(chain))
             && LookupFits(look, LedgerOf(chain + [b]), BlockEvents(b))
    ensures var r := Settle(amounts, next, BlockMovements(b, look));
            r.Balanced? && BalancesAre(amounts + r.next, LedgerOf(chain + [b]))
  {
    hide BalancesAre, LookupFits, LedgerOf, Settle, NonNegative, ValidEvents, MovementsFor, Run;
    ValidLast(chain, b);
    LastBlock(chain, b);
    LedgerFacts(chain);
    hide ValidChain;
    SettleEvents(amounts, next, b, BlockEvents(b), look, LedgerOf(chain));
  }

  // ---------------------------------------------------------------- the two paths agree

  /**
   * However a chain is cut into windows, both paths write the same outputs, neither ever reports a missing
   * output or a negative balance, and the balances they lead to are the same: those of the longer chain.
   */
  lemma {:induction false} PathsAgree(chain: seq<Block>, w: seq<Block>, c: Ledger, amounts: map<Address, int>,
      current: Ledger, a: Address)
    requires ValidChain(chain + w) && View(c, LedgerOf(chain), true) && BalancesAre(amounts, LedgerOf(chain)) && a != ""
    requires ReadFrom(current, c, SpentKeys(w))
    ensures var r, s := Mutate(NO_MUTATION, Events(w), current),
            Settle(amounts, map[], WindowMovements(w, current + CreatedInWindow(w)));
            && r.Mutated? && s.Balanced?
            && View(c + RowsOf(r).next, LedgerOf(chain + w), true)
            && AmountOf(amounts + s.next, a) == AmountOf(amounts + NextAmounts(amounts, r.mutation.deltas), a) ==
               BalanceOf(LedgerOf(chain + w), a)
  {
    hide ValidChain, View, LedgerOf, Mutate, Events, ReadFrom, SpentKeys, ExternalKeys, CreatedInWindow, LookupFits,
         Covers, Settle, NonNegative, NextAmounts, DeltasAre, TouchedFrom, Below;
    ReadsTheSame(chain, w, c, current, true);
    FullFindsAll(chain, w, c, current);
    PrevoutsFit(chain, w, c, current, true);
    WindowMutates(chain, w, c, current, true);
    LedgerFacts(chain + w);
    AmountsAdvance(amounts, Mutate(NO_MUTATION, Events(w), current).mutation.deltas, LedgerOf(chain),
      LedgerOf(chain + w));
    assert amounts + map[] == amounts;
    SettleWindow(amounts, map[], chain, w, current + CreatedInWindow(w));
  }
}
