/** Windows, reorgs, rewinds and whole runs of the in-memory warehouse. */
module StoreTheorems {
  import opened Chain
  import opened Balances
  import opened Projection
  import opened Store
  import opened StoreProofs

  // ---------------------------------------------------------------- prevouts of a window

  lemma {:induction false} CreatedTerms(m: Ledger, es: seq<Event>, k: OutputKey)
    requires ValidEvents(m, es)
    ensures k in CreatedIn(es) ==> k in Run(m, es) && Terms(Run(m, es)[k]) == Terms(CreatedIn(es)[k])
    ensures k in Run(m, es) && k !in CreatedIn(es) ==> k in m
    decreases es
  {
    if es != [] {
      var n := Step(m, es[0]);
      CreatedTerms(n, es[1..], k);
      if k in CreatedIn(es) && k !in CreatedIn(es[1..]) {
        RunKeepsTerms(n, es[1..], k);
      }
    }
  }

  lemma {:induction false} SpentKeysExist(m: Ledger, es: seq<Event>, s: Spend)
    requires ValidEvents(m, es) && Consumed(s) in es
    ensures s.key in Run(m, es)
    decreases es
  {
    var n := Step(m, es[0]);
    if es[0] == Consumed(s) {
      RunKeepsTerms(n, es[1..], s.key);
    } else {
      SpentKeysExist(n, es[1..], s);
    }
  }

  lemma {:induction false} SpendOfBlocks(blocks: seq<Block>, s: Spend) returns (b: Block)
    requires Consumed(s) in Events(blocks)
    ensures b in blocks && s in b.spends
  {
    var last := blocks[|blocks| - 1];
    if Consumed(s) in BlockEvents(last) {
      var i :| 0 <= i < |BlockEvents(last)| && BlockEvents(last)[i] == Consumed(s);
      assert s == last.spends[i - |last.creates|];
      b := last;
    } else {
      b := SpendOfBlocks(blocks[..|blocks| - 1], s);
    }
  }

  /** Reading only the window's external keys before it starts is enough for every block of the window. */
  lemma {:induction false} WindowLookupFits(rows: Rows, chain: seq<Block>, w: seq<Block>)
    requires Represents(rows, chain) && ValidChain(chain) && ValidChain(chain + w)
    ensures LookupFits(WindowLookup(rows.outputs, w), LedgerOf(chain + w), Events(w))
  {
    var look, m, n := WindowLookup(rows.outputs, w), LedgerOf(chain), LedgerOf(chain + w);
    ChainHolds(chain);
    LedgerConcat(chain, w);
    forall s | Consumed(s) in Events(w)
      ensures s.key in look && s.key in n && Terms(look[s.key]) == Terms(n[s.key])
    {
      SpentKeysExist(m, Events(w), s);
      CreatedTerms(m, Events(w), s.key);
      if s.key !in CreatedInWindow(w) {
        var b := SpendOfBlocks(w, s);
        assert s.key in ExternalKeys(w);
        RunKeepsTerms(m, Events(w), s.key);
      }
    }
  }

  lemma {:induction false} PrefixFits(look: Ledger, m: Ledger, es: seq<Event>, rest: seq<Event>)
    requires ValidEvents(m, es) && ValidEvents(Run(m, es), rest)
    requires LookupFits(look, Run(Run(m, es), rest), es)
    ensures LookupFits(look, Run(m, es), es)
  {
    forall s | Consumed(s) in es
      ensures s.key in look && s.key in Run(m, es) && Terms(look[s.key]) == Terms(Run(m, es)[s.key])
    {
      SpentKeysExist(m, es, s);
      RunKeepsTerms(Run(m, es), rest, s.key);
    }
  }

  lemma {:induction false} FitsParts(look: Ledger, m: Ledger, x: seq<Event>, y: seq<Event>)
    requires LookupFits(look, m, x + y)
    ensures LookupFits(look, m, x) && LookupFits(look, m, y)
  {
    assert forall e :: e in x || e in y ==> e in x + y;
  }

  lemma {:induction false} FirstOf(chain: seq<Block>, w: seq<Block>)
    requires w != [] && ValidChain(chain + w)
    ensures ValidChain(chain + [w[0]])
    ensures LedgerOf(chain + [w[0]]) == Run(LedgerOf(chain), BlockEvents(w[0]))
    ensures LedgerOf(chain + w) == Run(LedgerOf(chain + [w[0]]), Events(w[1..]))
    ensures Events(w) == BlockEvents(w[0]) + Events(w[1..])
    ensures ValidEvents(LedgerOf(chain), BlockEvents(w[0]))
    ensures ValidEvents(LedgerOf(chain + [w[0]]), Events(w[1..]))
  {
    var one, rest := chain + [w[0]], w[1..];
    assert one + rest == chain + w && (chain + w)[..|one|] == one && [w[0]] + rest == w;
    ValidPrefix(chain + w, |one|);
    LedgerConcat(one, rest);
    assert ValidEvents(map[], Events(chain + w));
    hide ValidChain, Run, ValidEvents;
    ValidLast(chain, w[0]);
    LastBlock(chain, w[0]);
    EventsConcat([w[0]], rest);
    SingleBlockEvents(w[0]);
  }

  lemma {:induction false} LookupFitsFirst(look: Ledger, chain: seq<Block>, w: seq<Block>)
    requires w != [] && ValidChain(chain + w) && LookupFits(look, LedgerOf(chain + w), Events(w))
    ensures ValidChain(chain + [w[0]])
    ensures LookupFits(look, LedgerOf(chain + [w[0]]), BlockEvents(w[0]))
    ensures LookupFits(look, LedgerOf(chain + w), Events(w[1..]))
  {
    FirstOf(chain, w);
    hide ValidChain, LedgerOf, Run, ValidEvents, Events;
    FitsParts(look, LedgerOf(chain + w), BlockEvents(w[0]), Events(w[1..]));
    hide LookupFits;
    PrefixFits(look, LedgerOf(chain), BlockEvents(w[0]), Events(w[1..]));
  }

  lemma {:induction false} ApplyBlocksExtends(rows: Rows, chain: seq<Block>, w: seq<Block>, look: Ledger)
    requires Represents(rows, chain) && ValidChain(chain + w)
    requires LookupFits(look, LedgerOf(chain + w), Events(w))
    ensures ApplyBlocks(rows, w, look).error.None?
    ensures Represents(ApplyBlocks(rows, w, look).rows, chain + w)
    decreases w
  {
    hide ValidChain, Represents, LookupFits, LedgerOf, Events, ApplyBlock;
    if w == [] {
      assert chain + w == chain;
    } else {
      LookupFitsFirst(look, chain, w);
      ApplyBlockExtends(rows, chain, w[0], look);
      assert chain + [w[0]] + w[1..] == chain + w;
      ApplyBlocksExtends(ApplyBlock(rows, w[0], look).rows, chain + [w[0]], w[1..], look);
    }
  }

  // ---------------------------------------------------------------- rewinding

  lemma {:induction false} KeepConcat<T>(x: seq<T>, y: seq<T>, p: T -> bool)
    ensures Keep(x + y, p) == Keep(x, p) + Keep(y, p)
  {
    if y == [] {
      assert x + y == x;
    } else {
      var front := y[..|y| - 1];
      assert (x + y)[..|x + y| - 1] == x + front;
      KeepConcat(x, front, p);
    }
  }

  lemma {:induction false} KeepAll<T>(x: seq<T>, p: T -> bool)
    requires forall v <- x :: p(v)
    ensures Keep(x, p) == x
  {
    if x != [] {
      assert x[|x| - 1] in x;
      KeepAll(x[..|x| - 1], p);
    }
  }

  lemma {:induction false} KeepNone<T>(x: seq<T>, p: T -> bool)
    requires forall v <- x :: !p(v)
    ensures Keep(x, p) == []
  {
    if x != [] {
      assert x[|x| - 1] in x;
      KeepNone(x[..|x| - 1], p);
    }
  }

  lemma {:induction false} BlockEffectHeights(b: Block, look: Ledger)
    requires WellStamped(b)
    ensures forall v <- BlockMovements(b, look) :: v.height == b.height
    ensures forall f <- BlockFacts(b, look) :: f.height == b.height
  {
    forall o | Created(o) in BlockEvents(b) ensures o.height == b.height {
      var i :| 0 <= i < |BlockEvents(b)| && BlockEvents(b)[i] == Created(o);
      assert b.creates[i] == o;
    }
    MovementHeights(b, BlockEvents(b), look);
  }

  lemma {:induction false} LogsAppend(front: seq<Block>, last: Block, h: nat, looks: Lookups := map[])
    requires ValidChain(front + [last])
    ensures last.height == |front| && Headers(front + [last]) == Headers(front) + [Header(last)]
    ensures var m := LookAt(looks, |front|, LedgerOf(front + [last]));
            && Keep(MovementsOf(front + [last], looks), MovementBelow(h))
               == Keep(MovementsOf(front, looks), MovementBelow(h))
                  + (if |front| < h then BlockMovements(last, m) else [])
            && Keep(FactsOf(front + [last], looks), FactBelow(h))
               == Keep(FactsOf(front, looks), FactBelow(h)) + (if |front| < h then BlockFacts(last, m) else [])
  {
    var m := LookAt(looks, |front|, LedgerOf(front + [last]));
    ValidLast(front, last);
    HeadersExtend(front, last);
    BlockEffectHeights(last, m);
    Unfold(front, last, looks);
    KeepConcat(MovementsOf(front, looks), BlockMovements(last, m), MovementBelow(h));
    KeepConcat(FactsOf(front, looks), BlockFacts(last, m), FactBelow(h));
    if |front| < h {
      KeepAll(BlockMovements(last, m), MovementBelow(h));
      KeepAll(BlockFacts(last, m), FactBelow(h));
    } else {
      KeepNone(BlockMovements(last, m), MovementBelow(h));
      KeepNone(BlockFacts(last, m), FactBelow(h));
    }
    assert Headers(front + [last]) == Headers(front) + [Header(last)];
  }

  lemma {:induction false} HeadersRewind(chain: seq<Block>, h: nat)
    requires h <= |chain| && forall i :: 0 <= i < |chain| ==> chain[i].height == i
    ensures Keep(Headers(chain), AppliedBelow(h)) == Headers(chain[..h])
  {
    var hs := Headers(chain);
    assert hs == hs[..h] + hs[h..] && hs[..h] == Headers(chain[..h]);
    KeepConcat(hs[..h], hs[h..], AppliedBelow(h));
    KeepAll(hs[..h], AppliedBelow(h));
    KeepNone(hs[h..], AppliedBelow(h));
  }

  /** Filtering the logs of a chain by height gives the logs of its prefix. */
  lemma {:induction false} LogsRewind(chain: seq<Block>, h: nat, looks: Lookups := map[])
    requires ValidChain(chain) && h <= |chain|
    ensures Keep(MovementsOf(chain, looks), MovementBelow(h)) == MovementsOf(chain[..h], looks)
    ensures Keep(FactsOf(chain, looks), FactBelow(h)) == FactsOf(chain[..h], looks)
  {
    if h == |chain| {
      assert chain[..h] == chain;
      KeptBelow(chain, h, looks);
    } else {
      var n := |chain| - 1;
      var front, last := chain[..n], chain[n];
      assert chain == front + [last] && front[..h] == chain[..h];
      ValidPrefix(chain, n);
      hide ValidChain, Keep, MovementsOf, FactsOf, BlockMovements, BlockFacts;
      LogsAppend(front, last, h, looks);
      LogsRewind(front, h, looks);
      assert Keep(MovementsOf(front, looks), MovementBelow(h))
             + [] == Keep(MovementsOf(front, looks), MovementBelow(h));
      assert Keep(FactsOf(front, looks), FactBelow(h)) + [] == Keep(FactsOf(front, looks), FactBelow(h));
    }
  }

  lemma {:induction false} KeptBelow(chain: seq<Block>, h: nat, looks: Lookups := map[])
    requires ValidChain(chain) && |chain| <= h
    ensures Keep(MovementsOf(chain, looks), MovementBelow(h)) == MovementsOf(chain, looks)
    ensures Keep(FactsOf(chain, looks), FactBelow(h)) == FactsOf(chain, looks)
  {
    if chain != [] {
      var front, last := chain[..|chain| - 1], chain[|chain| - 1];
      assert chain == front + [last];
      LogsAppend(front, last, h, looks);
      Unfold(front, last, looks);
      ValidPrefix(chain, |front|);
      KeptBelow(front, h, looks);
    }
  }

  lemma {:induction false} RewindConcat(x: seq<Output>, y: seq<Output>, from: nat)
    ensures RewindOutputs(x + y, from) == RewindOutputs(x, from) + RewindOutputs(y, from)
  {
    if y == [] {
      assert x + y == x;
    } else {
      var front := y[..|y| - 1];
      assert (x + y)[..|x + y| - 1] == x + front;
      RewindConcat(x, front, from);
    }
  }

  lemma {:induction false} RewindOne(o: Output, from: nat)
    ensures RewindOutputs([o], from) == if RewindOutput(o, from).Some? then [RewindOutput(o, from).value] else []
  {
    assert [o][..0] == [];
  }

  lemma {:induction false} RewindUpdate(outputs: seq<Output>, i: nat, o: Output, from: nat)
    requires i < |outputs| && RewindOutput(o, from) == RewindOutput(outputs[i], from)
    ensures RewindOutputs(outputs[i := o], from) == RewindOutputs(outputs, from)
  {
    var x, z := outputs[..i], outputs[i + 1..];
    assert outputs == x + [outputs[i]] + z && outputs[i := o] == x + [o] + z;
    RewindConcat(x + [outputs[i]], z, from);
    RewindConcat(x + [o], z, from);
    RewindConcat(x, [outputs[i]], from);
    RewindConcat(x, [o], from);
    RewindOne(o, from);
    RewindOne(outputs[i], from);
  }

  lemma {:induction false} RewindRowsStep(outputs: seq<Output>, m: Ledger, e: Event, from: nat)
    requires Holds(outputs, m) && ValidEvent(m, e) && EventHeight(e) >= from
    ensures RewindOutputs(StepRows(outputs, e), from) == RewindOutputs(outputs, from)
  {
    match e
    case Created(o) =>
      RewindConcat(outputs, [o], from);
      RewindOne(o, from);
    case Consumed(s) =>
      var i := OutputAt(outputs, s.key);
      RewindUpdate(outputs, i, outputs[i].(spent := Some(s.spender)), from);
  }

  lemma {:induction false} RewindRowsRun(outputs: seq<Output>, m: Ledger, es: seq<Event>, from: nat)
    requires Holds(outputs, m) && ValidEvents(m, es) && AtOrAbove(es, from)
    ensures RewindOutputs(RunRows(outputs, es), from) == RewindOutputs(outputs, from)
    decreases es
  {
    if es != [] {
      assert es[0] in es;
      HoldsStep(outputs, m, es[0]);
      RewindRowsStep(outputs, m, es[0], from);
      RewindRowsRun(StepRows(outputs, es[0]), Step(m, es[0]), es[1..], from);
    }
  }

  lemma {:induction false} RewindRowsBelow(outputs: seq<Output>, from: nat)
    requires forall o <- outputs :: RewindOutput(o, from) == Some(o)
    ensures RewindOutputs(outputs, from) == outputs
  {
    if outputs != [] {
      assert outputs[|outputs| - 1] in outputs;
      RewindRowsBelow(outputs[..|outputs| - 1], from);
    }
  }

  lemma {:induction false} RowsBelow(chain: seq<Block>, o: Output)
    requires ValidChain(chain) && o in RunRows([], Events(chain))
    ensures o.height < |chain| && (o.spent.Some? ==> o.spent.value.height < |chain|)
  {
    ChainHolds(chain);
    LedgerBelow(chain);
    var rows := RunRows([], Events(chain));
    var i :| 0 <= i < |rows| && rows[i] == o;
    assert LedgerOf(chain)[rows[i].key] == o;
  }

  lemma {:induction false} SplitRows(a: seq<Block>, b: seq<Block>)
    requires ValidEvents(map[], Events(a + b))
    ensures RunRows([], Events(a + b)) == RunRows(RunRows([], Events(a)), Events(b))
    ensures ValidEvents(LedgerOf(a), Events(b))
  {
    LedgerConcat(a, b);
    EventsConcat(a, b);
    RunRowsConcat([], Events(a), Events(b));
  }

  lemma {:induction false} TailRewinds(chain: seq<Block>, es: seq<Event>)
    requires ValidChain(chain) && ValidEvents(LedgerOf(chain), es) && AtOrAbove(es, |chain|)
    ensures RewindOutputs(RunRows(RunRows([], Events(chain)), es), |chain|) == RunRows([], Events(chain))
  {
    hide ValidChain, Events, ValidEvents, RunRows, Run;
    var rows := RunRows([], Events(chain));
    ChainHolds(chain);
    RewindRowsRun(rows, LedgerOf(chain), es, |chain|);
    forall o | o in rows ensures RewindOutput(o, |chain|) == Some(o) { RowsBelow(chain, o); }
    RewindRowsBelow(rows, |chain|);
  }

  lemma {:induction false} OutputsRewind(chain: seq<Block>, h: nat)
    requires ValidChain(chain) && h <= |chain|
    ensures RewindOutputs(RunRows([], Events(chain)), h) == RunRows([], Events(chain[..h]))
  {
    var a, b := chain[..h], chain[h..];
    assert chain == a + b && b == chain[h..|chain|];
    SplitRows(a, b);
    BlockHeights(chain, h, |chain|);
    ValidPrefix(chain, h);
    TailRewinds(a, Events(b));
  }

  lemma {:induction false} HoldsFront(outputs: seq<Output>, m: Ledger)
    requires Holds(outputs, m) && outputs != []
    ensures Holds(outputs[..|outputs| - 1], m - {outputs[|outputs| - 1].key})
  {
    var n := |outputs| - 1;
    var front := outputs[..n];
    forall k | k in m - {outputs[n].key} ensures m[k].key == k && OutputAt(front, k) < |front| {
      var i := OutputAt(outputs, k);
      assert i < n && front[i].key == k;
    }
  }

  lemma {:induction false} HoldsNothing(m: Ledger)
    requires Holds([], m)
    ensures m == map[]
  {
    forall k | k in m ensures false {}
  }

  lemma {:induction false} AddUnspentAmount(balances: seq<BalanceRow>, o: Output, asOf: int, a: Address)
    requires a != ""
    ensures Amount(AddUnspent(balances, o, asOf), a) == Amount(balances, a) + Contribution(o, a)
  {
    SetBalanceAmount(balances, o.address, Amount(balances, o.address) + o.value, asOf, a);
  }

  /** Summing the unspent rows again gives every address its balance. */
  lemma {:induction false} RebuiltTracks(outputs: seq<Output>, m: Ledger, asOf: int)
    requires Holds(outputs, m)
    ensures Tracks(RebuiltBalances(outputs, asOf), m)
  {
    if outputs == [] {
      HoldsNothing(m);
    } else {
      var o, front := outputs[|outputs| - 1], outputs[..|outputs| - 1];
      HoldsFront(outputs, m);
      RebuiltTracks(front, m - {o.key}, asOf);
      var before := RebuiltBalances(front, asOf);
      assert m[o.key] == o;
      hide Holds, RebuiltBalances, AddUnspent, Amount, BalanceOf;
      forall a | a != "" ensures Amount(AddUnspent(before, o, asOf), a) == BalanceOf(m, a) {
        BalanceSplit(m, a, o.key);
        AddUnspentAmount(before, o, asOf, a);
      }
    }
  }

  lemma {:induction false} BlocksNumbered(chain: seq<Block>)
    requires ValidChain(chain)
    ensures forall i :: 0 <= i < |chain| ==> chain[i].height == i
  {}

  lemma {:induction false} RebuiltFor(chain: seq<Block>, asOf: int)
    requires ValidChain(chain)
    ensures Tracks(RebuiltBalances(RunRows([], Events(chain)), asOf), LedgerOf(chain))
  {
    hide RebuiltBalances, Tracks, Holds, RunRows, Events, LedgerOf, ValidChain;
    ChainHolds(chain);
    RebuiltTracks(RunRows([], Events(chain)), LedgerOf(chain), asOf);
  }

  /** Rewinding rows that represent a chain leaves the rows of its prefix below that height. */
  lemma {:induction false} RewindRepresents(rows: Rows, chain: seq<Block>, h: nat)
    requires Represents(rows, chain) && ValidChain(chain) && h <= |chain|
    ensures Represents(Rewind(rows, h), chain[..h])
  {
    hide ValidChain, Headers, RunRows, Events, MovementsOf, FactsOf, LedgerOf, Tracks, Keep, RewindOutputs,
         RebuiltBalances, MaxHeight;
    BlocksNumbered(chain);
    HeadersRewind(chain, h);
    LogsRewind(chain, h);
    OutputsRewind(chain, h);
    ValidPrefix(chain, h);
    RebuiltFor(chain[..h], MaxHeight(Headers(chain[..h])));
  }

  /** After a rewind every balance row holds as of the last block that is left. */
  lemma {:induction false} RewoundBalancesStamped(rows: Rows, chain: seq<Block>, h: nat)
    requires Represents(rows, chain) && ValidChain(chain) && h <= |chain|
    ensures forall r <- Rewind(rows, h).balances :: r.asOf == h - 1
  {
    BlocksNumbered(chain);
    HeadersRewind(chain, h);
    var kept := Headers(chain[..h]);
    if h > 0 { assert kept[h - 1] in kept && kept[h - 1].height == h - 1; }
    assert MaxHeight(kept) == h - 1;
    RebuiltRowsStamped(RewindOutputs(rows.outputs, h), h - 1);
  }

  lemma {:induction false} RowsKept(chain: seq<Block>, h: nat)
    requires ValidChain(chain) && |chain| <= h
    ensures RewindOutputs(RunRows([], Events(chain)), h) == RunRows([], Events(chain))
  {
    hide ValidChain, RunRows, Events, RewindOutputs;
    var rows := RunRows([], Events(chain));
    forall o | o in rows ensures RewindOutput(o, h) == Some(o) { RowsBelow(chain, o); }
    RewindRowsBelow(rows, h);
  }

  lemma {:induction false} HeadersKept(chain: seq<Block>, h: nat)
    requires ValidChain(chain) && |chain| <= h
    ensures Keep(Headers(chain), AppliedBelow(h)) == Headers(chain)
  {
    KeepAll(Headers(chain), AppliedBelow(h));
  }

  /** Rewinding to a height above the tail changes nothing but the balances' bookkeeping. */
  lemma {:induction false} RewindBeyond(rows: Rows, chain: seq<Block>, h: nat)
    requires Represents(rows, chain) && ValidChain(chain) && |chain| <= h
    ensures Represents(Rewind(rows, h), chain)
  {
    hide ValidChain, Headers, RunRows, Events, MovementsOf, FactsOf, LedgerOf, Tracks, Keep, RewindOutputs,
         RebuiltBalances, MaxHeight;
    HeadersKept(chain, h);
    KeptBelow(chain, h);
    RowsKept(chain, h);
    RebuiltFor(chain, MaxHeight(Headers(chain)));
  }
}
