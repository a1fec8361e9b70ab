/** Reorg convergence, rewind and re-apply, and the agreement of the three ledgers over whole runs. */
module Convergence {
  import opened Chain
  import opened Balances
  import opened Projection
  import opened Store
  import opened StoreProofs
  import opened StoreTheorems

  /** A hash identifies a block, so equal hashes at a height mean equal blocks. */
  predicate HashesIdentify(a: seq<Block>, b: seq<Block>) {
    forall i :: 0 <= i < |a| && i < |b| && a[i].hash == b[i].hash ==> a[i] == b[i]
  }

  predicate Numbered(chain: seq<Block>) {
    forall i :: 0 <= i < |chain| ==> chain[i].height == i
  }

  /** The lowest height of [lo, hi) at which both chains have a block and the hashes differ, or hi. */
  function ForkHeight(chain: seq<Block>, node: seq<Block>, lo: nat, hi: nat): (d: nat)
    requires lo <= hi <= |node|
    ensures lo <= d <= hi
    ensures d < hi ==> d < |chain| && chain[d].hash != node[d].hash
    ensures forall i :: lo <= i < d && i < |chain| ==> chain[i].hash == node[i].hash
    decreases hi - lo
  {
    if lo == hi || (lo < |chain| && chain[lo].hash != node[lo].hash) then lo
    else ForkHeight(chain, node, lo + 1, hi)
  }

  /** What a window of the node's chain turns the stored chain into. */
  function ChainAfter(chain: seq<Block>, node: seq<Block>, lo: nat, hi: nat): seq<Block>
    requires lo <= hi <= |node|
  {
    if ForkHeight(chain, node, lo, hi) < hi || |chain| <= hi then node[..hi] else chain
  }

  // ---------------------------------------------------------------- what a window leaves pending

  lemma {:induction false} AppliedAtHeight(chain: seq<Block>, h: nat)
    requires Numbered(chain)
    ensures AppliedAt(Headers(chain), h) == if h < |chain| then h else |chain|
  {
    var i := AppliedAt(Headers(chain), h);
    if i < |chain| { assert Headers(chain)[i].height == i; }
    if h < |chain| { assert Headers(chain)[h].height == h; }
  }

  lemma {:induction false} FirstReorgIsFork(chain: seq<Block>, node: seq<Block>, lo: nat, hi: nat)
    requires Numbered(chain) && Numbered(node) && lo <= hi <= |node|
    ensures lo + FirstReorg(Headers(chain), node[lo..hi]) == ForkHeight(chain, node, lo, hi)
    decreases hi - lo
  {
    if lo < hi {
      AppliedAtHeight(chain, lo);
      assert lo < |chain| ==> Headers(chain)[lo].hash == chain[lo].hash;
      hide Headers, AppliedAt;
      var w := node[lo..hi];
      assert w[0] == node[lo] && w[1..] == node[lo + 1..hi];
      FirstReorgIsFork(chain, node, lo + 1, hi);
    }
  }

  lemma {:induction false} FromHeightIsSuffix(node: seq<Block>, lo: nat, hi: nat, d: nat)
    requires Numbered(node) && lo <= hi <= |node| && d <= hi
    ensures FromHeight(node[lo..hi], d) == node[if lo < d then d else lo..hi]
    decreases hi - lo
  {
    if lo < hi {
      assert node[lo..hi][0] == node[lo] && node[lo..hi][1..] == node[lo + 1..hi];
      FromHeightIsSuffix(node, lo + 1, hi, d);
      assert lo >= d ==> [node[lo]] + node[lo + 1..hi] == node[lo..hi];
    }
  }

  lemma {:induction false} HeaderApplied(chain: seq<Block>, b: Block)
    requires Numbered(chain)
    ensures Header(b) in Headers(chain) <==> b.height < |chain| && chain[b.height].hash == b.hash
  {
    if b.height < |chain| { assert Headers(chain)[b.height] == Header(chain[b.height]); }
  }

  lemma {:induction false} NotAppliedStep(applied: seq<AppliedBlock>, node: seq<Block>, lo: nat, hi: nat)
    requires lo < hi <= |node|
    ensures NotApplied(applied, node[lo..hi]) == (if Header(node[lo]) in applied then [] else [node[lo]])
            + NotApplied(applied, node[lo + 1..hi])
    ensures [node[lo]] + node[lo + 1..hi] == node[lo..hi]
  {
    assert node[lo..hi][0] == node[lo] && node[lo..hi][1..] == node[lo + 1..hi];
  }

  lemma {:induction false} NotAppliedIsSuffix(chain: seq<Block>, node: seq<Block>, lo: nat, hi: nat)
    requires Numbered(chain) && Numbered(node) && lo <= hi <= |node|
    requires forall i :: lo <= i < hi && i < |chain| ==> chain[i].hash == node[i].hash
    ensures NotApplied(Headers(chain), node[lo..hi])
            == if |chain| <= lo then node[lo..hi] else if |chain| < hi then node[|chain|..hi] else []
    decreases hi - lo
  {
    hide Headers, Header;
    if lo < hi {
      HeaderApplied(chain, node[lo]);
      NotAppliedStep(Headers(chain), node, lo, hi);
      hide NotApplied;
      NotAppliedIsSuffix(chain, node, lo + 1, hi);
    }
  }

  lemma {:induction false} SharedPrefix(chain: seq<Block>, node: seq<Block>, lo: nat, d: nat)
    requires lo <= d <= |chain| && d <= |node| && chain[..lo] == node[..lo] && HashesIdentify(chain, node)
    requires forall i :: lo <= i < d ==> chain[i].hash == node[i].hash
    ensures chain[..d] == node[..d]
  {
    forall i | 0 <= i < d ensures chain[i] == node[i] {
      if i < lo { assert chain[i] == chain[..lo][i] && node[i] == node[..lo][i]; }
    }
  }

  lemma {:induction false} ApplySuffix(rows: Rows, node: seq<Block>, d: nat, hi: nat)
    requires d < hi <= |node| && ValidChain(node) && Represents(rows, node[..d])
    ensures var out := ApplyBlocks(rows, node[d..hi], WindowLookup(rows.outputs, node[d..hi]));
            out.error.None? && Represents(out.rows, node[..hi])
  {
    hide Represents, ApplyBlocks, WindowLookup;
    assert node[..d] + node[d..hi] == node[..hi];
    ValidPrefix(node, d);
    ValidPrefix(node, hi);
    WindowLookupFits(rows, node[..d], node[d..hi]);
    ApplyBlocksExtends(rows, node[..d], node[d..hi], WindowLookup(rows.outputs, node[d..hi]));
  }

  /** What a window leaves to do: everything from the fork up, or everything above the stored tail. */
  lemma {:induction false} PendingIs(rows: Rows, chain: seq<Block>, node: seq<Block>, lo: nat, hi: nat)
    requires rows.applied == Headers(chain) && Numbered(chain) && Numbered(node)
    requires lo < hi <= |node| && lo <= |chain|
    ensures var d := ForkHeight(chain, node, lo, hi);
            Pending(rows, node[lo..hi]) == if d < hi then (Rewind(rows, d), node[d..hi])
                                           else if |chain| < hi then (rows, node[|chain|..hi])
                                           else (rows, [])
  {
    var w, d := node[lo..hi], ForkHeight(chain, node, lo, hi);
    FirstReorgIsFork(chain, node, lo, hi);
    if d < hi {
      assert w[d - lo] == node[d];
      FromHeightIsSuffix(node, lo, hi, d);
    } else {
      NotAppliedIsSuffix(chain, node, lo, hi);
    }
  }

  lemma {:induction false} WindowEndIs(node: seq<Block>, lo: nat, hi: nat)
    requires Numbered(node) && lo < hi <= |node|
    ensures node[lo..hi] != [] && WindowEnd(node[lo..hi]) == hi - 1
  {
    assert node[lo..hi][hi - lo - 1] == node[hi - 1];
  }

  lemma {:induction false} EmptyPending(rows: Rows, input: seq<Block>)
    requires input != [] && Pending(rows, input) == (rows, [])
    ensures ApplyWindow(rows, input) == (Outcome(rows, None), ApplyResult(false, WindowEnd(input)))
  {}

  lemma {:induction false} SomePending(rows: Rows, input: seq<Block>, start: Rows, pending: seq<Block>)
    requires input != [] && pending != [] && Pending(rows, input) == (start, pending)
    ensures ApplyWindow(rows, input) ==
            (ApplyBlocks(start, pending, WindowLookup(start.outputs, pending)), ApplyResult(true, WindowEnd(pending)))
  {}

  /** Once rewound to a prefix of the node's chain, the rest of the window brings the rows to its end. */
  lemma {:induction false} PendingConverges(rows: Rows, input: seq<Block>, start: Rows, node: seq<Block>, d: nat,
      hi: nat)
    requires ValidChain(node) && d < hi <= |node| && Represents(start, node[..d])
    requires input != [] && Pending(rows, input) == (start, node[d..hi])
    ensures var (out, result) := ApplyWindow(rows, input);
            out.error.None? && Represents(out.rows, node[..hi]) && result == ApplyResult(true, hi - 1)
  {
    assert Numbered(node);
    hide Represents, ValidChain, Numbered, Pending, ApplyBlocks, WindowLookup, WindowEnd, ApplyWindow;
    WindowEndIs(node, d, hi);
    SomePending(rows, input, start, node[d..hi]);
    ApplySuffix(start, node, d, hi);
  }

  /**
   * One window of the node's chain: whatever the fork below it, the rows end up as those of the node's
   * chain applied from genesis to the window end, and no balance check fires on the way.
   */
  lemma {:induction false} WindowConverges(rows: Rows, chain: seq<Block>, node: seq<Block>, lo: nat, hi: nat)
    requires Represents(rows, chain) && ValidChain(chain) && ValidChain(node) && HashesIdentify(chain, node)
    requires lo < hi <= |node| && lo <= |chain| && chain[..lo] == node[..lo]
    ensures var (out, result) := ApplyWindow(rows, node[lo..hi]);
            && out.error.None?
            && Represents(out.rows, ChainAfter(chain, node, lo, hi))
            && result.processTail == hi - 1
            && (!result.applied ==> out.rows == rows)
  {
    hide Headers, Pending, ApplyWindow, Rewind, WindowEnd, WellStamped, Linked, FreshTxids, Events, ValidEvents,
         RunRows, MovementsOf, FactsOf, LedgerOf, Tracks;
    var d := ForkHeight(chain, node, lo, hi);
    assert rows.applied == Headers(chain) && Numbered(chain) && Numbered(node);
    PendingIs(rows, chain, node, lo, hi);
    WindowEndIs(node, lo, hi);
    hide Represents, ValidChain, HashesIdentify, Numbered;
    if d < hi {
      SharedPrefix(chain, node, lo, d);
      RewindRepresents(rows, chain, d);
      PendingConverges(rows, node[lo..hi], Rewind(rows, d), node, d, hi);
    } else if |chain| < hi {
      SharedPrefix(chain, node, lo, |chain|);
      assert chain[..|chain|] == chain;
      PendingConverges(rows, node[lo..hi], rows, node, |chain|, hi);
    } else {
      EmptyPending(rows, node[lo..hi]);
      if |chain| == hi {
        SharedPrefix(chain, node, lo, hi);
        assert chain[..hi] == chain;
      }
    }
  }

  /** Applying A, then B, then rewinding to B's first height restores A's rows, and its balance amounts. */
  lemma {:induction false} RewindUndoesApply(rows: Rows, a: seq<Block>, b: seq<Block>)
    requires Represents(rows, a) && ValidChain(a + b) && b != []
    ensures var undone := Rewind(ApplyWindow(rows, b).0.rows, |a|);
            && undone == rows.(balances := undone.balances)
            && forall x :: x != "" ==> Amount(undone.balances, x) == Amount(rows.balances, x)
  {
    hide ValidChain, ApplyWindow, Rewind, ForkHeight, HashesIdentify, Represents;
    var full := a + b;
    assert full[|a|..|full|] == b && full[..|a|] == a && full[..|full|] == full;
    NoForkInOwnPrefix(a, b);
    ValidPrefix(full, |a|);
    WindowConverges(rows, a, full, |a|, |full|);
    RewindRepresents(ApplyWindow(rows, b).0.rows, full, |a|);
    SameRows(rows, Rewind(ApplyWindow(rows, b).0.rows, |a|), a);
  }

  lemma {:induction false} NoForkInOwnPrefix(a: seq<Block>, b: seq<Block>)
    ensures ForkHeight(a, a + b, |a|, |a + b|) == |a + b| && HashesIdentify(a, a + b)
  {}

  lemma {:induction false} SameRows(x: Rows, y: Rows, chain: seq<Block>)
    requires Represents(x, chain) && Represents(y, chain)
    ensures y == x.(balances := y.balances) && forall a :: a != "" ==> Amount(y.balances, a) == Amount(x.balances, a)
  {
    hide Headers, RunRows, MovementsOf, FactsOf, LedgerOf, Amount;
  }

  lemma {:induction false} NothingPending(rows: Rows, chain: seq<Block>, lo: nat, hi: nat)
    requires rows.applied == Headers(chain) && Numbered(chain) && lo < hi <= |chain|
    ensures Pending(rows, chain[lo..hi]) == (rows, [])
  {
    assert ForkHeight(chain, chain, lo, hi) == hi;
    hide Pending, Headers, Numbered;
    PendingIs(rows, chain, chain, lo, hi);
  }

  /** A window that is already applied changes nothing at all. */
  lemma {:induction false} ReapplyChangesNothing(rows: Rows, chain: seq<Block>, lo: nat, hi: nat)
    requires Represents(rows, chain) && ValidChain(chain) && lo < hi <= |chain|
    ensures ApplyWindow(rows, chain[lo..hi]) == (Outcome(rows, None), ApplyResult(false, hi - 1))
  {
    hide Headers, Pending, ApplyWindow, WindowEnd, WellStamped, Linked, FreshTxids, Events, ValidEvents, RunRows,
         MovementsOf, FactsOf, LedgerOf, Tracks;
    assert rows.applied == Headers(chain) && Numbered(chain);
    hide Represents, ValidChain, Numbered;
    NothingPending(rows, chain, lo, hi);
    WindowEndIs(chain, lo, hi);
    EmptyPending(rows, chain[lo..hi]);
  }

  // ---------------------------------------------------------------- the three ledgers

  function RowsBalance(outputs: seq<Output>, a: Address): int {
    if outputs == [] then 0 else
      RowsBalance(outputs[..|outputs| - 1], a) + Contribution(outputs[|outputs| - 1], a)
  }

  lemma {:induction false} RowsBalanceIs(outputs: seq<Output>, m: Ledger, a: Address)
    requires Holds(outputs, m)
    ensures RowsBalance(outputs, a) == BalanceOf(m, a)
  {
    if outputs == [] {
      HoldsNothing(m);
    } else {
      var o := outputs[|outputs| - 1];
      HoldsFront(outputs, m);
      RowsBalanceIs(outputs[..|outputs| - 1], m - {o.key}, a);
      BalanceSplit(m, a, o.key);
    }
  }

  lemma {:induction false} NetOfEvents(b: Block, es: seq<Event>, look: Ledger, m: Ledger, a: Address)
    requires ValidEvents(m, es) && LookupFits(look, Run(m, es), es) && a != ""
    ensures Net(MovementsFor(b, es, look), a) == BalanceOf(Run(m, es), a) - BalanceOf(m, a)
    decreases es
  {
    if es != [] {
      LookupFitsHead(look, m, es);
      EventMovementFacts([], b, es[0], look, m);
      StepBalance(m, es[0], a);
      NetOfEvents(b, es[1..], look, Step(m, es[0]), a);
      NetConcat(EventMovements(b, es[0], look), MovementsFor(b, es[1..], look), a);
    }
  }

  lemma {:induction false} OwnLookupFits(front: seq<Block>, last: Block)
    requires ValidChain(front + [last])
    ensures LookupFits(LedgerOf(front + [last]), LedgerOf(front + [last]), BlockEvents(last))
  {
    ValidLast(front, last);
    LastBlock(front, last);
    forall s | Consumed(s) in BlockEvents(last) ensures s.key in LedgerOf(front + [last]) {
      SpentKeysExist(LedgerOf(front), BlockEvents(last), s);
    }
  }

  lemma {:induction false} NetOfChain(chain: seq<Block>, a: Address)
    requires ValidChain(chain) && a != ""
    ensures Net(MovementsOf(chain), a) == BalanceOf(LedgerOf(chain), a)
  {
    if chain != [] {
      var front, last := chain[..|chain| - 1], chain[|chain| - 1];
      assert chain == front + [last];
      ValidLast(front, last);
      LastBlock(front, last);
      OwnLookupFits(front, last);
      NetOfChain(front, a);
      NetOfEvents(last, BlockEvents(last), LedgerOf(chain), LedgerOf(front), a);
      NetConcat(MovementsOf(front), BlockMovements(last, LedgerOf(chain)), a);
    }
  }

  /** An address's balance row, its unspent spendable outputs and its movements all say the same amount. */
  lemma {:induction false} LedgersAgree(rows: Rows, chain: seq<Block>, a: Address)
    requires Represents(rows, chain) && ValidChain(chain) && a != ""
    ensures Amount(rows.balances, a) == RowsBalance(rows.outputs, a) == Net(rows.movements, a)
    ensures Amount(rows.balances, a) >= 0
  {
    ChainHolds(chain);
    RowsBalanceIs(rows.outputs, LedgerOf(chain), a);
    NetOfChain(chain, a);
    BalanceNonNegative(LedgerOf(chain), a);
  }

  // ---------------------------------------------------------------- whole runs

  /** A window of some node's chain, or a recovery that drops everything from a height up. */
  datatype Op = Sync(node: seq<Block>, lo: nat, hi: nat) | Recover(from: nat)

  /** The node's chain agrees with the stored one below the window, as the finalized tail guarantees. */
  ghost predicate Legal(chain: seq<Block>, op: Op) {
    match op
    case Sync(node, lo, hi) =>
      && ValidChain(node) && HashesIdentify(chain, node)
      && lo < hi <= |node| && lo <= |chain| && chain[..lo] == node[..lo]
    case Recover(_) => true
  }

  ghost function NextChain(chain: seq<Block>, op: Op): seq<Block>
    requires Legal(chain, op)
  {
    match op
    case Sync(node, lo, hi) => ChainAfter(chain, node, lo, hi)
    case Recover(from) => if from <= |chain| then chain[..from] else chain
  }

  function Perform(rows: Rows, op: Op): Outcome
    requires op.Sync? ==> op.lo <= op.hi <= |op.node|
  {
    match op
    case Sync(node, lo, hi) => ApplyWindow(rows, node[lo..hi]).0
    case Recover(from) => Outcome(Rewind(rows, from), None)
  }

  ghost predicate LegalRun(chain: seq<Block>, ops: seq<Op>)
    decreases ops
  {
    ops == [] || (Legal(chain, ops[0]) && LegalRun(NextChain(chain, ops[0]), ops[1..]))
  }

  ghost function FinalRows(rows: Rows, chain: seq<Block>, ops: seq<Op>): Rows
    requires LegalRun(chain, ops)
    decreases ops
  {
    if ops == [] then rows else FinalRows(Perform(rows, ops[0]).rows, NextChain(chain, ops[0]), ops[1..])
  }

  ghost function FinalChain(chain: seq<Block>, ops: seq<Op>): seq<Block>
    requires LegalRun(chain, ops)
    decreases ops
  {
    if ops == [] then chain else FinalChain(NextChain(chain, ops[0]), ops[1..])
  }

  lemma {:induction false} OpRepresents(rows: Rows, chain: seq<Block>, op: Op)
    requires Represents(rows, chain) && ValidChain(chain) && Legal(chain, op)
    ensures Perform(rows, op).error.None?
    ensures Represents(Perform(rows, op).rows, NextChain(chain, op)) && ValidChain(NextChain(chain, op))
  {
    match op
    case Sync(node, lo, hi) =>
      WindowConverges(rows, chain, node, lo, hi);
      ValidPrefix(node, hi);
    case Recover(from) =>
      if from <= |chain| {
        RewindRepresents(rows, chain, from);
        ValidPrefix(chain, from);
      } else {
        RewindBeyond(rows, chain, from);
      }
  }

  /** After any run of windows, reorgs and recoveries the rows are those of the chain reached, and the ledgers agree. */
  lemma {:induction false} RunsRepresent(rows: Rows, chain: seq<Block>, ops: seq<Op>)
    requires Represents(rows, chain) && ValidChain(chain) && LegalRun(chain, ops)
    ensures Represents(FinalRows(rows, chain, ops), FinalChain(chain, ops)) && ValidChain(FinalChain(chain, ops))
    decreases ops
  {
    if ops != [] {
      OpRepresents(rows, chain, ops[0]);
      hide Represents, ValidChain, Perform, NextChain, Legal;
      RunsRepresent(Perform(rows, ops[0]).rows, NextChain(chain, ops[0]), ops[1..]);
    }
  }

  lemma {:induction false} EmptyRepresents()
    ensures Represents(EMPTY, []) && ValidChain([])
  {
    assert Headers([]) == [];
  }

  lemma {:induction false} LedgersAgreeInEveryRun(ops: seq<Op>, a: Address)
    requires LegalRun([], ops) && a != ""
    ensures var rows := FinalRows(EMPTY, [], ops);
            0 <= Amount(rows.balances, a) == RowsBalance(rows.outputs, a) == Net(rows.movements, a)
  {
    EmptyRepresents();
    RunsRepresent(EMPTY, [], ops);
    LedgersAgree(FinalRows(EMPTY, [], ops), FinalChain([], ops), a);
  }
}
