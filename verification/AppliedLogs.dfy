/**
 * Movements and facts of blocks that were applied without all their prevouts: what they are, and what they still mean.
 */
module AppliedLogs {
  import opened Chain
  import opened Projection
  import opened Store
  import opened StoreProofs
  import opened StoreTheorems
  import opened FactTables
  import opened FactTotals
  import opened BlockRows

  /** Whatever these rows say of an output the events spend is right; they need not know it. */
  ghost predicate LookupTrue(look: Ledger, m: Ledger, es: seq<Event>) {
    forall s :: Consumed(s) in es && s.key in look ==> s.key in m && Terms(look[s.key]) == Terms(m[s.key])
  }

  /** The rows a window was applied with are those of its entry. */
  ghost predicate Sees(l: Lookup, look: Ledger, m: Ledger, es: seq<Event>) {
    match l
    case Whole => LookupFits(look, m, es)
    case Only(rows) => rows == look && LookupTrue(look, m, es)
    case Unsure(rows) => rows == look
  }

  /** Entries below a height stay; those of a window are new, and nothing above it is left over. */
  function LookAfter(looks: Lookups, lo: nat, hi: nat, l: Lookup): Lookups {
    if hi <= lo then map h | h in looks && h < lo :: looks[h] else LookAfter(looks, lo, hi - 1, l)[hi - 1 := l]
  }

  predicate SameBelowHeight(x: Lookups, y: Lookups, h: nat) {
    forall i: nat :: i < h ==> (i in x <==> i in y) && (i in x ==> x[i] == y[i])
  }

  /** Entries that claim to be true are. */
  ghost predicate Truthful(chain: seq<Block>, looks: Lookups) {
    forall h: nat :: h < |chain| && h in looks && looks[h].Only? ==> TrueAt(chain, looks[h].rows, h)
  }

  ghost predicate TrueAt(chain: seq<Block>, look: Ledger, h: nat)
    requires h < |chain|
  {
    LookupTrue(look, LedgerOf(chain[..h + 1]), BlockEvents(chain[h]))
  }

  // ---------------------------------------------------------------- lookups of a longer chain

  lemma {:induction false} LookAfterKeeps(looks: Lookups, lo: nat, hi: nat, l: Lookup)
    ensures SameBelowHeight(looks, LookAfter(looks, lo, hi, l), lo)
    ensures forall h: nat :: lo <= h < hi ==> h in LookAfter(looks, lo, hi, l) && LookAfter(looks, lo, hi, l)[h] == l
    ensures forall h :: h in LookAfter(looks, lo, hi, l) ==> (h < lo && h in looks) || lo <= h < hi
  {
    if hi > lo {
      LookAfterKeeps(looks, lo, hi - 1, l);
    }
  }

  lemma {:induction false} SameLookSameLogs(chain: seq<Block>, x: Lookups, y: Lookups)
    requires SameBelowHeight(x, y, |chain|)
    ensures MovementsOf(chain, x) == MovementsOf(chain, y) && FactsOf(chain, x) == FactsOf(chain, y)
  {
    if chain != [] {
      var n := |chain| - 1;
      assert chain == chain[..n] + [chain[n]];
      SameLookSameLogs(chain[..n], x, y);
      Unfold(chain[..n], chain[n], x);
      Unfold(chain[..n], chain[n], y);
    }
  }

  lemma {:induction false} SameLookSameTruth(chain: seq<Block>, x: Lookups, y: Lookups)
    requires SameBelowHeight(x, y, |chain|) && Truthful(chain, x)
    ensures Truthful(chain, y)
  {
    hide TrueAt;
  }

  lemma {:induction false} TruthPrefix(chain: seq<Block>, looks: Lookups, h: nat)
    requires Truthful(chain, looks) && h <= |chain|
    ensures Truthful(chain[..h], looks)
  {
    forall i: nat | i < h && i in looks && looks[i].Only? ensures TrueAt(chain[..h], looks[i].rows, i) {
      assert TrueAt(chain, looks[i].rows, i) && chain[..h][..i + 1] == chain[..i + 1];
    }
  }

  lemma {:induction false} PrefixTrue(look: Ledger, m: Ledger, es: seq<Event>, rest: seq<Event>)
    requires ValidEvents(m, es) && ValidEvents(Run(m, es), rest)
    requires LookupTrue(look, Run(Run(m, es), rest), es)
    ensures LookupTrue(look, Run(m, es), es)
  {
    forall s | Consumed(s) in es && s.key in look
      ensures s.key in Run(m, es) && Terms(look[s.key]) == Terms(Run(m, es)[s.key])
    {
      SpentKeysExist(m, es, s);
      RunKeepsTerms(Run(m, es), rest, s.key);
    }
  }

  lemma {:induction false} TrueParts(look: Ledger, m: Ledger, x: seq<Event>, y: seq<Event>)
    requires LookupTrue(look, m, x + y)
    ensures LookupTrue(look, m, x) && LookupTrue(look, m, y)
  {
    assert forall e :: e in x || e in y ==> e in x + y;
  }

  lemma {:induction false} SeesFirst(l: Lookup, look: Ledger, chain: seq<Block>, w: seq<Block>)
    requires w != [] && ValidChain(chain + w) && Sees(l, look, LedgerOf(chain + w), Events(w))
    ensures ValidChain(chain + [w[0]])
    ensures Sees(l, look, LedgerOf(chain + [w[0]]), BlockEvents(w[0]))
    ensures Sees(l, look, LedgerOf(chain + w), Events(w[1..]))
  {
    FirstOf(chain, w);
    hide ValidChain, LedgerOf, Run, ValidEvents, Events, LookupFits, LookupTrue;
    match l
    case Whole => LookupFitsFirst(look, chain, w);
    case Only(_) =>
      TrueParts(look, LedgerOf(chain + w), BlockEvents(w[0]), Events(w[1..]));
      PrefixTrue(look, LedgerOf(chain), BlockEvents(w[0]), Events(w[1..]));
    case Unsure(_) =>
  }

  lemma {:induction false} BlockLogs(chain: seq<Block>, b: Block, look: Ledger, looks: Lookups, l: Lookup)
    requires Sees(l, look, LedgerOf(chain + [b]), BlockEvents(b)) && |chain| in looks && looks[|chain|] == l
    ensures MovementsOf(chain + [b], looks) == MovementsOf(chain, looks) + BlockMovements(b, look)
    ensures FactsOf(chain + [b], looks) == FactsOf(chain, looks) + BlockFacts(b, look)
  {
    hide LookupFits, LookupTrue, LedgerOf, BlockMovements, BlockFacts, Events, RunRows;
    Unfold(chain, b, looks);
    if l.Whole? {
      SpendsFit(b, look, LedgerOf(chain + [b]));
      EffectsNeedTermsOnly(b, look, LedgerOf(chain + [b]));
    }
  }

  /** Wherever a window is cut and whatever it saw, its movements and facts are the next ones of the chain. */
  lemma {:induction false} WindowLogs(chain: seq<Block>, w: seq<Block>, look: Ledger, looks: Lookups, l: Lookup)
    requires ValidChain(chain + w) && Sees(l, look, LedgerOf(chain + w), Events(w))
    requires forall h: nat :: |chain| <= h < |chain + w| ==> h in looks && looks[h] == l
    ensures MovementsOf(chain + w, looks) == MovementsOf(chain, looks) + WindowMovements(w, look)
    ensures FactsOf(chain + w, looks) == FactsOf(chain, looks) + WindowFacts(w, look)
    decreases w
  {
    hide ValidChain, Sees, LedgerOf, Events, MovementsOf, FactsOf, BlockMovements, BlockFacts;
    if w == [] {
      assert chain + w == chain;
    } else {
      var next := chain + [w[0]];
      assert chain + w == next + w[1..];
      SeesFirst(l, look, chain, w);
      BlockLogs(chain, w[0], look, looks, l);
      WindowLogs(next, w[1..], look, looks, l);
      AppendTwice(MovementsOf(chain, looks), BlockMovements(w[0], look), WindowMovements(w[1..], look));
      AppendTwice(FactsOf(chain, looks), BlockFacts(w[0], look), WindowFacts(w[1..], look));
    }
  }

  lemma {:induction false} TruthAdvances(chain: seq<Block>, w: seq<Block>, look: Ledger, looks: Lookups, l: Lookup)
    requires ValidChain(chain + w) && Sees(l, look, LedgerOf(chain + w), Events(w)) && Truthful(chain, looks)
    requires forall h: nat :: |chain| <= h < |chain + w| ==> h in looks && looks[h] == l
    ensures Truthful(chain + w, looks)
    decreases w
  {
    hide ValidChain, LookupFits, LookupTrue, LedgerOf, Events;
    if w == [] {
      assert chain + w == chain;
    } else {
      var next := chain + [w[0]];
      assert chain + w == next + w[1..];
      SeesFirst(l, look, chain, w);
      forall h: nat | h < |next| && h in looks && looks[h].Only? ensures TrueAt(next, looks[h].rows, h) {
        if h < |chain| {
          assert TrueAt(chain, looks[h].rows, h) && next[..h + 1] == chain[..h + 1];
        } else {
          assert next[..h + 1] == next;
        }
      }
      TruthAdvances(next, w[1..], look, looks, l);
    }
  }

  /** A window that reads nothing knows what it creates itself, and nothing wrong. */
  lemma {:induction false} OwnCreatesTrue(chain: seq<Block>, w: seq<Block>)
    requires ValidChain(chain + w)
    ensures LookupTrue(map[] + CreatedInWindow(w), LedgerOf(chain + w), Events(w))
  {
    LedgerConcat(chain, w);
    assert map[] + CreatedInWindow(w) == CreatedIn(Events(w));
    hide LedgerOf, Events, ValidEvents, Run, CreatedIn, ValidChain;
    forall s | Consumed(s) in Events(w) && s.key in CreatedIn(Events(w))
      ensures s.key in LedgerOf(chain + w) && Terms(CreatedIn(Events(w))[s.key]) == Terms(LedgerOf(chain + w)[s.key])
    {
      CreatedTerms(LedgerOf(chain), Events(w), s.key);
    }
  }

  // ---------------------------------------------------------------- each movement at most once

  function EventId(e: Event): MovementId {
    match e
    case Created(o) => CreditId(o.key)
    case Consumed(s) => DebitId(s.key, s.spender.txid, s.spender.inputIndex)
  }

  function EventCount(es: seq<Event>, id: MovementId): nat {
    if es == [] then 0 else (if EventId(es[0]) == id then 1 else 0) + EventCount(es[1..], id)
  }

  function IdCount(movements: seq<Movement>, id: MovementId): nat {
    if movements == [] then 0 else
      var n := |movements| - 1;
      IdCount(movements[..n], id) + (if movements[n].id == id then 1 else 0)
  }

  lemma {:induction false} IdCountConcat(x: seq<Movement>, y: seq<Movement>, id: MovementId)
    ensures IdCount(x + y, id) == IdCount(x, id) + IdCount(y, id)
  {
    if y == [] {
      assert x + y == x;
    } else {
      var n := |y| - 1;
      assert (x + y)[..|x + y| - 1] == x + y[..n];
      IdCountConcat(x, y[..n], id);
    }
  }

  lemma {:induction false} EventCountConcat(x: seq<Event>, y: seq<Event>, id: MovementId)
    ensures EventCount(x + y, id) == EventCount(x, id) + EventCount(y, id)
  {
    if x == [] {
      assert x + y == y;
    } else {
      assert (x + y)[0] == x[0] && (x + y)[1..] == x[1..] + y;
      EventCountConcat(x[1..], y, id);
    }
  }

  lemma {:induction false} MovementsCounted(b: Block, es: seq<Event>, look: Ledger, id: MovementId)
    ensures IdCount(MovementsFor(b, es, look), id) <= EventCount(es, id)
  {
    if es != [] {
      MovementsCounted(b, es[1..], look, id);
      var vs := EventMovements(b, es[0], look);
      IdCountConcat(vs, MovementsFor(b, es[1..], look), id);
      if vs != [] { assert vs[..0] == [] && vs == [vs[0]] && vs[0].id == EventId(es[0]); }
    }
  }

  /** A key is created once, and spent once. */
  lemma {:induction false} EventsCounted(m: Ledger, es: seq<Event>, id: MovementId)
    requires ValidEvents(m, es)
    ensures EventCount(es, id) <= 1
    ensures id.key in m && (id.DebitId? ==> m[id.key].spent.Some?) ==> EventCount(es, id) == 0
    decreases es
  {
    if es != [] {
      EventsCounted(Step(m, es[0]), es[1..], id);
    }
  }

  lemma {:induction false} ChainCounted(chain: seq<Block>, looks: Lookups, id: MovementId)
    ensures IdCount(MovementsOf(chain, looks), id) <= EventCount(Events(chain), id)
  {
    if chain != [] {
      var n := |chain| - 1;
      var look := LookAt(looks, n, LedgerOf(chain));
      ChainCounted(chain[..n], looks, id);
      hide LedgerOf;
      IdCountConcat(MovementsOf(chain[..n], looks), BlockMovements(chain[n], look), id);
      EventCountConcat(Events(chain[..n]), BlockEvents(chain[n]), id);
      MovementsCounted(chain[n], BlockEvents(chain[n]), look, id);
    }
  }

  lemma {:induction false} CountsBound(movements: seq<Movement>, u: Movement, v: Movement)
    requires u.id == v.id
    ensures multiset(movements)[u] + (if u == v then 0 else multiset(movements)[v]) <= IdCount(movements, u.id)
  {
    if movements != [] {
      var n := |movements| - 1;
      assert movements == movements[..n] + [movements[n]];
      CountsBound(movements[..n], u, v);
    }
  }

  /** No movement twice, and no two with the same id. */
  ghost predicate OneEach(movements: multiset<Movement>) {
    forall u, v :: u in movements && v in movements && u.id == v.id ==> u == v && movements[u] == 1
  }

  lemma {:induction false} ChainOneEach(chain: seq<Block>, looks: Lookups)
    requires ValidChain(chain)
    ensures OneEach(multiset(MovementsOf(chain, looks)))
  {
    var movements := MovementsOf(chain, looks);
    forall u: Movement, v: Movement | u in multiset(movements) && v in multiset(movements) && u.id == v.id
      ensures u == v && multiset(movements)[u] == 1
    {
      ChainCounted(chain, looks, u.id);
      EventsCounted(map[], Events(chain), u.id);
      CountsBound(movements, u, v);
    }
  }

  lemma {:induction false} NoSharedIds(x: seq<Movement>, y: seq<Movement>, v: Movement)
    requires OneEach(multiset(x + y)) && v in y
    ensures !HasMovement(x, v.id) && forall u <- y :: u.id == v.id ==> u.address == v.address
  {
    assert multiset(x + y) == multiset(x) + multiset(y);
    assert v in multiset(y) && multiset(y)[v] >= 1;
    forall u | u in x ensures u.id != v.id { assert u in multiset(x) && multiset(x)[u] >= 1; }
    forall u | u in y && u.id == v.id ensures u == v { assert u in multiset(y); }
  }

  /** Applying the next block stamps exactly the balances it moves with its height. */
  lemma {:induction false} BlockBalancesStamped(rows: Rows, chain: seq<Block>, b: Block, look: Ledger, a: Address)
    requires Represents(rows, chain) && ValidChain(chain + [b])
             && LookupFits(look, LedgerOf(chain + [b]), BlockEvents(b))
    ensures var row := RowOf(ApplyBlock(rows, b, look).rows.balances, a);
            if exists v <- BlockMovements(b, look) :: v.address == a then row.Some? && row.value.asOf == b.height
            else row == RowOf(rows.balances, a)
  {
    ApplyBlockExtends(rows, chain, b, look);
    ChainOneEach(chain + [b], map[]);
    SpendsFit(b, look, LedgerOf(chain + [b]));
    EffectsNeedTermsOnly(b, look, LedgerOf(chain + [b]));
    Unfold(chain, b);
    var before, added := rows.movements, BlockMovements(b, look);
    hide ValidChain, LedgerOf, BlockMovements, MovementsOf, RowOf, LookupFits, UpsertOutputs, BlockFacts;
    forall v | v in added
      ensures !HasMovement(before, v.id) && forall u <- added :: u.id == v.id ==> u.address == v.address
    {
      NoSharedIds(before, added, v);
    }
    var created := rows.(outputs := UpsertOutputs(rows.outputs, b.creates));
    var spent := SpendOutputs(created, b.spends).rows;
    SpendsKeepRest(created, b.spends);
    MovedRowsStamped(spent, added, b.height, a);
  }

  lemma {:induction false} SpendsKeepRest(rows: Rows, spends: seq<Spend>)
    ensures var after := SpendOutputs(rows, spends).rows;
            after.movements == rows.movements && after.balances == rows.balances
    decreases spends
  {
    if spends != [] && OutputAt(rows.outputs, spends[0].key) != |rows.outputs| {
      SpendsKeepRest(rows.(outputs := SpendOutput(rows.outputs, spends[0])), spends[1..]);
    }
  }

  // ---------------------------------------------------------------- which movements they are

  /** A debit of a block that saw nothing wrong is one of a block that saw everything. */
  lemma {:induction false} TrueDebits(b: Block, look: Ledger, m: Ledger, v: Movement)
    requires LookupTrue(look, m, BlockEvents(b)) && DebitOf(b, look, v)
    ensures DebitOf(b, m, v)
  {
    var s :| s in b.spends && DebitsSpend(v, b, s);
    var i :| 0 <= i < |b.spends| && b.spends[i] == s;
    assert BlockEvents(b)[|b.creates| + i] == Consumed(s);
    var k := s.key;
    assert look[k] == Terms(look[k]).(spent := look[k].spent) && m[k] == Terms(m[k]).(spent := m[k].spent);
  }

  lemma {:induction false} NothingLogged(looks: Lookups)
    ensures MovementsOf([], looks) == [] && FactsOf([], looks) == []
  {}

  /** The movements at one height are those of the block there. */
  lemma {:induction false} MovementsAt(chain: seq<Block>, looks: Lookups, v: Movement)
    requires ValidChain(chain)
    ensures v in MovementsOf(chain, looks) <==>
              && v.height < |chain|
              && v in BlockMovements(chain[v.height], LookAt(looks, v.height, LedgerOf(chain[..v.height + 1])))
  {
    hide ValidChain, LedgerOf, MovementsOf, FactsOf, BlockMovements, BlockFacts, LookAt, WellStamped, Events, RunRows;
    if chain == [] {
      NothingLogged(looks);
    } else {
      var n := |chain| - 1;
      var front, last := chain[..n], chain[n];
      assert chain == front + [last] && chain[..n + 1] == chain;
      ValidLast(front, last);
      MovementsAt(front, looks, v);
      BlockEffectHeights(last, LookAt(looks, n, LedgerOf(chain)));
      Unfold(front, last, looks);
      if v.height < n { assert front[..v.height + 1] == chain[..v.height + 1]; }
    }
  }

  /** The ledger of the chain up to a height, which knows every output spent there. */
  function LedgerAt(chain: seq<Block>, h: nat): Ledger
    requires h < |chain|
  {
    LedgerOf(chain[..h + 1])
  }

  /**
   * Whether a movement is rightly there. The credits are those of the outputs its block creates, the debits those of
   * the outputs it spends, as far as they were known. Unless the rows seen may be wrong, a debit takes from the owner
   * of the output what the output is worth.
   */
  ghost predicate Accounted(v: Movement, kept: bool, chain: seq<Block>, looks: Lookups) {
    if v.height >= |chain| then !kept else
      var b, m := chain[v.height], LedgerAt(chain, v.height);
      && (kept <==> CreditOf(b, v) || DebitOf(b, LookAt(looks, v.height, m), v))
      && (kept && v.direction.Debit? && !(v.height in looks && looks[v.height].Unsure?) ==> DebitOf(b, m, v))
  }

  /** What the movements of a chain are, whatever its blocks were applied with. */
  ghost predicate MovementsSound(movements: multiset<Movement>, chain: seq<Block>, looks: Lookups) {
    OneEach(movements) && forall v :: Accounted(v, v in movements, chain, looks)
  }

  lemma {:induction false} MovementAccounted(chain: seq<Block>, looks: Lookups, v: Movement)
    requires ValidChain(chain) && Truthful(chain, looks)
    ensures Accounted(v, v in MovementsOf(chain, looks), chain, looks)
  {
    MovementsAt(chain, looks, v);
    hide ValidChain, LedgerOf, MovementsOf, BlockMovements, LookupTrue, SomeDebit, TakesFrom;
    if v.height < |chain| {
      var b, m := chain[v.height], LedgerAt(chain, v.height);
      MovementsAre(b, LookAt(looks, v.height, m), v);
      if v.direction.Debit? && v.height in looks && looks[v.height].Only? && DebitOf(b, looks[v.height].rows, v) {
        assert TrueAt(chain, looks[v.height].rows, v.height);
        TrueDebits(b, looks[v.height].rows, m, v);
      }
    }
  }

  lemma {:induction false} ChainMovementsSound(chain: seq<Block>, looks: Lookups)
    requires ValidChain(chain) && Truthful(chain, looks)
    ensures MovementsSound(multiset(MovementsOf(chain, looks)), chain, looks)
  {
    hide ValidChain, Truthful, MovementsOf, OneEach, Accounted;
    ChainOneEach(chain, looks);
    var movements := MovementsOf(chain, looks);
    forall v ensures Accounted(v, v in multiset(movements), chain, looks) {
      MovementAccounted(chain, looks, v);
      assert v in multiset(movements) <==> v in movements;
    }
  }

  // ---------------------------------------------------------------- one fact for each transaction

  lemma {:induction false} FactsAt(chain: seq<Block>, looks: Lookups, f: Fact)
    requires ValidChain(chain)
    ensures f in FactsOf(chain, looks) <==>
              && f.height < |chain|
              && f in BlockFacts(chain[f.height], LookAt(looks, f.height, LedgerOf(chain[..f.height + 1])))
  {
    hide ValidChain, LedgerOf, MovementsOf, FactsOf, BlockMovements, BlockFacts, LookAt, WellStamped, Events, RunRows;
    if chain == [] {
      NothingLogged(looks);
    } else {
      var n := |chain| - 1;
      var front, last := chain[..n], chain[n];
      assert chain == front + [last] && chain[..n + 1] == chain;
      ValidLast(front, last);
      FactsAt(front, looks, f);
      BlockEffectHeights(last, LookAt(looks, n, LedgerOf(chain)));
      Unfold(front, last, looks);
      if f.height < n { assert front[..f.height + 1] == chain[..f.height + 1]; }
    }
  }

  /** The facts of a block are of its height, so those of the last block are of no earlier transaction. */
  lemma {:induction false} FactFresh(front: seq<Block>, last: Block, looks: Lookups, f: Fact, g: Fact)
    requires ValidChain(front + [last]) && f in FactsOf(front, looks)
    requires g in BlockFacts(last, LookAt(looks, |front|, LedgerOf(front + [last])))
    ensures f.txid != g.txid
  {
    var chain := front + [last];
    ValidLast(front, last);
    FactsAt(front, looks, f);
    hide ValidChain, FactsOf, LedgerOf, BlockFacts;
    FactSays(front[f.height], LookAt(looks, f.height, LedgerOf(front[..f.height + 1])), f);
    FactSays(last, LookAt(looks, |front|, LedgerOf(chain)), g);
    assert chain[f.height] == front[f.height] && chain[|front|] == last;
    var o :| o in front[f.height].creates && o.txid == f.txid;
    var p :| p in last.creates && p.txid == g.txid;
    assert o.txid in TxidsOf(chain[f.height]) && p.txid in TxidsOf(chain[|front|]);
  }

  ghost predicate DistinctTxids(facts: seq<Fact>) {
    forall i, j :: 0 <= i < j < |facts| ==> facts[i].txid != facts[j].txid
  }

  lemma {:induction false} JoinDistinct(x: seq<Fact>, y: seq<Fact>)
    requires DistinctTxids(x) && DistinctTxids(y) && forall f, g :: f in x && g in y ==> f.txid != g.txid
    ensures DistinctTxids(x + y)
  {
    forall i: nat, j: nat | i < j < |x + y| ensures (x + y)[i].txid != (x + y)[j].txid {
      if i < |x| <= j { assert x[i] in x && y[j - |x|] in y; }
    }
  }

  lemma {:induction false} FactsDistinct(chain: seq<Block>, looks: Lookups)
    requires ValidChain(chain)
    ensures DistinctTxids(FactsOf(chain, looks))
  {
    hide ValidChain, LedgerOf, BlockFacts, DistinctTxids, FactsOf;
    if chain == [] {
      NothingLogged(looks);
      NoFactsDistinct();
    } else {
      var n := |chain| - 1;
      var front, last, look := chain[..n], chain[n], LookAt(looks, n, LedgerOf(chain));
      assert chain == front + [last];
      ValidPrefix(chain, n);
      FactsDistinct(front, looks);
      Unfold(front, last, looks);
      BlockFactsDistinct(last, look);
      forall f, g | f in FactsOf(front, looks) && g in BlockFacts(last, look) ensures f.txid != g.txid {
        FactFresh(front, last, looks, f, g);
      }
      JoinDistinct(FactsOf(front, looks), BlockFacts(last, look));
    }
  }

  lemma {:induction false} NoFactsDistinct()
    ensures DistinctTxids([])
  {}

  lemma {:induction false} BlockFactsDistinct(b: Block, look: Ledger)
    ensures DistinctTxids(BlockFacts(b, look))
  {
    FactsCover(b, look);
  }

  lemma {:induction false} DistinctOnce(facts: seq<Fact>, f: Fact)
    requires f in facts && DistinctTxids(facts)
    ensures multiset(facts)[f] == 1 && forall g <- facts :: g.txid == f.txid ==> g == f
  {
    var i :| 0 <= i < |facts| && facts[i] == f;
    assert facts == facts[..i] + [f] + facts[i + 1..];
    assert f !in facts[..i] && f !in facts[i + 1..];
  }

  /** A fact describes a transaction of its block, with what was known of its inputs; all of it where all was known. */
  ghost predicate FactRight(f: Fact, chain: seq<Block>, looks: Lookups) {
    && f.height < |chain| && Describes(f, chain[f.height])
    && f.totalInput == SpentIn(chain[f.height].spends, {f.txid}, LookAt(looks, f.height, LedgerAt(chain, f.height)))
  }

  ghost predicate HasFact(facts: multiset<Fact>, h: nat, txid: string) {
    exists f :: f in facts && f.height == h && f.txid == txid
  }

  /** One fact for each transaction that creates an output, and nothing else. */
  ghost predicate FactsSound(facts: multiset<Fact>, chain: seq<Block>, looks: Lookups) {
    && (forall f <- facts :: facts[f] == 1 && FactRight(f, chain, looks))
    && (forall f, g :: f in facts && g in facts && f.txid == g.txid ==> f == g)
    && (forall h: nat, o :: h < |chain| && o in chain[h].creates ==> HasFact(facts, h, o.txid))
  }

  lemma {:induction false} FactIsRight(chain: seq<Block>, looks: Lookups, f: Fact)
    requires ValidChain(chain) && f in FactsOf(chain, looks)
    ensures FactRight(f, chain, looks)
  {
    FactsAt(chain, looks, f);
    hide ValidChain, FactsOf, BlockFacts, LedgerOf, Describes;
    FactSays(chain[f.height], LookAt(looks, f.height, LedgerAt(chain, f.height)), f);
  }

  lemma {:induction false} FactIsThere(chain: seq<Block>, looks: Lookups, h: nat, o: Output)
    requires ValidChain(chain) && h < |chain| && o in chain[h].creates
    ensures HasFact(multiset(FactsOf(chain, looks)), h, o.txid)
  {
    StampsOf(chain);
    hide ValidChain, FactsOf, BlockFacts, LedgerOf;
    var look := LookAt(looks, h, LedgerAt(chain, h));
    FactsCover(chain[h], look);
    var f :| f in BlockFacts(chain[h], look) && f.txid == o.txid;
    FactHeight(chain[h], look, f);
    FactsAt(chain, looks, f);
    assert f in multiset(FactsOf(chain, looks));
  }

  lemma {:induction false} ChainFactsSound(chain: seq<Block>, looks: Lookups)
    requires ValidChain(chain)
    ensures FactsSound(multiset(FactsOf(chain, looks)), chain, looks)
  {
    hide ValidChain, FactsOf, FactRight, HasFact, DistinctTxids;
    var facts := FactsOf(chain, looks);
    FactsDistinct(chain, looks);
    forall f | f in facts
      ensures multiset(facts)[f] == 1 && FactRight(f, chain, looks) && forall g <- facts :: g.txid == f.txid ==> g == f
    {
      DistinctOnce(facts, f);
      FactIsRight(chain, looks, f);
    }
    forall h: nat, o | h < |chain| && o in chain[h].creates ensures HasFact(multiset(facts), h, o.txid) {
      FactIsThere(chain, looks, h, o);
    }
  }

  lemma {:induction false} FactHeight(b: Block, look: Ledger, f: Fact)
    requires f in BlockFacts(b, look)
    ensures f.height == b.height
  {}

  lemma {:induction false} StampsOf(chain: seq<Block>)
    requires ValidChain(chain)
    ensures forall i :: 0 <= i < |chain| ==> chain[i].height == i
  {}
}
