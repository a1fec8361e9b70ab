/** The in-memory rows always represent a chain: apply, reorg and rewind move between represented chains. */
module StoreProofs {
  import opened Chain
  import opened Balances
  import opened Projection
  import opened Store

  // ---------------------------------------------------------------- output rows against the ledger

  function StepRows(outputs: seq<Output>, e: Event): seq<Output> {
    match e
    case Created(o) => UpsertOutput(outputs, o)
    case Consumed(s) => SpendOutput(outputs, s)
  }

  function RunRows(outputs: seq<Output>, es: seq<Event>): seq<Output>
    decreases es
  {
    if es == [] then outputs else RunRows(StepRows(outputs, es[0]), es[1..])
  }

  /** The rows hold exactly the entries of the ledger, one row a key. */
  ghost predicate Holds(outputs: seq<Output>, m: Ledger) {
    && (forall i, j :: 0 <= i < j < |outputs| ==> outputs[i].key != outputs[j].key)
    && (forall i :: 0 <= i < |outputs| ==> outputs[i].key in m && m[outputs[i].key] == outputs[i])
    && (forall k :: k in m ==> m[k].key == k && OutputAt(outputs, k) < |outputs|)
  }

  lemma {:induction false} HoldsCreate(outputs: seq<Output>, m: Ledger, o: Output)
    requires Holds(outputs, m) && o.key !in m
    ensures OutputAt(outputs, o.key) == |outputs| && Holds(outputs + [o], m[o.key := o])
  {
    var next := outputs + [o];
    assert OutputAt(outputs, o.key) == |outputs|;
    forall k | k in m[o.key := o] ensures m[o.key := o][k].key == k && OutputAt(next, k) < |next| {
      if k != o.key { assert next[OutputAt(outputs, k)].key == k; } else { assert next[|outputs|].key == k; }
    }
  }

  lemma {:induction false} HoldsSpend(outputs: seq<Output>, m: Ledger, s: Spend)
    requires Holds(outputs, m) && s.key in m
    ensures Holds(SpendOutput(outputs, s), m[s.key := m[s.key].(spent := Some(s.spender))])
  {
    var next, n := SpendOutput(outputs, s), m[s.key := m[s.key].(spent := Some(s.spender))];
    forall k | k in n ensures n[k].key == k && OutputAt(next, k) < |next| {
      assert k in m && next[OutputAt(outputs, k)].key == k;
    }
  }

  lemma {:induction false} HoldsStep(outputs: seq<Output>, m: Ledger, e: Event)
    requires Holds(outputs, m) && ValidEvent(m, e)
    ensures Holds(StepRows(outputs, e), Step(m, e))
  {
    hide Holds, OutputAt, SpendOutput;
    match e
    case Created(o) => HoldsCreate(outputs, m, o);
    case Consumed(s) => HoldsSpend(outputs, m, s);
  }

  lemma {:induction false} HoldsRun(outputs: seq<Output>, m: Ledger, es: seq<Event>)
    requires Holds(outputs, m) && ValidEvents(m, es)
    ensures Holds(RunRows(outputs, es), Run(m, es))
    decreases es
  {
    if es != [] {
      HoldsStep(outputs, m, es[0]);
      HoldsRun(StepRows(outputs, es[0]), Step(m, es[0]), es[1..]);
    }
  }

  lemma {:induction false} RunRowsConcat(outputs: seq<Output>, a: seq<Event>, b: seq<Event>)
    ensures RunRows(outputs, a + b) == RunRows(RunRows(outputs, a), b)
    decreases a
  {
    if a == [] {
      assert a + b == b;
    } else {
      assert (a + b)[0] == a[0] && (a + b)[1..] == a[1..] + b;
      RunRowsConcat(StepRows(outputs, a[0]), a[1..], b);
    }
  }

  lemma {:induction false} UpsertsAreRun(outputs: seq<Output>, creates: seq<Output>)
    ensures UpsertOutputs(outputs, creates) == RunRows(outputs, CreateEvents(creates))
    decreases creates
  {
    if creates != [] {
      assert CreateEvents(creates)[1..] == CreateEvents(creates[1..]);
      UpsertsAreRun(UpsertOutput(outputs, creates[0]), creates[1..]);
    }
  }

  lemma {:induction false} SpendsAreRun(rows: Rows, m: Ledger, spends: seq<Spend>)
    requires Holds(rows.outputs, m) && ValidEvents(m, SpendEvents(spends))
    ensures SpendOutputs(rows, spends) == Outcome(rows.(outputs := RunRows(rows.outputs, SpendEvents(spends))), None)
    decreases spends
  {
    if spends != [] {
      var es := SpendEvents(spends);
      assert es[1..] == SpendEvents(spends[1..]);
      assert ValidEvent(m, es[0]) && spends[0].key in m;
      HoldsStep(rows.outputs, m, es[0]);
      SpendsAreRun(rows.(outputs := SpendOutput(rows.outputs, spends[0])), Step(m, es[0]), spends[1..]);
    }
  }

  // ---------------------------------------------------------------- movements and balances against the ledger

  /** Recorded ids are exactly those of things that have already happened in m. */
  predicate IdsOf(movements: seq<Movement>, m: Ledger) {
    forall v <- movements :: match v.id
      case CreditId(k) => k in m
      case DebitId(k, _, _) => k in m && m[k].spent.Some?
  }

  ghost predicate Tracks(balances: seq<BalanceRow>, m: Ledger) {
    forall a :: a != "" ==> Amount(balances, a) == BalanceOf(m, a)
  }

  ghost predicate LookupFits(look: Ledger, m: Ledger, es: seq<Event>) {
    forall s :: Consumed(s) in es ==> s.key in look && s.key in m && Terms(look[s.key]) == Terms(m[s.key])
  }

  lemma {:induction false} SetBalanceAmount(balances: seq<BalanceRow>, a: Address, amount: int, asOf: int, x: Address)
    ensures Amount(SetBalance(balances, a, amount, asOf), x) == if x == a then amount else Amount(balances, x)
  {
    var after := SetBalance(balances, a, amount, asOf);
    var i, j := BalanceAt(balances, a), BalanceAt(after, x);
    if x == a {
      assert after[i].address == a;
      assert j == i;
    } else {
      var k := BalanceAt(balances, x);
      if k < |balances| { assert after[k].address == x; assert j == k; }
    }
  }

  // ---------------------------------------------------------------- since when a balance holds

  /** The balance row of an address, if it has one. */
  function RowOf(balances: seq<BalanceRow>, a: Address): Option<BalanceRow> {
    var i := BalanceAt(balances, a);
    if i < |balances| then Some(balances[i]) else None
  }

  lemma {:induction false} SetRow(balances: seq<BalanceRow>, a: Address, amount: int, asOf: int, x: Address)
    ensures RowOf(SetBalance(balances, a, amount, asOf), x)
            == if x == a then Some(BalanceRow(a, amount, asOf)) else RowOf(balances, x)
  {
    var after := SetBalance(balances, a, amount, asOf);
    var i, j := BalanceAt(balances, a), BalanceAt(after, x);
    if x == a {
      assert after[i].address == a;
      assert i == j;
    } else {
      var k := BalanceAt(balances, x);
      if k < |balances| { assert after[k].address == x; }
      if j < |after| { assert j < |balances| ==> balances[j].address == x; }
    }
  }

  predicate MovesAddress(rows: Rows, movements: seq<Movement>, a: Address) {
    exists v <- movements :: v.address == a && !HasMovement(rows.movements, v.id)
  }

  /** Recording movements stamps the balances they move with the height of their block, and leaves the others alone. */
  lemma {:induction false} MovedRowsStamped(rows: Rows, movements: seq<Movement>, height: nat, a: Address)
    requires AddMovements(rows, movements, height).error.None?
    requires forall u, v :: u in movements && v in movements && u.id == v.id ==> u.address == v.address
    ensures var row := RowOf(AddMovements(rows, movements, height).rows.balances, a);
            if MovesAddress(rows, movements, a) then row.Some? && row.value.asOf == height
            else row == RowOf(rows.balances, a)
    decreases movements
  {
    hide SetBalance, RowOf, HasMovement, Amount;
    if movements != [] {
      var v, rest := movements[0], movements[1..];
      assert forall u :: u in movements <==> u == v || u in rest;
      if HasMovement(rows.movements, v.id) {
        MovedRowsStamped(rows, rest, height, a);
      } else {
        var next := Amount(rows.balances, v.address) + SignedAmount(v);
        var after := rows.(movements := rows.movements + [v],
                           balances := SetBalance(rows.balances, v.address, next, height));
        MovedRowsStamped(after, rest, height, a);
        SetRow(rows.balances, v.address, next, height, a);
        forall u: Movement
          ensures HasMovement(after.movements, u.id) <==> HasMovement(rows.movements, u.id) || u.id == v.id
        {
          OneMoreMovement(rows.movements, v, u.id);
        }
      }
    }
  }

  lemma {:induction false} OneMoreMovement(movements: seq<Movement>, v: Movement, id: MovementId)
    ensures HasMovement(movements + [v], id) <==> HasMovement(movements, id) || id == v.id
  {
    assert v in movements + [v];
    assert forall u :: u in movements ==> u in movements + [v];
  }

  /** Rebuilt balances all hold as of the same height. */
  lemma {:induction false} RebuiltRowsStamped(outputs: seq<Output>, asOf: int)
    ensures forall r <- RebuiltBalances(outputs, asOf) :: r.asOf == asOf
  {
    if outputs != [] {
      RebuiltRowsStamped(outputs[..|outputs| - 1], asOf);
    }
  }

  /** Movements and balances are in step with the ledger m. */
  ghost predicate InStep(rows: Rows, m: Ledger) {
    NonNegative(m) && IdsOf(rows.movements, m) && Tracks(rows.balances, m)
  }

  /** The outcome adds exactly these movements, changes nothing else but balances, and is in step with m. */
  ghost predicate Adds(out: Outcome, rows: Rows, movements: seq<Movement>, m: Ledger) {
    && out.error.None?
    && out.rows == rows.(movements := rows.movements + movements, balances := out.rows.balances)
    && InStep(out.rows, m)
  }

  /** An event has at most one movement; it is new, and it is the whole balance change. */
  lemma {:induction false} EventMovementFacts(movements: seq<Movement>, b: Block, e: Event, look: Ledger, m: Ledger)
    requires ValidEvent(m, e) && IdsOf(movements, m)
    requires e.Consumed? ==> e.spend.key in look && Terms(look[e.spend.key]) == Terms(m[e.spend.key])
    ensures var vs := EventMovements(b, e, look);
            && |vs| <= 1
            && (forall v <- vs :: v.address != "" && !HasMovement(movements, v.id))
            && (forall a :: a != "" ==> EventDelta(m, e, a) == Net(vs, a))
  {
    var vs := EventMovements(b, e, look);
    if e.Consumed? {
      var k := e.spend.key;
      assert look[k] == Terms(look[k]).(spent := look[k].spent) && m[k] == Terms(m[k]).(spent := m[k].spent);
    }
    if vs != [] {
      assert vs == [vs[0]] && vs[..0] == [];
    }
  }

  lemma {:induction false} IdsStep(movements: seq<Movement>, b: Block, e: Event, look: Ledger, m: Ledger)
    requires ValidEvent(m, e) && IdsOf(movements, m)
    ensures IdsOf(movements + EventMovements(b, e, look), Step(m, e))
  {}

  lemma {:induction false} NetOne(v: Movement, a: Address)
    ensures Net([v], a) == if a == v.address then SignedAmount(v) else 0
  {
    assert [v][..0] == [];
  }

  lemma {:induction false} TracksStep(balances: seq<BalanceRow>, v: Movement, asOf: int, m: Ledger, e: Event)
    requires ValidEvent(m, e) && Tracks(balances, m) && v.address != ""
    requires forall a :: a != "" ==> EventDelta(m, e, a) == Net([v], a)
    ensures Tracks(SetBalance(balances, v.address, Amount(balances, v.address) + SignedAmount(v), asOf), Step(m, e))
    ensures Amount(balances, v.address) + SignedAmount(v) == BalanceOf(Step(m, e), v.address)
  {
    var next := Amount(balances, v.address) + SignedAmount(v);
    NetOne(v, v.address);
    StepBalance(m, e, v.address);
    forall a | a != "" ensures Amount(SetBalance(balances, v.address, next, asOf), a) == BalanceOf(Step(m, e), a) {
      NetOne(v, a);
      StepBalance(m, e, a);
      SetBalanceAmount(balances, v.address, next, asOf, a);
    }
  }

  lemma {:induction false} StepNonNegative(m: Ledger, e: Event)
    requires ValidEvent(m, e) && NonNegative(m)
    ensures NonNegative(Step(m, e))
  {}

  lemma {:induction false} AddOneMovement(rows: Rows, b: Block, e: Event, look: Ledger, m: Ledger)
    requires ValidEvent(m, e) && InStep(rows, m)
    requires e.Consumed? ==> e.spend.key in look && Terms(look[e.spend.key]) == Terms(m[e.spend.key])
    ensures Adds(AddMovements(rows, EventMovements(b, e, look), b.height), rows, EventMovements(b, e, look), Step(m, e))
  {
    var vs, n := EventMovements(b, e, look), Step(m, e);
    StepNonNegative(m, e);
    IdsStep(rows.movements, b, e, look, m);
    EventMovementFacts(rows.movements, b, e, look, m);
    if vs == [] {
      assert rows.movements + vs == rows.movements;
      forall a | a != "" ensures Amount(rows.balances, a) == BalanceOf(n, a) { StepBalance(m, e, a); }
    } else {
      var v := vs[0];
      assert vs == [v] && vs[1..] == [] && v in vs;
      TracksStep(rows.balances, v, b.height, m, e);
      BalanceNonNegative(n, v.address);
    }
  }

  lemma {:induction false} AddMovementsConcat(rows: Rows, x: seq<Movement>, y: seq<Movement>, height: nat)
    requires AddMovements(rows, x, height).error.None?
    ensures AddMovements(rows, x + y, height) == AddMovements(AddMovements(rows, x, height).rows, y, height)
    decreases x
  {
    if x == [] {
      assert x + y == y;
    } else {
      assert (x + y)[0] == x[0] && (x + y)[1..] == x[1..] + y;
      var v := x[0];
      if HasMovement(rows.movements, v.id) {
        AddMovementsConcat(rows, x[1..], y, height);
      } else {
        var next := Amount(rows.balances, v.address) + SignedAmount(v);
        var after := rows.(movements := rows.movements + [v],
          balances := SetBalance(rows.balances, v.address, next, height));
        AddMovementsConcat(after, x[1..], y, height);
      }
    }
  }

  lemma {:induction false} AddsCompose(rows: Rows, one: Outcome, two: Outcome, x: seq<Movement>, y: seq<Movement>,
      m: Ledger, n: Ledger)
    requires Adds(one, rows, x, m) && Adds(two, one.rows, y, n)
    ensures Adds(two, rows, x + y, n)
  {
    assert rows.movements + x + y == rows.movements + (x + y);
  }

  lemma {:induction false} LookupFitsHead(look: Ledger, m: Ledger, es: seq<Event>)
    requires es != [] && ValidEvents(m, es) && LookupFits(look, Run(m, es), es)
    ensures es[0].Consumed? ==> es[0].spend.key in look && Terms(look[es[0].spend.key]) == Terms(m[es[0].spend.key])
    ensures LookupFits(look, Run(Step(m, es[0]), es[1..]), es[1..])
  {
    if es[0].Consumed? {
      assert Consumed(es[0].spend) in es;
      RunKeepsTerms(m, es, es[0].spend.key);
    }
    forall s | Consumed(s) in es[1..] ensures Consumed(s) in es {}
  }

  /** No balance ever goes negative, no movement is a repeat, and the balances follow the ledger. */
  lemma {:induction false} MovementsTrack(rows: Rows, b: Block, es: seq<Event>, look: Ledger, m: Ledger)
    requires ValidEvents(m, es) && InStep(rows, m) && LookupFits(look, Run(m, es), es)
    ensures Adds(AddMovements(rows, MovementsFor(b, es, look), b.height), rows, MovementsFor(b, es, look), Run(m, es))
    decreases es
  {
    if es == [] {
      assert rows.movements + [] == rows.movements;
    } else {
      var e, n := es[0], Step(m, es[0]);
      var here, rest := EventMovements(b, e, look), MovementsFor(b, es[1..], look);
      LookupFitsHead(look, m, es);
      AddOneMovement(rows, b, e, look, m);
      var one := AddMovements(rows, here, b.height);
      AddMovementsConcat(rows, here, rest, b.height);
      MovementsTrack(one.rows, b, es[1..], look, n);
      AddsCompose(rows, one, AddMovements(one.rows, rest, b.height), here, rest, n, Run(m, es));
    }
  }

  // ---------------------------------------------------------------- rows that represent a chain

  function Headers(chain: seq<Block>): (hs: seq<AppliedBlock>)
    ensures |hs| == |chain| && forall i :: 0 <= i < |chain| ==> hs[i] == Header(chain[i])
  {
    seq(|chain|, i requires 0 <= i < |chain| => Header(chain[i]))
  }

  /** The rows are those of this chain; balances are compared by amount, a missing row counting as zero. */
  ghost predicate Represents(rows: Rows, chain: seq<Block>) {
    && rows.applied == Headers(chain)
    && rows.outputs == RunRows([], Events(chain))
    && rows.movements == MovementsOf(chain)
    && rows.facts == FactsOf(chain)
    && Tracks(rows.balances, LedgerOf(chain))
  }

  lemma {:induction false} ChainHolds(chain: seq<Block>)
    requires ValidChain(chain)
    ensures Holds(RunRows([], Events(chain)), LedgerOf(chain))
    ensures NonNegative(LedgerOf(chain))
  {
    HoldsRun([], map[], Events(chain));
    RunNonNegative(map[], Events(chain));
  }

  lemma {:induction false} IdsRun(movements: seq<Movement>, b: Block, es: seq<Event>, look: Ledger, m: Ledger)
    requires ValidEvents(m, es) && IdsOf(movements, m)
    ensures IdsOf(movements + MovementsFor(b, es, look), Run(m, es))
    decreases es
  {
    if es == [] {
      assert movements + [] == movements;
    } else {
      var here := EventMovements(b, es[0], look);
      IdsStep(movements, b, es[0], look, m);
      IdsRun(movements + here, b, es[1..], look, Step(m, es[0]));
      assert movements + here + MovementsFor(b, es[1..], look) == movements + (here + MovementsFor(b, es[1..], look));
    }
  }

  lemma {:induction false} ChainIds(chain: seq<Block>)
    requires ValidChain(chain)
    ensures IdsOf(MovementsOf(chain), LedgerOf(chain))
  {
    if chain != [] {
      var front, last := chain[..|chain| - 1], chain[|chain| - 1];
      LastBlock(front, last);
      assert chain == front + [last];
      ValidPrefix(chain, |chain| - 1);
      ChainIds(front);
      IdsRun(MovementsOf(front), last, BlockEvents(last), LedgerOf(chain), LedgerOf(front));
    }
  }

  lemma {:induction false} LastBlock(front: seq<Block>, last: Block)
    ensures LedgerOf(front + [last]) == Run(LedgerOf(front), BlockEvents(last))
    ensures Events(front + [last]) == Events(front) + BlockEvents(last)
    ensures ValidChain(front + [last]) ==> ValidEvents(LedgerOf(front), BlockEvents(last))
  {
    SingleBlockEvents(last);
    LedgerConcat(front, [last]);
    EventsConcat(front, [last]);
  }

  // ---------------------------------------------------------------- facts

  lemma {:induction false} FactOrigin(chain: seq<Block>, f: Fact) returns (o: Output)
    requires f in FactsOf(chain) && forall i :: 0 <= i < |chain| ==> chain[i].height == i
    ensures f.height < |chain| && o in chain[f.height].creates && o.txid == f.txid
  {
    var n := |chain| - 1;
    var more := BlockFacts(chain[n], LedgerOf(chain));
    if f in more {
      var i :| 0 <= i < |more| && more[i] == f;
      assert f.txid in CreatingTxids(chain[n].creates);
      o :| o in chain[n].creates && o.txid == f.txid;
    } else {
      o := FactOrigin(chain[..n], f);
    }
  }

  lemma {:induction false} FactAtAppend(facts: seq<Fact>, f: Fact, txid: string)
    requires FactAt(facts, txid) == |facts| && f.txid != txid
    ensures FactAt(facts + [f], txid) == |facts + [f]|
  {}

  /** None of these facts is there yet, and none repeats another. */
  ghost predicate FreshFacts(facts: seq<Fact>, more: seq<Fact>) {
    && (forall j :: 0 <= j < |more| ==> FactAt(facts, more[j].txid) == |facts|)
    && (forall i, j :: 0 <= i < j < |more| ==> more[i].txid != more[j].txid)
  }

  lemma {:induction false} FreshFactsStep(facts: seq<Fact>, more: seq<Fact>)
    requires FreshFacts(facts, more) && more != []
    ensures UpsertFact(facts, more[0]) == facts + [more[0]] && FreshFacts(facts + [more[0]], more[1..])
  {
    hide FactAt;
    forall j | 0 <= j < |more[1..]| ensures FactAt(facts + [more[0]], more[1..][j].txid) == |facts + [more[0]]| {
      assert more[1..][j] == more[j + 1];
      FactAtAppend(facts, more[0], more[j + 1].txid);
    }
  }

  lemma {:induction false} FreshFactsAppend(facts: seq<Fact>, more: seq<Fact>)
    requires FreshFacts(facts, more)
    ensures UpsertFacts(facts, more) == facts + more
    decreases more
  {
    hide FreshFacts, UpsertFact;
    if more == [] {
      assert facts + more == facts;
    } else {
      FreshFactsStep(facts, more);
      FreshFactsAppend(facts + [more[0]], more[1..]);
      assert (facts + [more[0]]) + more[1..] == facts + more;
    }
  }

  lemma {:induction false} FreshTxid(chain: seq<Block>, b: Block, o: Output, p: Output, i: nat)
    requires FreshTxids(chain + [b]) && i < |chain| && o in chain[i].creates && p in b.creates
    ensures o.txid != p.txid
  {
    var full := chain + [b];
    assert full[i] == chain[i] && full[|chain|] == b;
    assert o.txid in TxidsOf(full[i]) && p.txid in TxidsOf(b);
  }

  lemma {:induction false} NewFactsAppend(chain: seq<Block>, b: Block, look: Ledger)
    requires FreshTxids(chain + [b]) && forall i :: 0 <= i < |chain| ==> chain[i].height == i
    ensures UpsertFacts(FactsOf(chain), BlockFacts(b, look)) == FactsOf(chain) + BlockFacts(b, look)
  {
    var facts, more := FactsOf(chain), BlockFacts(b, look);
    forall j | 0 <= j < |more| ensures FactAt(facts, more[j].txid) == |facts| {
      var i := FactAt(facts, more[j].txid);
      if i < |facts| {
        var o := FactOrigin(chain, facts[i]);
        assert CreatingTxids(b.creates)[j] in CreatingTxids(b.creates);
        var p :| p in b.creates && p.txid == more[j].txid;
        FreshTxid(chain, b, o, p, facts[i].height);
      }
    }
    FreshFactsAppend(facts, more);
  }

  // ---------------------------------------------------------------- applying blocks

  lemma {:induction false} OutputsAdvance(rows: Rows, m: Ledger, b: Block)
    requires Holds(rows.outputs, m) && ValidEvents(m, BlockEvents(b))
    ensures SpendOutputs(rows.(outputs := UpsertOutputs(rows.outputs, b.creates)), b.spends)
            == Outcome(rows.(outputs := RunRows(rows.outputs, BlockEvents(b))), None)
  {
    var created := rows.(outputs := UpsertOutputs(rows.outputs, b.creates));
    RunConcat(m, CreateEvents(b.creates), SpendEvents(b.spends));
    UpsertsAreRun(rows.outputs, b.creates);
    HoldsRun(rows.outputs, m, CreateEvents(b.creates));
    SpendsAreRun(created, Run(m, CreateEvents(b.creates)), b.spends);
    RunRowsConcat(rows.outputs, CreateEvents(b.creates), SpendEvents(b.spends));
  }

  lemma {:induction false} SpendsFit(b: Block, look: Ledger, m: Ledger)
    requires LookupFits(look, m, BlockEvents(b))
    ensures SameTerms(b.spends, look, m)
  {
    forall s | s in b.spends ensures Consumed(s) in BlockEvents(b) {
      var i :| 0 <= i < |b.spends| && b.spends[i] == s;
      assert BlockEvents(b)[|b.creates| + i] == Consumed(s);
    }
  }

  lemma {:induction false} HeadersExtend(chain: seq<Block>, b: Block)
    requires forall i :: 0 <= i < |chain| ==> chain[i].height == i
    requires b.height == |chain|
    ensures AppendApplied(Headers(chain), Header(b)) == Headers(chain + [b])
  {
    assert Headers(chain + [b]) == Headers(chain) + [Header(b)];
  }

  lemma {:induction false} ValidLast(chain: seq<Block>, b: Block)
    requires ValidChain(chain + [b])
    ensures ValidChain(chain) && ValidEvents(LedgerOf(chain), BlockEvents(b)) && FreshTxids(chain + [b])
    ensures b.height == |chain| && WellStamped(b) && forall i :: 0 <= i < |chain| ==> chain[i].height == i
  {
    var full := chain + [b];
    ValidPrefix(full, |chain|);
    assert full[..|chain|] == chain && full[|chain|] == b;
    LastBlock(chain, b);
  }

  lemma {:induction false} Unfold(chain: seq<Block>, b: Block, looks: Lookups := map[])
    ensures var m := LookAt(looks, |chain|, LedgerOf(chain + [b]));
            && MovementsOf(chain + [b], looks) == MovementsOf(chain, looks) + BlockMovements(b, m)
            && FactsOf(chain + [b], looks) == FactsOf(chain, looks) + BlockFacts(b, m)
    ensures RunRows([], Events(chain + [b])) == RunRows(RunRows([], Events(chain)), BlockEvents(b))
  {
    var full := chain + [b];
    assert full[..|full| - 1] == chain && full[|full| - 1] == b;
    LastBlock(chain, b);
    RunRowsConcat([], Events(chain), BlockEvents(b));
  }

  /** One more block of a valid chain is applied without an error, and the rows represent the longer chain. */
  lemma {:induction false} ApplyBlockExtends(rows: Rows, chain: seq<Block>, b: Block, look: Ledger)
    requires Represents(rows, chain) && ValidChain(chain + [b])
    requires LookupFits(look, LedgerOf(chain + [b]), BlockEvents(b))
    ensures ApplyBlock(rows, b, look).error.None?
    ensures Represents(ApplyBlock(rows, b, look).rows, chain + [b])
  {
    var m := LedgerOf(chain);
    ValidLast(chain, b);
    LastBlock(chain, b);
    ChainHolds(chain);
    OutputsAdvance(rows, m, b);
    var spent := rows.(outputs := RunRows(rows.outputs, BlockEvents(b)));
    ChainIds(chain);
    MovementsTrack(spent, b, BlockEvents(b), look, m);
    SpendsFit(b, look, LedgerOf(chain + [b]));
    EffectsNeedTermsOnly(b, look, LedgerOf(chain + [b]));
    NewFactsAppend(chain, b, look);
    HeadersExtend(chain, b);
    Unfold(chain, b);
  }
}
