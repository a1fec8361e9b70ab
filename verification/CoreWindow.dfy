/** What a window of blocks does to the current outputs and balances of the versioned tables. */
module CoreWindow {
  import opened Chain
  import opened Balances
  import opened Projection
  import opened Store
  import opened Tables

  /** Rows the window touches and balance changes it makes; nothing else of the current state is read. */
  datatype Mutation = Mutation(next: Ledger, deltas: map<Address, int>)

  datatype MutationResult = Mutated(mutation: Mutation) | MissingPrevout(key: OutputKey)

  const NO_MUTATION := Mutation(map[], map[])

  function AddDelta(deltas: map<Address, int>, o: Output, amount: int): map<Address, int> {
    if !AffectsBalance(o) then deltas
    else if o.address in deltas then deltas[o.address := deltas[o.address] + amount]
    else deltas[o.address := amount]
  }

  function DeltaOf(deltas: map<Address, int>, a: Address): int {
    if a in deltas then deltas[a] else 0
  }

  function MutateCreate(mu: Mutation, o: Output): Mutation {
    Mutation(mu.next[o.key := o], AddDelta(mu.deltas, o, o.value))
  }

  /** A spend reads the row the window has already written, else the row read before the window. */
  function MutateSpend(mu: Mutation, s: Spend, prevouts: Ledger): MutationResult {
    if s.key !in mu.next && s.key !in prevouts then MissingPrevout(s.key) else
      var current := if s.key in mu.next then mu.next[s.key] else prevouts[s.key];
      Mutated(Mutation(mu.next[s.key := current.(spent := Some(s.spender))],
        AddDelta(mu.deltas, current, -current.value)))
  }

  function MutateEvent(mu: Mutation, e: Event, prevouts: Ledger): MutationResult {
    match e
    case Created(o) => Mutated(MutateCreate(mu, o))
    case Consumed(s) => MutateSpend(mu, s, prevouts)
  }

  function Mutate(mu: Mutation, es: seq<Event>, prevouts: Ledger): MutationResult
    decreases es
  {
    if es == [] then Mutated(mu) else
      var one := MutateEvent(mu, es[0], prevouts);
      if one.MissingPrevout? then one else Mutate(one.mutation, es[1..], prevouts)
  }

  lemma {:induction false} MutateConcat(mu: Mutation, x: seq<Event>, y: seq<Event>, prevouts: Ledger)
    ensures Mutate(mu, x + y, prevouts)
            == if Mutate(mu, x, prevouts).Mutated? then Mutate(Mutate(mu, x, prevouts).mutation, y, prevouts)
              else Mutate(mu, x, prevouts)
    decreases x
  {
    if x == [] {
      assert x + y == y;
    } else {
      assert (x + y)[0] == x[0] && (x + y)[1..] == x[1..] + y;
      var one := MutateEvent(mu, x[0], prevouts);
      if one.Mutated? {
        MutateConcat(one.mutation, x[1..], y, prevouts);
      }
    }
  }

  method MutateCreates(start: Mutation, creates: seq<Output>, prevouts: Ledger) returns (mu: Mutation)
    ensures Mutate(start, CreateEvents(creates), prevouts) == Mutated(mu)
  {
    mu := start;
    for i := 0 to |creates|
      invariant Mutate(start, CreateEvents(creates), prevouts) == Mutate(mu, CreateEvents(creates)[i..], prevouts)
    {
      var rest := CreateEvents(creates)[i..];
      assert rest[0] == Created(creates[i]) && rest[1..] == CreateEvents(creates)[i + 1..];
      mu := MutateCreate(mu, creates[i]);
    }
  }

  method MutateSpends(start: Mutation, spends: seq<Spend>, prevouts: Ledger) returns (r: MutationResult)
    ensures r == Mutate(start, SpendEvents(spends), prevouts)
  {
    var mu := start;
    for i := 0 to |spends|
      invariant Mutate(start, SpendEvents(spends), prevouts) == Mutate(mu, SpendEvents(spends)[i..], prevouts)
    {
      var rest := SpendEvents(spends)[i..];
      assert rest[0] == Consumed(spends[i]) && rest[1..] == SpendEvents(spends)[i + 1..];
      var one := MutateSpend(mu, spends[i], prevouts);
      if one.MissingPrevout? {
        return one;
      }
      mu := one.mutation;
    }
    r := Mutated(mu);
  }

  /** Creates of a block first, then its spends, block after block. */
  method MutateWindow(pending: seq<Block>, prevouts: Ledger) returns (r: MutationResult)
    ensures r == Mutate(NO_MUTATION, Events(pending), prevouts)
  {
    var mu := NO_MUTATION;
    for i := 0 to |pending|
      invariant Mutate(NO_MUTATION, Events(pending), prevouts) == Mutate(mu, Events(pending[i..]), prevouts)
    {
      FirstBlock(mu, pending[i..], prevouts);
      assert pending[i..][0] == pending[i] && pending[i..][1..] == pending[i + 1..];
      var created := MutateCreates(mu, pending[i].creates, prevouts);
      var one := MutateSpends(created, pending[i].spends, prevouts);
      if one.MissingPrevout? {
        return one;
      }
      mu := one.mutation;
    }
    r := Mutated(mu);
  }

  lemma {:induction false} FirstBlock(mu: Mutation, pending: seq<Block>, prevouts: Ledger)
    requires pending != []
    ensures var created := Mutate(mu, CreateEvents(pending[0].creates), prevouts);
            created.Mutated? ==>
              var spent := Mutate(created.mutation, SpendEvents(pending[0].spends), prevouts);
              Mutate(mu, Events(pending), prevouts)
              == if spent.Mutated? then Mutate(spent.mutation, Events(pending[1..]), prevouts) else spent
  {
    var b := pending[0];
    assert pending == [b] + pending[1..];
    EventsConcat([b], pending[1..]);
    SingleBlockEvents(b);
    hide Mutate, Events;
    MutateConcat(mu, BlockEvents(b), Events(pending[1..]), prevouts);
    MutateConcat(mu, CreateEvents(b.creates), SpendEvents(b.spends), prevouts);
  }

  // ---------------------------------------------------------------- views of the ledger

  /** Current rows are as the ledger has them; when full, every unspent output has one. */
  predicate View(c: Ledger, m: Ledger, full: bool) {
    && (forall k :: k in c ==> k in m && c[k] == m[k])
    && (full ==> forall k :: k in m && m[k].spent.None? ==> k in c)
  }

  /** Every spend to come of an output that already exists finds its row. */
  ghost predicate Covers(prevouts: Ledger, c: Ledger, next: Ledger, m: Ledger, es: seq<Event>) {
    forall s :: Consumed(s) in es && s.key in m && s.key !in next ==>
      s.key in prevouts && s.key in c && prevouts[s.key] == c[s.key]
  }

  ghost predicate DeltasAre(deltas: map<Address, int>, before: Ledger, after: Ledger) {
    "" !in deltas && forall a :: a != "" ==> DeltaOf(deltas, a) == BalanceOf(after, a) - BalanceOf(before, a)
  }

  lemma {:induction false} ViewCreate(c: Ledger, next: Ledger, m: Ledger, o: Output, full: bool)
    requires o.key !in m && View(c + next, m, full)
    ensures View(c + next[o.key := o], m[o.key := o], full)
  {
    assert c + next[o.key := o] == (c + next)[o.key := o];
  }

  lemma {:induction false} ViewSpend(c: Ledger, next: Ledger, m: Ledger, o: Output, k: OutputKey, full: bool)
    requires k in m && o.spent.Some? && View(c + next, m, full)
    ensures View(c + next[k := o], m[k := o], full)
  {
    assert c + next[k := o] == (c + next)[k := o];
  }

  /** The row a spend starts from is the ledger's. */
  lemma {:induction false} SpendReadsLedger(c: Ledger, mu: Mutation, m: Ledger, s: Spend, prevouts: Ledger, full: bool)
    requires s.key in m && View(c + mu.next, m, full) && Covers(prevouts, c, mu.next, m, [Consumed(s)])
    ensures MutateSpend(mu, s, prevouts)
            == Mutated(Mutation(mu.next[s.key := m[s.key].(spent := Some(s.spender))],
              AddDelta(mu.deltas, m[s.key], -m[s.key].value)))
  {
    assert Consumed(s) in [Consumed(s)];
    assert s.key in c + mu.next;
    hide AddDelta;
  }

  /** The balance changes of one event of the ledger. */
  function EventDeltas(deltas: map<Address, int>, m: Ledger, e: Event): map<Address, int> {
    match e
    case Created(o) => AddDelta(deltas, o, o.value)
    case Consumed(s) => if s.key in m then AddDelta(deltas, m[s.key], -m[s.key].value) else deltas
  }

  lemma {:induction false} ViewStep(c: Ledger, mu: Mutation, m: Ledger, e: Event, prevouts: Ledger, full: bool)
    requires ValidEvent(m, e) && View(c + mu.next, m, full) && Covers(prevouts, c, mu.next, m, [e])
    ensures MutateEvent(mu, e, prevouts).Mutated?
    ensures View(c + MutateEvent(mu, e, prevouts).mutation.next, Step(m, e), full)
    ensures MutateEvent(mu, e, prevouts).mutation.deltas == EventDeltas(mu.deltas, m, e)
  {
    hide View, Covers, AddDelta;
    match e
    case Created(o) =>
      ViewCreate(c, mu.next, m, o, full);
    case Consumed(s) =>
      SpendReadsLedger(c, mu, m, s, prevouts, full);
      ViewSpend(c, mu.next, m, m[s.key].(spent := Some(s.spender)), s.key, full);
  }

  lemma {:induction false} DeltaStep(deltas: map<Address, int>, before: Ledger, m: Ledger, e: Event)
    requires ValidEvent(m, e) && DeltasAre(deltas, before, m)
    ensures DeltasAre(EventDeltas(deltas, m, e), before, Step(m, e))
  {
    var after := EventDeltas(deltas, m, e);
    forall a | a != "" ensures DeltaOf(after, a) == BalanceOf(Step(m, e), a) - BalanceOf(before, a) {
      StepBalance(m, e, a);
    }
  }

  lemma {:induction false} CoversStep(prevouts: Ledger, c: Ledger, mu: Mutation, m: Ledger, es: seq<Event>)
    requires es != [] && ValidEvent(m, es[0]) && Covers(prevouts, c, mu.next, m, es)
    requires MutateEvent(mu, es[0], prevouts).Mutated?
    ensures Covers(prevouts, c, mu.next, m, [es[0]])
    ensures Covers(prevouts, c, MutateEvent(mu, es[0], prevouts).mutation.next, Step(m, es[0]), es[1..])
  {
    forall s | Consumed(s) in [es[0]] ensures Consumed(s) in es { assert es[0] in es; }
    forall s | Consumed(s) in es[1..] ensures Consumed(s) in es {}
  }

  lemma {:induction false} CoversFirst(prevouts: Ledger, c: Ledger, mu: Mutation, m: Ledger, es: seq<Event>)
    requires es != [] && Covers(prevouts, c, mu.next, m, es)
    ensures Covers(prevouts, c, mu.next, m, [es[0]])
  {
    forall s | Consumed(s) in [es[0]] ensures Consumed(s) in es { assert es[0] in es; }
  }

  /** Rows a window writes are ones it created, or ones it spent. */
  predicate TouchedFrom(next: Ledger, from: nat) {
    forall k :: k in next ==> if next[k].spent.None? then next[k].height >= from else next[k].spent.value.height >= from
  }

  /** What the window has computed so far, and what the rest of it may rely on. */
  ghost predicate Agrees(c: Ledger, prevouts: Ledger, mu: Mutation, before: Ledger, m: Ledger, es: seq<Event>,
      from: nat, full: bool) {
    && View(c + mu.next, m, full) && Covers(prevouts, c, mu.next, m, es)
    && DeltasAre(mu.deltas, before, m) && TouchedFrom(mu.next, from)
    && ValidEvents(m, es) && AtOrAbove(es, from)
  }

  lemma {:induction false} TouchedStep(mu: Mutation, m: Ledger, e: Event, prevouts: Ledger, from: nat)
    requires TouchedFrom(mu.next, from) && EventHeight(e) >= from && ValidEvent(m, e)
             && MutateEvent(mu, e, prevouts).Mutated?
    ensures TouchedFrom(MutateEvent(mu, e, prevouts).mutation.next, from)
  {}

  lemma {:induction false} ValidHead(m: Ledger, es: seq<Event>, from: nat)
    requires es != [] && ValidEvents(m, es) && AtOrAbove(es, from)
    ensures ValidEvent(m, es[0]) && EventHeight(es[0]) >= from
    ensures ValidEvents(Step(m, es[0]), es[1..]) && AtOrAbove(es[1..], from)
    ensures Run(m, es) == Run(Step(m, es[0]), es[1..])
  {
    assert es[0] in es;
    forall e | e in es[1..] ensures e in es {}
  }

  lemma {:induction false} AgreesStep(c: Ledger, prevouts: Ledger, mu: Mutation, before: Ledger, m: Ledger,
      es: seq<Event>, from: nat, full: bool)
    requires es != [] && Agrees(c, prevouts, mu, before, m, es, from, full)
    ensures var one := MutateEvent(mu, es[0], prevouts);
            one.Mutated? && Agrees(c, prevouts, one.mutation, before, Step(m, es[0]), es[1..], from, full)
  {
    hide Run, ValidEvents, View, Covers, DeltasAre, TouchedFrom, AtOrAbove, MutateEvent, Step, ValidEvent, EventDeltas,
         EventHeight;
    ValidHead(m, es, from);
    CoversFirst(prevouts, c, mu, m, es);
    ViewStep(c, mu, m, es[0], prevouts, full);
    DeltaStep(mu.deltas, before, m, es[0]);
    CoversStep(prevouts, c, mu, m, es);
    TouchedStep(mu, m, es[0], prevouts, from);
  }

  /**
   * Merging what the window computed from its own prevouts gives a view of the ledger after the window,
   * and the deltas are the balance changes of the whole ledger, wherever the window was cut.
   */
  lemma {:induction false} MutationAgrees(c: Ledger, prevouts: Ledger, mu: Mutation, before: Ledger, m: Ledger,
      es: seq<Event>, from: nat, full: bool)
    requires Agrees(c, prevouts, mu, before, m, es, from, full)
    ensures Mutate(mu, es, prevouts).Mutated?
    ensures Agrees(c, prevouts, Mutate(mu, es, prevouts).mutation, before, Run(m, es), [], from, full)
    decreases es
  {
    hide Agrees, MutateEvent, Step;
    if es == [] {
    } else {
      AgreesStep(c, prevouts, mu, before, m, es, from, full);
      var one := MutateEvent(mu, es[0], prevouts).mutation;
      MutationAgrees(c, prevouts, one, before, Step(m, es[0]), es[1..], from, full);
    }
  }

  /** A window that went through found every output it spends, in its prevouts or among its own creates. */
  lemma {:induction false} MutatedFoundAll(mu: Mutation, es: seq<Event>, prevouts: Ledger, s: Spend)
    requires Mutate(mu, es, prevouts).Mutated? && Consumed(s) in es
    ensures s.key in prevouts || s.key in mu.next || s.key in CreatedIn(es)
    decreases es
  {
    if es[0] != Consumed(s) {
      MutatedFoundAll(MutateEvent(mu, es[0], prevouts).mutation, es[1..], prevouts, s);
    }
  }

  // ---------------------------------------------------------------- versions

  /** Creates are even, spends odd, so a row's version grows with what was written last. */
  function OutputVersion(o: Output): nat {
    if o.spent.None? then 2 * o.height else 2 * o.spent.value.height + 1
  }

  function BalanceVersion(windowEnd: nat): nat {
    2 * windowEnd + 1
  }

  function OutputRows(next: Ledger): (rows: Table<OutputKey, Output>)
    ensures Writes(rows, next)
    ensures forall r :: r in rows ==> r.version == OutputVersion(r.value)
  {
    var rows := multiset(set k | k in next :: Row(k, next[k], OutputVersion(next[k])));
    assert forall k :: k in next ==> Row(k, next[k], OutputVersion(next[k])) in rows;
    rows
  }

  /** The rows of a window outrank every row of the blocks below it. */
  lemma {:induction false} WindowRowsOutrank(next: Ledger, from: nat)
    requires TouchedFrom(next, from)
    ensures AtLeast(OutputRows(next), 2 * from)
  {}
}
