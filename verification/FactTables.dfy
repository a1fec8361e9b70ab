/** The append-only tables of the warehouse: which rows a chain puts there, and what a ledger reads back. */
module FactTables {
  import opened Chain
  import opened Projection
  import opened Store
  import opened Tables

  type CreateEntry = Row<OutputKey, Output>
  type SpendEntry = Row<OutputKey, Spender>
  type ProcessedEntry = Row<nat, Hash>

  function CreateRow(o: Output): Row<OutputKey, Output> {
    Row(o.key, o, o.height)
  }

  function SpendRow(s: Spend): Row<OutputKey, Spender> {
    Row(s.key, s.spender, s.spender.height)
  }

  function CreateRows(es: seq<Event>): Table<OutputKey, Output> {
    if es == [] then multiset{} else
      (if es[0].Created? then multiset{CreateRow(es[0].output)} else multiset{}) + CreateRows(es[1..])
  }

  function SpendRows(es: seq<Event>): Table<OutputKey, Spender> {
    if es == [] then multiset{} else
      (if es[0].Consumed? then multiset{SpendRow(es[0].spend)} else multiset{}) + SpendRows(es[1..])
  }

  lemma {:induction false} RowsConcat(a: seq<Event>, b: seq<Event>)
    ensures CreateRows(a + b) == CreateRows(a) + CreateRows(b)
    ensures SpendRows(a + b) == SpendRows(a) + SpendRows(b)
  {
    if a == [] {
      assert a + b == b;
    } else {
      assert (a + b)[0] == a[0] && (a + b)[1..] == a[1..] + b;
      RowsConcat(a[1..], b);
    }
  }

  lemma {:induction false} CreateRowIn(es: seq<Event>, r: Row<OutputKey, Output>)
    ensures r in CreateRows(es) <==> r == CreateRow(r.value) && Created(r.value) in es
  {
    if es != [] {
      assert Created(r.value) in es <==> es[0] == Created(r.value) || Created(r.value) in es[1..];
      CreateRowIn(es[1..], r);
    }
  }

  lemma {:induction false} SpendRowIn(es: seq<Event>, r: Row<OutputKey, Spender>)
    ensures r in SpendRows(es) <==> r.version == r.value.height && Consumed(Spend(r.key, r.value)) in es
  {
    if es != [] {
      var e := Consumed(Spend(r.key, r.value));
      assert e in es <==> es[0] == e || e in es[1..];
      SpendRowIn(es[1..], r);
    }
  }

  // ---------------------------------------------------------------- the ledger behind the rows

  lemma {:induction false} CreatedStays(m: Ledger, es: seq<Event>, o: Output)
    requires ValidEvents(m, es) && Created(o) in es
    ensures o.spent.None? && o.key in Run(m, es) && Terms(Run(m, es)[o.key]) == o
    decreases es
  {
    if es[0] == Created(o) {
      RunKeepsTerms(Step(m, es[0]), es[1..], o.key);
    } else {
      CreatedStays(Step(m, es[0]), es[1..], o);
    }
  }

  lemma {:induction false} ConsumedStays(m: Ledger, es: seq<Event>, s: Spend)
    requires ValidEvents(m, es) && Consumed(s) in es
    ensures s.key in Run(m, es) && Run(m, es)[s.key].spent == Some(s.spender)
    decreases es
  {
    if es[0] == Consumed(s) {
      RunKeepsTerms(Step(m, es[0]), es[1..], s.key);
    } else {
      ConsumedStays(Step(m, es[0]), es[1..], s);
    }
  }

  lemma {:induction false} EntryOrigin(m: Ledger, es: seq<Event>, k: OutputKey)
    requires ValidEvents(m, es) && k in Run(m, es)
    ensures k in m || (Run(m, es)[k].key == k && Created(Terms(Run(m, es)[k])) in es)
    decreases es
  {
    if es != [] {
      EntryOrigin(Step(m, es[0]), es[1..], k);
      if k !in m && k in Step(m, es[0]) {
        assert es[0].Created? && es[0].output.key == k;
        RunKeepsTerms(Step(m, es[0]), es[1..], k);
        assert Terms(Run(m, es)[k]) == es[0].output;
        assert Run(m, es)[k].key == Terms(Run(m, es)[k]).key;
      }
    }
  }

  lemma {:induction false} SpentOrigin(m: Ledger, es: seq<Event>, k: OutputKey)
    requires ValidEvents(m, es) && k in Run(m, es) && Run(m, es)[k].spent.Some?
    ensures (k in m && m[k].spent.Some?) || Consumed(Spend(k, Run(m, es)[k].spent.value)) in es
    decreases es
  {
    if es != [] {
      var n := Step(m, es[0]);
      SpentOrigin(n, es[1..], k);
      if k in n && n[k].spent.Some? && !(k in m && m[k].spent.Some?) {
        assert es[0].Consumed? && es[0].spend.key == k;
        RunKeepsTerms(n, es[1..], k);
        assert es[0] == Consumed(Spend(k, Run(m, es)[k].spent.value));
      }
    }
  }

  /** The create table says which outputs exist, with their terms. */
  lemma {:induction false} CreatesAreLedger(es: seq<Event>, k: OutputKey)
    requires ValidEvents(map[], es)
    ensures (exists r :: r in CreateRows(es) && r.key == k) <==> k in Run(map[], es)
    ensures forall r :: r in CreateRows(es) && r.key == k ==> r.value == Terms(Run(map[], es)[k])
  {
    var m := Run(map[], es);
    forall r | r in CreateRows(es) && r.key == k ensures k in m && r.value == Terms(m[k]) {
      CreateRowIn(es, r);
      CreatedStays(map[], es, r.value);
    }
    if k in m {
      EntryOrigin(map[], es, k);
      CreateRowIn(es, CreateRow(Terms(m[k])));
    }
  }

  /** The spend table says which outputs are spent, and by whom. */
  lemma {:induction false} SpendsAreLedger(es: seq<Event>, k: OutputKey)
    requires ValidEvents(map[], es)
    ensures (exists r :: r in SpendRows(es) && r.key == k) <==> k in Run(map[], es) && Run(map[], es)[k].spent.Some?
    ensures forall r :: r in SpendRows(es) && r.key == k ==> Run(map[], es)[k].spent == Some(r.value)
  {
    var m := Run(map[], es);
    forall r | r in SpendRows(es) && r.key == k ensures k in m && m[k].spent == Some(r.value) {
      SpendRowIn(es, r);
      ConsumedStays(map[], es, Spend(k, r.value));
    }
    if k in m && m[k].spent.Some? {
      SpentOrigin(map[], es, k);
      SpendRowIn(es, SpendRow(Spend(k, m[k].spent.value)));
    }
  }

  // ---------------------------------------------------------------- rows as of a height

  lemma {:induction false} RowVersions(es: seq<Event>, lo: nat, hi: nat)
    requires forall e <- es :: lo <= EventHeight(e) < hi
    ensures forall r :: r in CreateRows(es) ==> lo <= r.version < hi
    ensures forall r :: r in SpendRows(es) ==> lo <= r.version < hi
  {
    forall r | r in CreateRows(es) ensures lo <= r.version < hi {
      CreateRowIn(es, r);
      assert EventHeight(Created(r.value)) == r.version;
    }
    forall r | r in SpendRows(es) ensures lo <= r.version < hi {
      SpendRowIn(es, r);
      assert EventHeight(Consumed(Spend(r.key, r.value))) == r.version;
    }
  }

  lemma {:induction false} EventsSplit(chain: seq<Block>, h: nat)
    requires ValidChain(chain) && h <= |chain|
    ensures Events(chain) == Events(chain[..h]) + Events(chain[h..])
    ensures forall e <- Events(chain[..h]) :: 0 <= EventHeight(e) < h
    ensures forall e <- Events(chain[h..]) :: h <= EventHeight(e) < |chain|
  {
    hide ValidChain, Events;
    assert chain == chain[..h] + chain[h..] && chain[0..h] == chain[..h] && chain[h..|chain|] == chain[h..];
    EventsConcat(chain[..h], chain[h..]);
    BlockHeights(chain, 0, h);
    BlockHeights(chain, h, |chain|);
  }

  /** The rows of a chain at heights [0, h) and from h up. */
  lemma {:induction false} UtxoRowsSplit(chain: seq<Block>, h: nat)
    requires ValidChain(chain) && h <= |chain|
    ensures CreateRows(Events(chain)) == CreateRows(Events(chain[..h])) + CreateRows(Events(chain[h..]))
    ensures SpendRows(Events(chain)) == SpendRows(Events(chain[..h])) + SpendRows(Events(chain[h..]))
    ensures forall r :: r in CreateRows(Events(chain[..h])) ==> r.version < h
    ensures forall r :: r in CreateRows(Events(chain[h..])) ==> r.version >= h
    ensures forall r :: r in SpendRows(Events(chain[..h])) ==> r.version < h
    ensures forall r :: r in SpendRows(Events(chain[h..])) ==> r.version >= h
  {
    hide *;
    EventsSplit(chain, h);
    RowsConcat(Events(chain[..h]), Events(chain[h..]));
    RowVersions(Events(chain[..h]), 0, h);
    RowVersions(Events(chain[h..]), h, |chain|);
  }

  lemma {:induction false} KeepCounts<T>(s: seq<T>, p: T -> bool, x: T)
    ensures multiset(Keep(s, p))[x] == if p(x) then multiset(s)[x] else 0
  {
    if s != [] {
      var front, last := s[..|s| - 1], s[|s| - 1];
      KeepCounts(front, p, x);
      assert s == front + [last];
    }
  }

  // ---------------------------------------------------------------- what a window inserts

  function WindowMovements(blocks: seq<Block>, look: Ledger): seq<Movement> {
    if blocks == [] then [] else BlockMovements(blocks[0], look) + WindowMovements(blocks[1..], look)
  }

  function WindowFacts(blocks: seq<Block>, look: Ledger): seq<Fact> {
    if blocks == [] then [] else BlockFacts(blocks[0], look) + WindowFacts(blocks[1..], look)
  }

  lemma {:induction false} AppendTwice<T>(x: seq<T>, y: seq<T>, z: seq<T>)
    ensures (x + y) + z == x + (y + z)
  {}
}
