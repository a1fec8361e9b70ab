/** Balances as sums over unspent outputs, and how one event moves them. */
module Balances {
  import opened Chain

  /** Outputs that never reach a balance: unspendable ones and ones without an address. */
  predicate AffectsBalance(o: Output) {
    o.isSpendable && o.address != ""
  }

  function Contribution(o: Output, a: Address): int {
    if AffectsBalance(o) && o.address == a && o.spent.None? then o.value else 0
  }

  ghost function Pick(m: Ledger): (k: OutputKey)
    requires m != map[]
    ensures k in m
  {
    var k :| k in m;
    k
  }

  /** What an address owns: the sum of its unspent spendable outputs. */
  ghost function BalanceOf(m: Ledger, a: Address): int
    decreases m.Keys
  {
    if m == map[] then 0 else Contribution(m[Pick(m)], a) + BalanceOf(m - {Pick(m)}, a)
  }

  lemma {:induction false} BalanceSplit(m: Ledger, a: Address, k: OutputKey)
    requires k in m
    ensures BalanceOf(m, a) == Contribution(m[k], a) + BalanceOf(m - {k}, a)
    decreases m.Keys
  {
    var p := Pick(m);
    if p != k {
      BalanceSplit(m - {p}, a, k);
      BalanceSplit(m - {k}, a, p);
      assert (m - {p}) - {k} == (m - {k}) - {p};
    }
  }

  /** The change an event makes to the balance of an address. */
  function EventDelta(m: Ledger, e: Event, a: Address): int {
    match e
    case Created(o) => Contribution(o, a)
    case Consumed(s) => if s.key in m then -Contribution(m[s.key], a) else 0
  }

  lemma {:induction false} StepBalance(m: Ledger, e: Event, a: Address)
    requires ValidEvent(m, e)
    ensures BalanceOf(Step(m, e), a) == BalanceOf(m, a) + EventDelta(m, e, a)
  {
    var k := match e case Created(o) => o.key case Consumed(s) => s.key;
    var n := Step(m, e);
    BalanceSplit(n, a, k);
    match e
    case Created(o) =>
      assert n - {k} == m;
    case Consumed(s) =>
      BalanceSplit(m, a, k);
      assert n - {k} == m - {k};
  }

  predicate NonNegative(m: Ledger) {
    forall k :: k in m ==> m[k].value >= 0
  }

  lemma {:induction false} BalanceNonNegative(m: Ledger, a: Address)
    requires NonNegative(m)
    ensures BalanceOf(m, a) >= 0
    decreases m.Keys
  {
    if m != map[] {
      BalanceNonNegative(m - {Pick(m)}, a);
    }
  }

  lemma {:induction false} RunNonNegative(m: Ledger, es: seq<Event>)
    requires NonNegative(m) && ValidEvents(m, es)
    ensures NonNegative(Run(m, es))
    decreases es
  {
    if es != [] {
      RunNonNegative(Step(m, es[0]), es[1..]);
    }
  }

  // ---------------------------------------------------------------- unspent rows only

  function Unspent(m: Ledger): Ledger {
    map k | k in m && m[k].spent.None? :: m[k]
  }

  /** Spent rows carry no balance, so dropping them changes nothing. */
  lemma {:induction false} BalanceOfUnspent(m: Ledger, a: Address)
    ensures BalanceOf(m, a) == BalanceOf(Unspent(m), a)
    decreases m.Keys
  {
    if m == map[] {
      assert Unspent(m) == map[];
    } else {
      var k := Pick(m);
      BalanceOfUnspent(m - {k}, a);
      if m[k].spent.None? {
        BalanceSplit(Unspent(m), a, k);
        assert Unspent(m) - {k} == Unspent(m - {k});
      } else {
        assert Unspent(m) == Unspent(m - {k});
      }
    }
  }
}
