/** The checks a window passes before its first insert. */
module WindowShape {
  import opened Chain
  import opened Tables
  import opened Materialization

  predicate Distinct(keys: seq<OutputKey>) {
    forall i, j :: 0 <= i < j < |keys| ==> keys[i] != keys[j]
  }

  function CreateKeys(blocks: seq<Block>): seq<OutputKey> {
    if blocks == [] then [] else CreateKeys(blocks[..|blocks| - 1]) + KeysOfCreates(blocks[|blocks| - 1].creates)
  }

  function SpendKeys(blocks: seq<Block>): seq<OutputKey> {
    if blocks == [] then [] else SpendKeys(blocks[..|blocks| - 1]) + KeysOfSpends(blocks[|blocks| - 1].spends)
  }

  function KeysOfCreates(creates: seq<Output>): (keys: seq<OutputKey>)
    ensures |keys| == |creates| && forall i :: 0 <= i < |keys| ==> keys[i] == creates[i].key
  {
    seq(|creates|, i requires 0 <= i < |creates| => creates[i].key)
  }

  function KeysOfSpends(spends: seq<Spend>): (keys: seq<OutputKey>)
    ensures |keys| == |spends| && forall i :: 0 <= i < |keys| ==> keys[i] == spends[i].key
  {
    seq(|spends|, i requires 0 <= i < |spends| => spends[i].key)
  }

  predicate Follows(b: Block, next: Block) {
    next.height == b.height + 1 && next.previous == Some(b.hash)
  }

  /** Heights follow each other, hashes link, nothing is created twice and nothing is spent twice. */
  predicate WellShaped(w: seq<Block>) {
    && (forall i :: 0 < i < |w| ==> Follows(w[i - 1], w[i]))
    && Distinct(CreateKeys(w)) && Distinct(SpendKeys(w))
  }

  /** Adds keys to those seen, stopping at the first repeat. */
  method Remember(seen: set<OutputKey>, ghost before: seq<OutputKey>, keys: seq<OutputKey>)
    returns (ok: bool, now: set<OutputKey>)
    requires Distinct(before) && seen == set k | k in before
    ensures ok <==> Distinct(before + keys)
    ensures ok ==> now == set k | k in before + keys
  {
    now := seen;
    for i := 0 to |keys|
      invariant Distinct(before + keys[..i]) && now == set k | k in before + keys[..i]
    {
      var all := before + keys;
      assert all[|before| + i] == keys[i];
      if keys[i] in now {
        ghost var j :| 0 <= j < |before + keys[..i]| && (before + keys[..i])[j] == keys[i];
        assert all[j] == keys[i];
        return false, now;
      }
      assert before + keys[..i + 1] == (before + keys[..i]) + [keys[i]];
      now := now + {keys[i]};
    }
    assert keys[..|keys|] == keys;
    ok := true;
  }

  method CheckShape(w: seq<Block>) returns (ok: bool)
    ensures ok <==> WellShaped(w)
  {
    hide WellShaped, Distinct, CreateKeys, SpendKeys;
    NothingShaped();
    var created, spent := {}, {};
    for i := 0 to |w|
      invariant WellShaped(w[..i])
      invariant created == set k | k in CreateKeys(w[..i])
      invariant spent == set k | k in SpendKeys(w[..i])
    {
      ShapePrefix(w, i + 1);
      ShapeStep(w, i);
      if i > 0 && !Follows(w[i - 1], w[i]) {
        return false;
      }
      ok, created := Remember(created, CreateKeys(w[..i]), KeysOfCreates(w[i].creates));
      if !ok {
        return;
      }
      ok, spent := Remember(spent, SpendKeys(w[..i]), KeysOfSpends(w[i].spends));
      if !ok {
        return;
      }
    }
    assert w[..|w|] == w;
    ok := true;
  }

  lemma {:induction false} NothingShaped()
    ensures WellShaped([]) && CreateKeys([]) == [] && SpendKeys([]) == []
  {}

  lemma {:induction false} ShapeStep(w: seq<Block>, i: nat)
    requires i < |w|
    ensures CreateKeys(w[..i + 1]) == CreateKeys(w[..i]) + KeysOfCreates(w[i].creates)
    ensures SpendKeys(w[..i + 1]) == SpendKeys(w[..i]) + KeysOfSpends(w[i].spends)
    ensures WellShaped(w[..i]) ==> Distinct(CreateKeys(w[..i])) && Distinct(SpendKeys(w[..i]))
    ensures WellShaped(w[..i]) ==>
              (WellShaped(w[..i + 1]) <==>
                 && (i > 0 ==> Follows(w[i - 1], w[i]))
                 && Distinct(CreateKeys(w[..i + 1])) && Distinct(SpendKeys(w[..i + 1])))
  {
    var p := w[..i + 1];
    assert p[..i] == w[..i] && p[i] == w[i];
    hide Distinct, CreateKeys, SpendKeys;
    if WellShaped(w[..i]) && (i > 0 ==> Follows(w[i - 1], w[i])) {
      forall j | 0 < j < |p| ensures Follows(p[j - 1], p[j]) {
        if j < i { assert w[..i][j] == p[j] && w[..i][j - 1] == p[j - 1]; }
      }
    }
    if i > 0 && WellShaped(p) { assert Follows(p[i - 1], p[i]); }
  }

  lemma {:induction false} ShapePrefix(w: seq<Block>, n: nat)
    requires n <= |w|
    ensures WellShaped(w) ==> WellShaped(w[..n])
  {
    if WellShaped(w) {
      KeysPrefix(w, n);
      var p := w[..n];
      forall i, j | 0 <= i < j < |CreateKeys(p)| ensures CreateKeys(p)[i] != CreateKeys(p)[j] {
        assert CreateKeys(w)[i] == CreateKeys(p)[i] && CreateKeys(w)[j] == CreateKeys(p)[j];
      }
      forall i, j | 0 <= i < j < |SpendKeys(p)| ensures SpendKeys(p)[i] != SpendKeys(p)[j] {
        assert SpendKeys(w)[i] == SpendKeys(p)[i] && SpendKeys(w)[j] == SpendKeys(p)[j];
      }
    }
  }

  lemma {:induction false} KeysPrefix(w: seq<Block>, n: nat)
    requires n <= |w|
    ensures CreateKeys(w[..n]) <= CreateKeys(w) && SpendKeys(w[..n]) <= SpendKeys(w)
  {
    if n < |w| {
      KeysPrefix(w[..|w| - 1], n);
      assert w[..|w| - 1][..n] == w[..n];
    } else {
      assert w[..n] == w;
    }
  }

  // ---------------------------------------------------------------- windows of valid chains

  lemma {:induction false} DistinctCons(k: OutputKey, keys: seq<OutputKey>)
    requires Distinct(keys) && k !in keys
    ensures Distinct([k] + keys) && [] + keys == keys
  {
    assert forall i :: 0 < i < |[k] + keys| ==> ([k] + keys)[i] == keys[i - 1];
  }

  /** Creating fresh keys: none is in the ledger yet, and none repeats. */
  lemma {:induction false} EventKeysDistinct(m: Ledger, es: seq<Event>)
    requires ValidEvents(m, es)
    ensures Distinct(CreatedKeys(es)) && forall k <- CreatedKeys(es) :: k !in m
    ensures Distinct(ConsumedKeys(es)) && forall k <- ConsumedKeys(es) :: k in m ==> m[k].spent.None?
    decreases es
  {
    if es != [] {
      var n := Step(m, es[0]);
      EventKeysDistinct(n, es[1..]);
      match es[0]
      case Created(o) => DistinctCons(o.key, CreatedKeys(es[1..]));
      case Consumed(s) => DistinctCons(s.key, ConsumedKeys(es[1..]));
    }
  }

  function CreatedKeys(es: seq<Event>): seq<OutputKey> {
    if es == [] then [] else (if es[0].Created? then [es[0].output.key] else []) + CreatedKeys(es[1..])
  }

  function ConsumedKeys(es: seq<Event>): seq<OutputKey> {
    if es == [] then [] else (if es[0].Consumed? then [es[0].spend.key] else []) + ConsumedKeys(es[1..])
  }

  lemma {:induction false} EventKeysConcat(a: seq<Event>, b: seq<Event>)
    ensures CreatedKeys(a + b) == CreatedKeys(a) + CreatedKeys(b)
    ensures ConsumedKeys(a + b) == ConsumedKeys(a) + ConsumedKeys(b)
  {
    if a == [] {
      assert a + b == b;
    } else {
      assert (a + b)[0] == a[0] && (a + b)[1..] == a[1..] + b;
      EventKeysConcat(a[1..], b);
    }
  }

  lemma {:induction false} CreateEventKeys(creates: seq<Output>)
    ensures CreatedKeys(CreateEvents(creates)) == KeysOfCreates(creates)
    ensures ConsumedKeys(CreateEvents(creates)) == []
  {
    if creates == [] {
      assert CreateEvents(creates) == [];
    } else {
      assert CreateEvents(creates)[1..] == CreateEvents(creates[1..]);
      CreateEventKeys(creates[1..]);
    }
  }

  lemma {:induction false} SpendEventKeys(spends: seq<Spend>)
    ensures ConsumedKeys(SpendEvents(spends)) == KeysOfSpends(spends)
    ensures CreatedKeys(SpendEvents(spends)) == []
  {
    if spends == [] {
      assert SpendEvents(spends) == [];
    } else {
      assert SpendEvents(spends)[1..] == SpendEvents(spends[1..]);
      SpendEventKeys(spends[1..]);
    }
  }

  lemma {:induction false} BlockKeys(b: Block)
    ensures CreatedKeys(BlockEvents(b)) == KeysOfCreates(b.creates)
    ensures ConsumedKeys(BlockEvents(b)) == KeysOfSpends(b.spends)
  {
    EventKeysConcat(CreateEvents(b.creates), SpendEvents(b.spends));
    CreateEventKeys(b.creates);
    SpendEventKeys(b.spends);
    assert KeysOfCreates(b.creates) + [] == KeysOfCreates(b.creates);
    assert [] + KeysOfSpends(b.spends) == KeysOfSpends(b.spends);
  }

  lemma {:induction false} WindowKeys(w: seq<Block>)
    ensures CreateKeys(w) == CreatedKeys(Events(w)) && SpendKeys(w) == ConsumedKeys(Events(w))
  {
    if w != [] {
      var front, last := w[..|w| - 1], w[|w| - 1];
      hide BlockEvents, CreatedKeys, ConsumedKeys, KeysOfCreates, KeysOfSpends;
      WindowKeys(front);
      EventKeysConcat(Events(front), BlockEvents(last));
      BlockKeys(last);
    }
  }

  /** Every window of a valid chain passes. */
  lemma {:induction false} ChainWindowsWellShaped(chain: seq<Block>, w: seq<Block>)
    requires ValidChain(chain + w)
    ensures WellShaped(w)
  {
    LedgerConcat(chain, w);
    EventKeysDistinct(LedgerOf(chain), Events(w));
    WindowKeys(w);
    var full := chain + w;
    forall i | 0 < i < |w| ensures Follows(w[i - 1], w[i]) {
      assert full[|chain| + i] == w[i] && full[|chain| + i - 1] == w[i - 1];
    }
  }

  /** The block below a window, when it is processed, must be the one the window's first block names. */
  predicate FollowsPrevious(processed: map<nat, Hash>, first: Block) {
    first.height > 0 && first.height - 1 in processed ==> first.previous == Some(processed[first.height - 1])
  }

  lemma {:induction false} ChainWindowsFollow(chain: seq<Block>, w: seq<Block>)
    requires ValidChain(chain + w) && w != []
    ensures FollowsPrevious(HashAt(chain), w[0])
  {
    var full := chain + w;
    assert full[|chain|] == w[0];
    if chain != [] { assert full[|chain| - 1] == chain[|chain| - 1]; }
  }
}
