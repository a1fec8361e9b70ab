/** Warehouse tables that keep every version of a row and answer reads with the highest one. */
module Tables {

  /** A table is a bag of rows; replacing happens when it is read, not when it is written. */
  datatype Row<K, V> = Row(key: K, value: V, version: nat)

  type Table<K(==), V(==)> = multiset<Row<K, V>>

  /** No row of the same key has a higher version: what `LIMIT 1 BY` and `FINAL` may return. */
  predicate Highest<K, V>(t: Table<K, V>, r: Row<K, V>) {
    r in t && forall s :: s in t && s.key == r.key ==> s.version <= r.version
  }

  ghost predicate HasHighest<K, V>(t: Table<K, V>, k: K) {
    exists r :: r in t && r.key == k && Highest(t, r)
  }

  /** Whichever highest row a read returns, it is the one in m; keys without a row are not in m. */
  ghost predicate Faithful<K, V>(t: Table<K, V>, m: map<K, V>) {
    && (forall r :: r in t ==> r.key in m && (Highest(t, r) ==> r.value == m[r.key]))
    && (forall k :: k in m ==> HasHighest(t, k))
  }

  ghost predicate Bounded<K, V>(t: Table<K, V>, limit: nat) {
    forall r :: r in t ==> r.version < limit
  }

  ghost predicate AtLeast<K, V>(t: Table<K, V>, limit: nat) {
    forall r :: r in t ==> r.version >= limit
  }

  /** The rows that write the entries of m, each once. */
  ghost predicate Writes<K, V>(rows: Table<K, V>, m: map<K, V>) {
    && (forall r :: r in rows ==> r.key in m && r.value == m[r.key])
    && (forall k :: k in m ==> exists r :: r in rows && r.key == k)
    && (forall r, s :: r in rows && s in rows && r.key == s.key ==> r == s)
  }

  /** What reading some keys with `LIMIT 1 BY` may return: one highest row for each key that has any. */
  ghost predicate Latest<K, V>(t: Table<K, V>, keys: set<K>, found: map<K, V>) {
    && (forall k :: k in found ==>
          k in keys && exists r :: r in t && r.key == k && Highest(t, r) && r.value == found[k])
    && (forall r :: r in t && r.key in keys ==> r.key in found)
  }

  /** Reading a faithful table returns its meaning. */
  lemma {:induction false} ReadsAre<K, V>(t: Table<K, V>, m: map<K, V>, keys: set<K>, found: map<K, V>)
    requires Faithful(t, m) && Latest(t, keys, found)
    ensures found == map k | k in keys && k in m :: m[k]
  {
    forall k | k in keys && k in m ensures k in found {
      var r :| r in t && r.key == k && Highest(t, r);
    }
  }

  lemma {:induction false} HighestExists<K, V>(t: Table<K, V>, s: Row<K, V>)
    requires s in t
    ensures HasHighest(t, s.key)
    decreases |t|
  {
    if !Highest(t, s) {
      var r :| r in t && r.key == s.key && r.version > s.version;
      var rest := t[s := 0];
      assert t == rest + multiset{s}[s := t[s]];
      HighestExists(rest, r);
      var top :| top in rest && top.key == s.key && Highest(rest, top);
      forall x | x in t && x.key == top.key ensures x.version <= top.version {
        if x != s { assert x in rest; } else { assert r in rest; }
      }
      assert Highest(t, top);
    }
  }

  method LimitOneBy<K, V>(t: Table<K, V>, keys: set<K>) returns (found: map<K, V>)
    ensures Latest(t, keys, found)
  {
    found := map[];
    var rest := keys;
    while rest != {}
      invariant rest <= keys
      invariant Latest(t, keys - rest, found)
    {
      var k :| k in rest;
      rest := rest - {k};
      if exists r :: r in t && r.key == k {
        var s :| s in t && s.key == k;
        HighestExists(t, s);
        var r :| r in t && r.key == k && Highest(t, r);
        found := found[k := r.value];
      }
    }
    assert keys - rest == keys;
  }

  /** One row an entry, all with the same version. */
  function RowsAt<K, V>(m: map<K, V>, version: nat): (rows: Table<K, V>)
    ensures Writes(rows, m)
    ensures forall r :: r in rows ==> r.version == version
  {
    var rows := multiset(set k | k in m :: Row(k, m[k], version));
    assert forall k :: k in m ==> Row(k, m[k], version) in rows;
    rows
  }

  /** A table means at most one thing. */
  lemma {:induction false} MeaningUnique<K, V>(t: Table<K, V>, m: map<K, V>, n: map<K, V>)
    requires Faithful(t, m) && Faithful(t, n)
    ensures m == n
  {
    forall k | k in m || k in n ensures k in m && k in n && m[k] == n[k] {
      var r :| r in t && r.key == k && Highest(t, r);
    }
  }

  lemma {:induction false} NewRowHighest<K, V>(t: Table<K, V>, rows: Table<K, V>, n: map<K, V>, limit: nat,
      r: Row<K, V>)
    requires Bounded(t, limit) && Writes(rows, n) && AtLeast(rows, limit) && r in rows
    ensures Highest(t + rows, r)
  {
    forall s | s in t + rows && s.key == r.key ensures s.version <= r.version {
      if s in rows { assert s == r; }
    }
  }

  lemma {:induction false} OldRowShadowed<K, V>(t: Table<K, V>, rows: Table<K, V>, n: map<K, V>, limit: nat,
      r: Row<K, V>)
    requires Bounded(t, limit) && Writes(rows, n) && AtLeast(rows, limit) && r in t && r.key in n
    ensures !Highest(t + rows, r)
  {
    var s :| s in rows && s.key == r.key;
    assert s in t + rows && s.version > r.version;
  }

  lemma {:induction false} OtherKeysKept<K, V>(t: Table<K, V>, rows: Table<K, V>, r: Row<K, V>)
    requires r in t && forall s :: s in rows ==> s.key != r.key
    ensures Highest(t + rows, r) <==> Highest(t, r)
  {
    forall s | s in t + rows && s.key == r.key ensures s in t {}
    forall s | s in t ensures s in t + rows {}
  }

  /** Rows written with higher versions than everything before them become the meaning of their keys. */
  lemma {:induction false} NewerRowsWin<K, V>(t: Table<K, V>, m: map<K, V>, rows: Table<K, V>, n: map<K, V>, limit: nat)
    requires Faithful(t, m) && Bounded(t, limit) && Writes(rows, n) && AtLeast(rows, limit)
    ensures Faithful(t + rows, m + n)
  {
    var u, w := t + rows, m + n;
    hide Highest;
    forall r | r in u ensures r.key in w && (Highest(u, r) ==> r.value == w[r.key]) {
      if r in rows {
      } else if r.key in n {
        OldRowShadowed(t, rows, n, limit, r);
      } else {
        OtherKeysKept(t, rows, r);
      }
    }
    forall k | k in w ensures HasHighest(u, k) {
      if k in n {
        var r :| r in rows && r.key == k;
        NewRowHighest(t, rows, n, limit, r);
        assert r in u;
      } else {
        var r :| r in t && r.key == k && Highest(t, r);
        OtherKeysKept(t, rows, r);
        assert r in u;
      }
    }
  }

  /** Rows for keys the table does not have yet need no particular version. */
  lemma {:induction false} FreshKeysJoin<K, V>(t: Table<K, V>, m: map<K, V>, rows: Table<K, V>, n: map<K, V>)
    requires Faithful(t, m) && Faithful(rows, n) && m.Keys !! n.Keys
    ensures Faithful(t + rows, m + n)
  {
    var u, w := t + rows, m + n;
    hide Highest;
    assert u == rows + t;
    forall r | r in u ensures r.key in w && (Highest(u, r) ==> r.value == w[r.key]) {
      if r in t { OtherKeysKept(t, rows, r); } else { OtherKeysKept(rows, t, r); }
    }
    forall k | k in w ensures HasHighest(u, k) {
      if k in n {
        var r :| r in rows && r.key == k && Highest(rows, r);
        OtherKeysKept(rows, t, r);
        assert r in u;
      } else {
        var r :| r in t && r.key == k && Highest(t, r);
        OtherKeysKept(t, rows, r);
        assert r in u;
      }
    }
  }

  /** Rows written once each read back as what was written. */
  lemma {:induction false} WritesRead<K, V>(rows: Table<K, V>, n: map<K, V>)
    requires Writes(rows, n)
    ensures Faithful(rows, n)
  {
    forall k | k in n ensures HasHighest(rows, k) {
      var r :| r in rows && r.key == k;
      assert Highest(rows, r);
    }
  }

  // ---------------------------------------------------------------- parts of a table

  /** Rows below some line are the same in both. */
  ghost predicate Kept<T(!new)>(t: multiset<T>, u: multiset<T>, below: T -> bool) {
    forall x :: below(x) ==> u[x] == t[x]
  }

  /** u is what deleting everything not below the line leaves of t. */
  ghost predicate Cut<T(!new)>(t: multiset<T>, u: multiset<T>, below: T -> bool) {
    forall x :: u[x] == if below(x) then t[x] else 0
  }

  ghost predicate NoneBelow<T(!new)>(t: multiset<T>, below: T -> bool) {
    forall x :: x in t ==> !below(x)
  }

  ghost predicate AllBelow<T(!new)>(t: multiset<T>, below: T -> bool) {
    forall x :: x in t ==> below(x)
  }

  lemma {:induction false} KeptSelf<T(!new)>(t: multiset<T>, below: T -> bool)
    ensures Kept(t, t, below)
  {}

  lemma {:induction false} KeptBoth<T(!new)>(s: multiset<T>, t: multiset<T>, u: multiset<T>, low: T -> bool,
      high: T -> bool)
    requires Kept(s, t, low) && Kept(t, u, high) && forall x :: low(x) ==> high(x)
    ensures Kept(s, u, low)
  {}

  /** Rows that do not matter to the line, added on either side. */
  lemma {:induction false} KeptAdd<T(!new)>(t: multiset<T>, rows: multiset<T>, part: multiset<T>, below: T -> bool)
    requires NoneBelow(rows, below) && part <= rows
    ensures Kept(t, t + part, below)
  {
    forall x | below(x) ensures (t + part)[x] == t[x] {
      assert x !in rows;
      assert part[x] <= rows[x];
    }
  }

  lemma {:induction false} CutRestores<T(!new)>(s: multiset<T>, t: multiset<T>, u: multiset<T>, below: T -> bool)
    requires Kept(s, t, below) && Cut(t, u, below) && AllBelow(s, below)
    ensures u == s
  {
    forall x ensures u[x] == s[x] {}
  }

  /** A table made of rows below the line and rows above it. */
  lemma {:induction false} KeptSplit<T(!new)>(t: multiset<T>, low: multiset<T>, high: multiset<T>, below: T -> bool)
    requires t == low + high && NoneBelow(high, below)
    ensures Kept(low, t, below)
  {}
}
