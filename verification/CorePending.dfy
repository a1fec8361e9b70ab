/** Which blocks of a window the warehouse still has to apply, judged by its processed blocks. */
module CorePending {
  import opened Chain
  import opened Store
  import opened Convergence
  import opened Tables
  import opened Materialization

  /** Index of the first block processed under another hash, or the length. */
  function ReorgAt(found: map<nat, Hash>, input: seq<Block>): (i: nat)
    ensures i <= |input|
  {
    if input == [] then 0
    else if input[0].height in found && found[input[0].height] != input[0].hash then 0
    else 1 + ReorgAt(found, input[1..])
  }

  function Unprocessed(found: map<nat, Hash>, input: seq<Block>): seq<Block> {
    if input == [] then [] else
      (if input[0].height in found then [] else [input[0]]) + Unprocessed(found, input[1..])
  }

  function WindowHeights(input: seq<Block>): set<nat> {
    set b | b in input :: b.height
  }

  /** What reading the heights of node[lo..hi] from the processed blocks of a chain returns. */
  ghost predicate FoundIn(found: map<nat, Hash>, chain: seq<Block>, lo: nat, hi: nat) {
    forall h :: lo <= h < hi ==> (h in found <==> h < |chain|) && (h in found ==> found[h] == chain[h].hash)
  }

  lemma {:induction false} HeightsOfWindow(node: seq<Block>, lo: nat, hi: nat)
    requires Numbered(node) && lo <= hi <= |node|
    ensures forall h :: lo <= h < hi ==> h in WindowHeights(node[lo..hi])
  {
    forall h | lo <= h < hi ensures h in WindowHeights(node[lo..hi]) {
      assert node[lo..hi][h - lo] == node[h];
    }
  }

  lemma {:induction false} ReadFindsChain(chain: seq<Block>, node: seq<Block>, lo: nat, hi: nat, found: map<nat, Hash>)
    requires ValidChain(chain) && Numbered(node) && lo <= hi <= |node|
    requires Latest(ProcessedRows(chain), WindowHeights(node[lo..hi]), found)
    ensures FoundIn(found, chain, lo, hi)
  {
    hide ValidChain, ProcessedRows, Latest, Faithful, WindowHeights;
    Meaning(chain);
    ReadsAre(ProcessedRows(chain), HashAt(chain), WindowHeights(node[lo..hi]), found);
    HeightsOfWindow(node, lo, hi);
  }

  lemma {:induction false} Meaning(chain: seq<Block>)
    requires ValidChain(chain)
    ensures Faithful(ProcessedRows(chain), HashAt(chain))
  {
    ProcessedMeans(chain);
  }

  lemma {:induction false} ReorgIsFork(found: map<nat, Hash>, chain: seq<Block>, node: seq<Block>, lo: nat, hi: nat)
    requires FoundIn(found, chain, lo, hi) && Numbered(node) && lo <= hi <= |node|
    ensures lo + ReorgAt(found, node[lo..hi]) == ForkHeight(chain, node, lo, hi)
    decreases hi - lo
  {
    if lo < hi {
      var w := node[lo..hi];
      assert w[0] == node[lo] && w[1..] == node[lo + 1..hi];
      ReorgIsFork(found, chain, node, lo + 1, hi);
    }
  }

  lemma {:induction false} UnprocessedIsSuffix(found: map<nat, Hash>, chain: seq<Block>, node: seq<Block>, lo: nat,
      hi: nat)
    requires FoundIn(found, chain, lo, hi) && Numbered(node) && lo <= hi <= |node|
    ensures Unprocessed(found, node[lo..hi])
            == if |chain| <= lo then node[lo..hi] else if |chain| < hi then node[|chain|..hi] else []
    decreases hi - lo
  {
    if lo < hi {
      var w := node[lo..hi];
      assert w[0] == node[lo] && w[1..] == node[lo + 1..hi] && [node[lo]] + w[1..] == w;
      UnprocessedIsSuffix(found, chain, node, lo + 1, hi);
    }
  }

  /** What is left to do: everything from the fork up, or everything above the processed tail. */
  lemma {:induction false} PendingPart(found: map<nat, Hash>, chain: seq<Block>, node: seq<Block>, lo: nat, hi: nat)
    requires FoundIn(found, chain, lo, hi) && Numbered(node) && lo < hi <= |node| && lo <= |chain|
    ensures var r, d := ReorgAt(found, node[lo..hi]), ForkHeight(chain, node, lo, hi);
            && (r < hi - lo <==> d < hi)
            && (d < hi ==> node[lo..hi][r].height == d && FromHeight(node[lo..hi], d) == node[d..hi])
            && (d == hi ==> Unprocessed(found, node[lo..hi]) == if |chain| < hi then node[|chain|..hi] else [])
  {
    var d := ForkHeight(chain, node, lo, hi);
    ReorgIsFork(found, chain, node, lo, hi);
    UnprocessedIsSuffix(found, chain, node, lo, hi);
    if d < hi {
      assert node[lo..hi][d - lo] == node[d];
      FromHeightIsSuffix(node, lo, hi, d);
    }
  }

  lemma {:induction false} ValidIsNumbered(chain: seq<Block>)
    requires ValidChain(chain)
    ensures Numbered(chain)
  {}
}
