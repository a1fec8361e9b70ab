/** One online window against a node that may have reorganised above the finalized tail, in both adapters. */
module OnlineReorg {
  import opened Chain
  import opened Integers
  import opened Store
  import opened StoreProofs
  import opened Convergence
  import opened CoreState
  import opened CoreTails
  import CoreWarehouse
  import Recovery

  /** Blocks up to here are never processed again. */
  function FinalizedTail(processTail: int, depth: nat): int {
    Max(-1, processTail - depth)
  }

  function WindowFirst(chain: seq<Block>, target: nat, depth: nat): (lo: nat) {
    Recovery.OnlineWindowStart(|chain| - 1, target, depth)
  }

  function WindowLast(chain: seq<Block>, target: nat, window: nat): int {
    Min(target, |chain| - 1 + window)
  }

  ghost predicate AgreesThroughFinalized(chain: seq<Block>, node: seq<Block>, depth: nat) {
    forall h :: 0 <= h <= FinalizedTail(|chain| - 1, depth) && h < |node| ==> chain[h] == node[h]
  }

  /**
   * The planned window starts on common ground, however deep below the processed tail the fork is; and when
   * the target has not dropped below that tail, the window ends above everything processed.
   */
  lemma {:induction false} WindowStartsOnCommonGround(chain: seq<Block>, node: seq<Block>, target: nat, depth: nat,
      window: nat)
    requires target < |node| && depth > 0 && window > 0 && AgreesThroughFinalized(chain, node, depth)
    ensures var lo, hi := WindowFirst(chain, target, depth), WindowLast(chain, target, window) + 1;
            && lo < hi <= |node| && lo <= |chain| && chain[..lo] == node[..lo]
            && (target >= |chain| - 1 ==> ChainAfter(chain, node, lo, hi) == node[..hi])
  {
    var lo, hi := WindowFirst(chain, target, depth), WindowLast(chain, target, window) + 1;
    assert lo <= FinalizedTail(|chain| - 1, depth) + 1;
    forall h | 0 <= h < lo ensures chain[h] == node[h] {}
  }

  /** One window leaves the in-memory rows of the node's chain applied from genesis to the window's end. */
  lemma {:induction false} OnlineWindowConverges(rows: Rows, chain: seq<Block>, node: seq<Block>, target: nat,
      depth: nat, window: nat)
    requires Represents(rows, chain) && ValidChain(chain) && ValidChain(node) && HashesIdentify(chain, node)
    requires |chain| - 1 <= target < |node| && depth > 0 && window > 0 && AgreesThroughFinalized(chain, node, depth)
    ensures var lo, hi := WindowFirst(chain, target, depth), WindowLast(chain, target, window) + 1;
            && 0 <= lo <= hi <= |node|
            && var (out, result) := ApplyWindow(rows, node[lo..hi]);
               out.error.None? && Represents(out.rows, node[..hi]) && result.processTail == hi - 1
  {
    hide Represents, ValidChain, HashesIdentify, ApplyWindow, ChainAfter, AgreesThroughFinalized, WindowFirst,
         WindowLast;
    WindowStartsOnCommonGround(chain, node, target, depth, window);
    WindowConverges(rows, chain, node, WindowFirst(chain, target, depth), WindowLast(chain, target, window) + 1);
  }

  /**
   * The same for the versioned tables: an interrupted window keeps the rows below it, a finished one stores the node's
   * chain.
   */
  method ProcessOnlineWindow(warehouse: CoreWarehouse.Warehouse, target: nat, depth: nat, window: nat, live: bool,
                             prefixLength: nat, boundaries: seq<string>, step: nat, processTail: int, node: seq<Block>,
                             ghost chain: seq<Block>, ghost mode: Mode)
    returns (error: Option<CoreWarehouse.CoreError>, tail: int)
    requires step > 0 && prefixLength > 0 && ValidChain(chain) && ValidChain(node) && HashesIdentify(chain, node)
    requires processTail == |chain| - 1 <= target < |node| && depth > 0 && window > 0
             && AgreesThroughFinalized(chain, node, depth)
    requires Stored(warehouse.Tables(), chain, mode) && (live ==> mode.current)
    modifies warehouse
    ensures error.Some? ==>
              && WindowFirst(chain, target, depth) <= |node|
              && HasPrefix(warehouse.Tables(), node[..WindowFirst(chain, target, depth)], mode.looks)
    ensures warehouse.reliable == old(warehouse.reliable) && (warehouse.reliable ==> error.None?)
    ensures error.None? ==>
              && tail == WindowLast(chain, target, window)
              && WindowFirst(chain, target, depth) <= tail + 1 <= |node|
              && Stored(warehouse.Tables(), node[..tail + 1],
                        CoreWarehouse.ModeOf(live, mode, chain, node, WindowFirst(chain, target, depth), tail + 1))
  {
    hide ValidChain, HashesIdentify, Stored, HasPrefix, ChainAfter, AgreesThroughFinalized;
    WindowStartsOnCommonGround(chain, node, target, depth, window);
    var lo := Recovery.OnlineWindowStart(processTail, target, depth);
    var hi := Min(target, processTail + window) + 1;
    var result;
    error, result := warehouse.ApplyCoreWindow(node[lo..hi], live, prefixLength, boundaries, step, chain, node, lo, hi,
      mode);
    tail := result.processTail;
  }
}
