/** What a stopped indexer leaves on disk, whatever stopped it, is what a new one can start from. */
module Restarts {
  import opened Base
  import opened Ledger
  import opened UndoLog
  import opened ReorgStore
  import opened Consumer
  import opened ReorgRuns
  import opened ReorgOutputs
  import opened HistoryRuns
  import opened Handler
  import opened HandledChain
  import opened HandledReorgs
  import opened UndoWindow

  /** A new indexer on these tables, with any holder index, nothing cached, on this chain. */
  ghost function Reopened(rows: Rows, h: Index, chain: seq<Handled>): Moment
  {
    Moment(Node(rows, map[], None), h, chain, 0)
  }

  /** The chain below the cache. */
  function BelowCache(m: Moment): seq<Handled>
  {
    m.chain[..if m.cached <= |m.chain| then |m.chain| - m.cached else 0]
  }

  /** Whatever holder index it builds, an indexer may start from these tables as standing on this chain. */
  ghost predicate Startable(rows: Rows, chain: seq<Handled>, val: Values)
  {
    forall h: Index :: StandsOn(Reopened(rows, h, chain), val)
  }

  /** Restoring part of the cache and then all of it is restoring all of it. */
  lemma {:induction false} PoppedTwice(r: Rows, blocks: Blocks, height: nat)
    ensures var (r', blocks') := Popped(r, blocks, height); Popped(r', blocks', 0) == Popped(r, blocks, 0)
    decreases |blocks|
  {
    hide RestoreBlock;
    if blocks != map[] && Last(blocks.Keys) > height {
      var k := Last(blocks.Keys);
      LastIn(blocks);
      PopShrinks(blocks, k);
      PoppedTwice(RestoreBlock(r, k, blocks[k]), blocks - {k}, height);
    }
  }

  lemma LastIn(blocks: Blocks)
    requires blocks != map[]
    ensures Last(blocks.Keys) in blocks
  {
  }

  /** The indexer stopped at `m`, everything cached undone, and started again. */
  ghost function Restarted(m: Moment, h: Index): Moment
  {
    Reopened(Popped(m.node.rows, m.node.blocks, 0).0, h, BelowCache(m))
  }

  lemma RestoredTable(n: Node, chain: seq<Handled>, cached: nat, k: Table)
    requires cached <= |chain| && Tracks(n, EMPTY, BlocksOf(chain), cached, k)
    ensures var left := chain[..|chain| - cached];
            Tracks(Node(Popped(n.rows, n.blocks, 0).0, map[], None), EMPTY, BlocksOf(left), 0, k)
  {
    hide Part, After, Popped, CachedAt;
    RestoreAllTracks(n, EMPTY, BlocksOf(chain), cached, k);
    BlocksPrefix(chain, |chain| - cached);
  }

  lemma RestoredOutputs(n: Node, chain: seq<Handled>, cached: nat, val: Values)
    requires cached <= |chain| && TracksOutputs(n, EMPTY, BlocksOf(chain), cached, val)
    ensures var left := chain[..|chain| - cached];
            TracksOutputs(Node(Popped(n.rows, n.blocks, 0).0, map[], None), EMPTY, BlocksOf(left), 0, val)
  {
    hide Over, After, Popped, OutputsCachedAt;
    RestoreAllOutputs(n, EMPTY, BlocksOf(chain), cached, val);
    BlocksPrefix(chain, |chain| - cached);
  }

  /** Stopped after any event, it starts again on the chain below the cache. */
  lemma RestartStands(m: Moment, h: Index, val: Values)
    requires StandsOn(m, val)
    ensures StandsOn(Restarted(m, h), val)
  {
    hide Tracks, TracksOutputs, Popped, WellHandled, BlocksOf, Restorable;
    WellPrefix(m.chain, |m.chain| - m.cached, val);
    forall k | Restorable(k) ensures Tracks(Restarted(m, h).node, EMPTY, BlocksOf(Restarted(m, h).chain), 0, k) {
      RestoredTable(m.node, m.chain, m.cached, k);
    }
    RestoredOutputs(m.node, m.chain, m.cached, val);
  }

  lemma NothingKept(m: Moment, val: Values)
    requires StandsOn(m, val)
    ensures Popped(m.node.rows, m.node.blocks, 0).1 == map[]
  {
    hide Tracks, TracksOutputs, Popped, WellHandled, BlocksOf;
    assert Restorable(Metas);
    RestoreAllTracks(m.node, EMPTY, BlocksOf(m.chain), m.cached, Metas);
  }

  /** Refused an event, its rollback done and then everything still cached undone: the same chain, for the
      refused block follows nothing only while something stays cached. */
  lemma RefusedStands(m: Moment, e: ChainEvent, h: Index, val: Values)
    requires StandsOn(m, val) && REORG_CACHE_MAX_LEN <= e.tip && !Follows(Rolled(m.node, WithData(e, [])).1, e.block.height)
    ensures var (r, blocks) := Rolled(m.node, WithData(e, []));
            Popped(r, blocks, 0).1 == map[] && StandsOn(Reopened(Popped(r, blocks, 0).0, h, BelowCache(m)), val)
  {
    hide StandsOn, Popped, BelowCache;
    RestartStands(m, h, val);
    NothingKept(m, val);
    if !WithData(e, []).Cached() {
      NothingPopped(m.node.rows, RestoreHeight(m.node.prevHeight, e.reorgLen));
    } else {
      PoppedTwice(m.node.rows, m.node.blocks, RestoreHeight(m.node.prevHeight, e.reorgLen));
    }
  }

  lemma Untracked(m: Moment, e: ChainEvent, h: Index, k: Table)
    requires REORG_CACHE_MAX_LEN <= e.tip && Part(RolledRows(m, e), k) == Part(RowsOf(Left(m.chain, m.cached, e)), k)
    ensures Tracks(Reopened(RolledRows(m, e), h, Left(m.chain, m.cached, e)).node, EMPTY, BlocksOf(Left(m.chain, m.cached, e)), 0, k)
  {
    hide Part, RowsOf, BlocksOf, Rolled, Left, CachedAt;
    AfterBlocks(Left(m.chain, m.cached, e));
  }

  /** Killed by a panic while handling an event's block: the tables hold what the rollback left, the cache
      is gone, and the chain is the one the event left standing. */
  lemma DiedStands(m: Moment, e: ChainEvent, h: Index, val: Values)
    requires StandsOn(m, val) && REORG_CACHE_MAX_LEN <= e.tip
    ensures StandsOn(Reopened(RolledRows(m, e), h, Left(m.chain, m.cached, e)), val)
  {
    hide Tracks, TracksOutputs, WellHandled, BlocksOf, Part, RowsOf, RolledRows, Restorable, Over, Left;
    var left := Left(m.chain, m.cached, e);
    RolledBack(m, e, val);
    WellLeft(m.chain, m.cached, e, val);
    forall k | Restorable(k) ensures Tracks(Reopened(RolledRows(m, e), h, left).node, EMPTY, BlocksOf(left), 0, k) {
      Untracked(m, e, h, k);
    }
    AfterBlocks(left);
    NoWindow(RolledRows(m, e), left, val);
  }

  lemma NoWindow(r: Rows, left: seq<Handled>, val: Values)
    requires Over(r.ordinals.prevouts, After(EMPTY, BlocksOf(left)).ordinals.prevouts, val)
    ensures TracksOutputs(Node(r, map[], None), EMPTY, BlocksOf(left), 0, val)
  {
    hide Over, BlocksOf, After, OutputsCachedAt;
  }
}
