/** Streams of blocks with reorgs, and what makes one valid: each block extends the blocks that survive
    before it. Nothing here looks at what the indexer stores. */
module BlockStreams {
  import opened Base
  import opened Ledger
  import opened CacheRefinement
  import opened Routing
  import opened BlockParser
  import opened OwnRecords
  import opened Pipeline
  import opened UndoLog
  import opened ReorgStore
  import opened Consumer
  import opened ReorgRuns
  import opened ReorgOutputs
  import opened HistoryRuns
  import opened Handler
  import opened HandledRuns
  import opened HandledChain
  import opened HandledReorgs
  import Lifecycle
  import Prevouts

  ghost predicate TipsOk(es: seq<ChainEvent>)
  {
    forall i :: 0 <= i < |es| ==> REORG_CACHE_MAX_LEN <= es[i].tip
  }

  function CachedAfter(cached: nat, e: ChainEvent): nat
    requires REORG_CACHE_MAX_LEN <= e.tip
  {
    if !WithData(e, []).Cached() then 0
    else
      var left := cached - Dropped(cached, WithData(e, []));
      if left == REORG_CACHE_MAX_LEN then left else left + 1
  }

  /** The blocks a stream leaves, and how many of them are cached. */
  datatype Survivors = Survivors(blocks: seq<Env>, cached: nat)

  function Surviving(es: seq<ChainEvent>): Survivors
    requires TipsOk(es)
  {
    if es == [] then Survivors([], 0)
    else
      var s, e := Surviving(es[..|es| - 1]), es[|es| - 1];
      Survivors(Left(s.blocks, s.cached, e) + [e.block], CachedAfter(s.cached, e))
  }

  function TxidsIn(blocks: seq<Env>): set<nat>
  {
    if blocks == [] then {}
    else
      var txs := blocks[|blocks| - 1].txs;
      TxidsIn(blocks[..|blocks| - 1]) + (set k | 0 <= k < |txs| :: txs[k].txid)
  }

  function UnspentAfter(blocks: seq<Env>): Outputs
  {
    if blocks == [] then map[]
    else
      var txs := blocks[|blocks| - 1].txs;
      (UnspentAfter(blocks[..|blocks| - 1]) + Prevouts.Written(txs)) - Prevouts.Spent(txs)
  }

  /** Block `e` on the blocks left standing: new transactions, inputs unspent, heights rising. */
  ghost predicate ValidOn(left: seq<Env>, e: ChainEvent, val: Values)
  {
    Extends(TxidsIn(left), UnspentAfter(left), e.block, val) && forall j :: 0 <= j < |left| ==> left[j].height < e.block.height
  }

  ghost predicate ValidAt(es: seq<ChainEvent>, i: nat, val: Values)
    requires TipsOk(es) && i < |es|
  {
    var s := Surviving(es[..i]);
    ValidOn(Left(s.blocks, s.cached, es[i]), es[i], val)
  }

  ghost predicate ValidStream(es: seq<ChainEvent>, val: Values)
  {
    TipsOk(es) && forall i :: 0 <= i < |es| ==> ValidAt(es, i, val)
  }

  /** The events sent after `past` are a valid continuation of it. */
  ghost predicate ValidAfter(past: seq<ChainEvent>, es: seq<ChainEvent>, val: Values)
  {
    TipsOk(past + es) && forall i :: |past| <= i < |past + es| ==> ValidAt(past + es, i, val)
  }

  /** The event comes right above the blocks that stay cached, if any do. */
  predicate InOrder(s: Survivors, e: ChainEvent)
    requires REORG_CACHE_MAX_LEN <= e.tip
  {
    var left := Left(s.blocks, s.cached, e);
    WithData(e, []).Cached() && Dropped(s.cached, WithData(e, [])) < s.cached && left != [] ==> left[|left| - 1].height + 1 == e.block.height
  }

  // ---- streams and what the indexer stands on ----

  ghost predicate SameBlock(b: Handled, block: Env)
  {
    b.env == block.(prevouts := b.env.prevouts)
  }

  ghost predicate SameBlocks(chain: seq<Handled>, blocks: seq<Env>)
  {
    |chain| == |blocks| && forall j :: 0 <= j < |chain| ==> SameBlock(chain[j], blocks[j])
  }

  /** Transactions and unspent outputs of a chain are those of its blocks, however they were handled. */
  lemma {:induction false} ConsensusSide(chain: seq<Handled>, blocks: seq<Env>)
    requires SameBlocks(chain, blocks)
    ensures WorldOf(chain).txids == TxidsIn(blocks) && WorldOf(chain).unspent == UnspentAfter(blocks)
    decreases |chain|
  {
    hide RowsAfter, RowsOf, Prevouts.Written, Prevouts.Spent;
    if chain != [] {
      var n := |chain| - 1;
      assert SameBlock(chain[n], blocks[n]);
      ConsensusSide(chain[..n], blocks[..n]);
    }
  }

  lemma LeftSame(chain: seq<Handled>, blocks: seq<Env>, cached: nat, e: ChainEvent)
    requires REORG_CACHE_MAX_LEN <= e.tip && SameBlocks(chain, blocks)
    ensures SameBlocks(Left(chain, cached, e), Left(blocks, cached, e))
  {
    hide SameBlock, Dropped;
  }

  /** A valid stream's next block is valid on what the indexer is left with. */
  lemma StreamValid(chain: seq<Handled>, blocks: seq<Env>, cached: nat, e: ChainEvent, val: Values)
    requires REORG_CACHE_MAX_LEN <= e.tip && SameBlocks(chain, blocks) && ValidOn(Left(blocks, cached, e), e, val)
    ensures Valid(Left(chain, cached, e), e.block, val)
  {
    hide Extends, Left, WorldOf, TxidsIn, UnspentAfter;
    LeftSame(chain, blocks, cached, e);
    ConsensusSide(Left(chain, cached, e), Left(blocks, cached, e));
    forall j | 0 <= j < |Left(chain, cached, e)| ensures Left(chain, cached, e)[j].env.height < e.block.height {
      assert SameBlock(Left(chain, cached, e)[j], Left(blocks, cached, e)[j]);
    }
  }

  /** The event is refused exactly when it is out of order. */
  lemma RefusedExactly(m: Moment, s: Survivors, e: ChainEvent, val: Values)
    requires REORG_CACHE_MAX_LEN <= e.tip && StandsOn(m, val) && SameBlocks(m.chain, s.blocks) && m.cached == s.cached
    ensures Follows(Rolled(m.node, WithData(e, [])).1, e.block.height) <==> InOrder(s, e)
  {
    hide Tracks, TracksOutputs, WellHandled, Rolled, Next, BlocksOf, Follows, Dropped, Restorable;
    NextExists(m.node, e, []);
    StandsTracks(m, val);
    RefusesExactly(m.node, WithData(e, []), EMPTY, ChainOf(m), Metas);
    LeftBlocks(m.chain, m.cached, e);
    var left := Left(m.chain, m.cached, e);
    if left != [] {
      BlocksAt(left, |left| - 1);
      assert SameBlock(left[|left| - 1], Left(s.blocks, s.cached, e)[|left| - 1]) by { LeftSame(m.chain, s.blocks, m.cached, e); }
    }
  }

  lemma StandsTracks(m: Moment, val: Values)
    requires StandsOn(m, val)
    ensures Tracks(m.node, EMPTY, BlocksOf(m.chain), m.cached, Metas)
  {
    hide Tracks, TracksOutputs, WellHandled;
    assert Restorable(Metas);
  }

  // ---- starting again ----

  /** The blocks of a chain as a past that leaves nothing cached. */
  function PastOf(blocks: seq<Env>): seq<ChainEvent>
  {
    seq(|blocks|, i requires 0 <= i < |blocks| => ChainEvent(blocks[i], blocks[i].height + REORG_CACHE_MAX_LEN, 0, map[], BlockInfo(0, 0), 0))
  }

  lemma {:induction false} PastLeaves(blocks: seq<Env>)
    ensures TipsOk(PastOf(blocks)) && Surviving(PastOf(blocks)) == Survivors(blocks, 0)
    decreases |blocks|
  {
    if blocks != [] {
      var n := |blocks| - 1;
      PastLeaves(blocks[..n]);
      assert PastOf(blocks)[..n] == PastOf(blocks[..n]);
    }
  }

  // ---- transfers apart ----

  /** No two transfers the block pushes on one location differ in amount or tick. */
  ghost predicate Apart(m: Moment, e: ChainEvent, start: nat, val: Values)
    requires REORG_CACHE_MAX_LEN <= e.tip
  {
    var env := Resolved(e.block, val);
    start <= env.height && |env.txs| != 1 && Balanced(env.txs, env.prevouts) ==> SameTransfers(ParsedOn(RolledRows(m, e), env).actions)
  }

  lemma StartsApart(w: World, r: Rows, env: Env)
    requires Reflects(w, r, w.holders) && WorldOk(w) && BlockOk(w, env) && Balanced(env.txs, env.prevouts) && Lifecycle.DistinctStarts(env)
    ensures SameTransfers(ParsedOn(r, env).actions)
  {
    hide WorldOk, Parsed, LoadTransfers, Protos, SameTransfers, Lifecycle.Alive, Balanced, Lifecycle.DistinctStarts, NewTxs, Only;
    LoadedRows(w, r, env);
    StartsAlive(w, env, Only(r.ordinals.partials, env.prevouts.Keys));
    StartsSuffice(env, LoadTransfers(w.ledger.transfers, env.prevouts), StartOn(r, env));
  }

  /** It is enough that no creation starts where an earlier input of its transaction does. */
  lemma DistinctApart(m: Moment, e: ChainEvent, start: nat, val: Values)
    requires REORG_CACHE_MAX_LEN <= e.tip && StandsOn(m, val) && Valid(Left(m.chain, m.cached, e), e.block, val)
    requires var env := Resolved(e.block, val); Balanced(env.txs, env.prevouts) ==> Lifecycle.DistinctStarts(env)
    ensures Apart(m, e, start, val)
  {
    hide StandsOn, Valid, Left, WorldOk, ParsedOn, RolledRows, SameTransfers, Lifecycle.DistinctStarts, LookedUp, NewTxs, LedgerOf, WorldOf;
    EventHandleable(m, e, start, val);
    StartsApart(Actual(Left(m.chain, m.cached, e), RolledRows(m, e), m.holders), RolledRows(m, e), Resolved(e.block, val));
  }
}
