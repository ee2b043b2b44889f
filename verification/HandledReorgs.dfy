/** The indexer under reorgs: for every stream of blocks a valid chain can send, rollbacks included, the
    tables after each event are those of the surviving blocks, each handled on what the ones below it left. */
module HandledReorgs {
  import opened Base
  import opened Ledger
  import opened HolderIndex
  import opened CacheRefinement
  import opened BlockParser
  import opened NoCollision
  import opened OwnRecords
  import opened Pipeline
  import opened HistoryIds
  import opened UndoLog
  import opened UndoWindow
  import opened ReorgStore
  import opened Consumer
  import opened ReorgRuns
  import opened ReorgOutputs
  import opened HistoryRuns
  import opened Handler
  import opened BlockOutputs
  import opened HandledBlocks
  import opened HandledRuns
  import opened HandledChain
  import LedgerInvariants
  import LogReplay
  import Positions
  import Prevouts
  import Routing

  // ---- what consensus gives ----

  /** A block as the follower sends it. */
  datatype ChainEvent = ChainEvent(block: Env, tip: nat, reorgLen: nat, addresses: map<FullHash, string>, info: BlockInfo, proof: nat)

  ghost function TrueInputs(block: Env, val: Values): map<OutPoint, TxPrevout>
  {
    map o | o in Prevouts.Spent(block.txs) :: val(o)
  }

  ghost function Resolved(block: Env, val: Values): Env
  {
    block.(prevouts := TrueInputs(block, val))
  }

  /** An input is an unspent output of the chain, or a spendable one of the block. */
  ghost predicate Spendable(unspent: Outputs, block: Env, o: OutPoint)
  {
    if Outside(block.txs, o) then o in unspent else exists out :: InBlock(block, o, out) && !out.unspendable
  }

  /** What consensus gives a block on a chain with these transactions and unspent outputs; `val` says what
      each outpoint stands for. */
  ghost predicate Extends(txids: set<nat>, unspent: Outputs, block: Env, val: Values)
  {
    && Positions.Ok(Resolved(block, val)) && OutputsAgree(val, block)
    && (forall k :: 0 <= k < |block.txs| ==> block.txs[k].txid !in txids)
    && (forall o :: o in Prevouts.Spent(block.txs) ==> Spendable(unspent, block, o))
  }

  lemma SameOutputs(block: Env, val: Values, o: OutPoint, out: TxOut)
    ensures InBlock(Resolved(block, val), o, out) == InBlock(block, o, out)
  {
  }

  lemma ResolvedTxids(txids: set<nat>, unspent: Outputs, block: Env, val: Values)
    requires Extends(txids, unspent, block, val)
    ensures DistinctTxids(block.txs)
  {
    TxidsDistinct(Resolved(block, val));
  }

  lemma InputFound(stored: Outputs, unspent: Outputs, block: Env, val: Values, o: OutPoint)
    requires DistinctTxids(block.txs) && OutputsAgree(val, block) && Spendable(unspent, block, o)
    requires Over(stored, unspent, val)
    ensures Prevouts.LookUp(stored, Prevouts.Written(block.txs), o) == Some(val(o))
  {
    hide Prevouts.Written, InBlock, DistinctTxids;
    WrittenIs(block, o);
    if !Outside(block.txs, o) {
      var out :| InBlock(block, o, out) && !out.unspendable;
    }
  }

  /** Every input of such a block is found, by its true value, on any table that holds the unspent outputs. */
  lemma InputsFound(txids: set<nat>, unspent: Outputs, r: Rows, block: Env, val: Values)
    requires Extends(txids, unspent, block, val) && Over(r.ordinals.prevouts, unspent, val)
    ensures LookedUp(r, block) == Some(TrueInputs(block, val))
  {
    hide Positions.Ok, Prevouts.Written, Prevouts.Spent, Prevouts.LookUp, Over, OutputsAgree, Spendable, DistinctTxids;
    ResolvedTxids(txids, unspent, block, val);
    forall o | o in Prevouts.Spent(block.txs)
      ensures Prevouts.LookUp(r.ordinals.prevouts, Prevouts.Written(block.txs), o) == Some(val(o)) {
      InputFound(r.ordinals.prevouts, unspent, block, val, o);
    }
    assert LookedUp(r, block).Some?;
    assert LookedUp(r, block).value == TrueInputs(block, val);
  }

  lemma SpentInBlock(block: Env, val: Values, o: OutPoint)
    requires Positions.Ok(Resolved(block, val)) && o in Prevouts.Spent(block.txs)
    ensures exists k: nat, i: nat :: 1 <= k < |block.txs| && Positions.Spends(block.txs[k], i, o)
  {
    hide Prevouts.Spent;
    assert block.txs[..|block.txs|] == block.txs;
    Prevouts.SpentBy(block.txs, |block.txs|, o);
    var k: nat, i: nat :| k < |block.txs| && !block.txs[k].coinbase && Positions.Spends(block.txs[k], i, o);
  }

  /** Such a block is one the whole-run theorem covers, whatever true outputs a rollback left behind. */
  lemma ExtendsIsOk(w: World, block: Env, val: Values)
    requires OutputsTrue(w) && (forall o :: o in w.made ==> val(o) == AsPrevout(w.made[o]))
    requires Extends(w.txids, w.unspent, block, val) && Agrees(val, w.prevouts)
    ensures BlockOk(w, Resolved(block, val))
  {
    hide Positions.Ok, Prevouts.Spent, InBlock, AsPrevout, Positions.Spends;
    var env := Resolved(block, val);
    forall o, out | o in w.prevouts && InBlock(env, o, out) ensures w.prevouts[o] == AsPrevout(out) {
      SameOutputs(block, val, o, out);
    }
    forall o | o in env.prevouts ensures exists k: nat, i: nat :: 1 <= k < |env.txs| && Positions.Spends(env.txs[k], i, o) {
      SpentInBlock(block, val, o);
    }
    forall o | o in env.prevouts && Outside(env.txs, o) ensures o in w.unspent && env.prevouts[o] == w.unspent[o] {
      assert Spendable(w.unspent, block, o);
    }
  }

  // ---- the work done depends on the restorable tables alone ----

  lemma SameTables(r: Rows, s: Rows)
    requires forall k :: Restorable(k) ==> Part(r, k) == Part(s, k)
    ensures LedgerOf(r) == LedgerOf(s) && r.ordinals.partials == s.ordinals.partials && r.ordinals.offsets == s.ordinals.offsets
    ensures r.tokens.LastHistoryId() == s.tokens.LastHistoryId()
  {
    assert Part(r, Metas) == Part(s, Metas) && Part(r, Balances) == Part(s, Balances) && Part(r, Transfers) == Part(s, Transfers);
    assert Part(r, PartialTable) == Part(s, PartialTable) && Part(r, OffsetTable) == Part(s, OffsetTable) && Part(r, History) == Part(s, History);
  }

  lemma SameWork(r: Rows, s: Rows, h: Index, b: Handled)
    requires forall k :: Restorable(k) ==> Part(r, k) == Part(s, k)
    requires WorkedOut(r, h, b) && LookedUp(s, b.env) == Some(b.env.prevouts)
    ensures WorkedOut(s, h, b) && DataOf(r, b) == DataOf(s, b)
  {
    hide Part, Parsed, Run, LoadedCache, LoadTransfers, Only, Protos, OffsetsLeft, Routing.Balanced, Prevouts.Batch, Prevouts.Written, Prevouts.Spent, Assigned, LastId, TransferRows, TransferKeys;
    SameTables(r, s);
  }

  // ---- one event ----

  /** The indexer between events: its tables, cache and holder index, and the chain it stands on with the
      number of blocks cached. */
  datatype Moment = Moment(node: Node, holders: Index, chain: seq<Handled>, cached: nat)

  function WithData(e: ChainEvent, data: seq<ProcessedData>): BlockEvent
  {
    BlockEvent(e.block.height, e.tip, e.reorgLen, data)
  }

  ghost predicate StandsOn(m: Moment, val: Values)
  {
    && m.cached <= |m.chain| && WellHandled(m.chain, val)
    && (forall k :: Restorable(k) ==> Tracks(m.node, EMPTY, BlocksOf(m.chain), m.cached, k))
    && TracksOutputs(m.node, EMPTY, BlocksOf(m.chain), m.cached, val)
  }

  ghost function ChainOf(m: Moment): Chain
  {
    Chain(BlocksOf(m.chain), m.cached)
  }

  /** The blocks an event leaves standing. */
  function Left<T>(chain: seq<T>, cached: nat, e: ChainEvent): seq<T>
    requires REORG_CACHE_MAX_LEN <= e.tip
  {
    var dropped := Dropped(cached, WithData(e, []));
    chain[..if dropped <= |chain| then |chain| - dropped else 0]
  }

  ghost function RolledRows(m: Moment, e: ChainEvent): Rows
    requires REORG_CACHE_MAX_LEN <= e.tip
  {
    Rolled(m.node, WithData(e, [])).0
  }

  lemma LeftBlocks(chain: seq<Handled>, cached: nat, e: ChainEvent)
    requires REORG_CACHE_MAX_LEN <= e.tip && cached <= |chain|
    ensures BlocksOf(Left(chain, cached, e)) == Kept(Chain(BlocksOf(chain), cached), WithData(e, []))
  {
    hide BlocksOf;
    BlocksPrefix(chain, |Left(chain, cached, e)|);
  }

  lemma RolledTable(n: Node, chain: seq<Handled>, cached: nat, e: ChainEvent, k: Table)
    requires REORG_CACHE_MAX_LEN <= e.tip && cached <= |chain| && Tracks(n, EMPTY, BlocksOf(chain), cached, k)
    ensures Part(Rolled(n, WithData(e, [])).0, k) == Part(RowsOf(Left(chain, cached, e)), k)
  {
    hide Tracks, Rolled, Part, CachedAt, Cut, After, BlocksOf, Left, Kept, Dropped, RowsOf;
    LeftBlocks(chain, cached, e);
    AfterBlocks(Left(chain, cached, e));
    RollTracks(n, WithData(e, []), EMPTY, Chain(BlocksOf(chain), cached), k);
  }

  lemma RolledOutputs(n: Node, chain: seq<Handled>, cached: nat, e: ChainEvent, val: Values)
    requires REORG_CACHE_MAX_LEN <= e.tip && cached <= |chain| && TracksOutputs(n, EMPTY, BlocksOf(chain), cached, val)
    ensures Over(Rolled(n, WithData(e, [])).0.ordinals.prevouts, RowsOf(Left(chain, cached, e)).ordinals.prevouts, val)
  {
    hide TracksOutputs, Rolled, OutputsCachedAt, Cut, Over, After, BlocksOf, Left, Kept, Dropped, RowsOf;
    LeftBlocks(chain, cached, e);
    AfterBlocks(Left(chain, cached, e));
    RollOutputs(n, WithData(e, []), EMPTY, Chain(BlocksOf(chain), cached), val);
  }

  /** After the rollback each restorable table is what the blocks left standing made it, and the outputs
      cover theirs. */
  lemma RolledBack(m: Moment, e: ChainEvent, val: Values)
    requires REORG_CACHE_MAX_LEN <= e.tip && StandsOn(m, val)
    ensures forall k :: Restorable(k) ==> Part(RolledRows(m, e), k) == Part(RowsOf(Left(m.chain, m.cached, e)), k)
    ensures Over(RolledRows(m, e).ordinals.prevouts, RowsOf(Left(m.chain, m.cached, e)).ordinals.prevouts, val)
  {
    hide Restorable, Tracks, TracksOutputs, Rolled, Part, Over, WellHandled, BlocksOf, RowsOf, Left;
    forall k | Restorable(k) ensures Part(RolledRows(m, e), k) == Part(RowsOf(Left(m.chain, m.cached, e)), k) {
      RolledTable(m.node, m.chain, m.cached, e, k);
    }
    RolledOutputs(m.node, m.chain, m.cached, e, val);
  }

  /** A block above those it comes to stand on, and valid on them. */
  ghost predicate Valid(left: seq<Handled>, block: Env, val: Values)
  {
    Extends(WorldOf(left).txids, WorldOf(left).unspent, block, val) && HigherThan(left, block.height)
  }

  /** The event is accepted, and `b` is the work done for its block. */
  ghost predicate Accepts(m: Moment, e: ChainEvent, b: Handled)
  {
    && REORG_CACHE_MAX_LEN <= e.tip && m.cached <= |m.chain|
    && Follows(Rolled(m.node, WithData(e, [])).1, e.block.height)
    && WorkedOut(RolledRows(m, e), m.holders, b) && b.env == e.block.(prevouts := b.env.prevouts)
  }

  ghost function Advanced(m: Moment, e: ChainEvent, b: Handled): Moment
    requires Accepts(m, e, b)
  {
    var s := WithData(e, DataOf(RolledRows(m, e), b));
    Moment(Next(m.node, s).value, b.after, Left(m.chain, m.cached, e) + [b], Extended(ChainOf(m), s).cached)
  }

  /** A well handled chain and the outputs its table holds. */
  lemma IdealOutputs(left: seq<Handled>, val: Values)
    requires WellHandled(left, val)
    ensures var w := WorldOf(left);
            && WorldOk(w) && w.ledger == LedgerOf(RowsOf(left)) && w.offsets == RowsOf(left).ordinals.offsets
            && w.unspent == w.prevouts == RowsOf(left).ordinals.prevouts
            && (forall o :: o in w.made ==> val(o) == AsPrevout(w.made[o]))
  {
    hide WellHandled, WorldOk, RowsOk, HistoryOk, HigherThan, WorldOf, RowsOf, LedgerOf, AsPrevout;
    ChainKeeps(left, val);
  }

  lemma UnderOk(w: World, h: Index, block: Env, val: Values)
    requires WorldOk(w) && (forall o :: o in w.made ==> val(o) == AsPrevout(w.made[o]))
    requires Extends(w.txids, w.unspent, block, val) && Agrees(val, w.prevouts)
    ensures WorldOk(Under(w, h)) && BlockOk(Under(w, h), Resolved(block, val))
  {
    hide LedgerInvariants.Inv, OneOwner, LogReplay.Replay, LedgerInvariants.Gap, LogReplay.ViewOf, Whole, Extends, Agrees, Positions.Ok, NewTxs, AsPrevout, At;
    ExtendsIsOk(Under(w, h), block, val);
  }

  /** The work done on the rolled-back tables is the work on what the blocks left standing made. */
  lemma WorkIsIdeal(r: Rows, h: Index, left: seq<Handled>, block: Env, b: Handled, val: Values)
    requires WellHandled(left, val) && Valid(left, block, val)
    requires (forall k :: Restorable(k) ==> Part(r, k) == Part(RowsOf(left), k)) && Over(r.ordinals.prevouts, RowsOf(left).ordinals.prevouts, val)
    requires WorkedOut(r, h, b) && b.env == block.(prevouts := b.env.prevouts) && (Full(b) ==> SameTransfers(b.p.actions))
    ensures Top(left, b, val) && DataOf(r, b) == DataOf(RowsOf(left), b)
  {
    hide WellHandled, WorldOk, BlockOk, WorldOf, RowsOf, LedgerOf, AsPrevout, Part, Restorable, Extends, DataOf, SameTransfers, OutputsAgree, HigherThan, LookedUp;
    var w, s := WorldOf(left), RowsOf(left);
    IdealOutputs(left, val);
    InputsFound(w.txids, w.unspent, r, block, val);
    InputsFound(w.txids, w.unspent, s, block, val);
    SameLookUp(r, block, b.env);
    SameLookUp(s, block, b.env);
    assert b.env == Resolved(block, val);
    SameWork(r, s, h, b);
    UnderOk(w, h, block, val);
    BlockAgrees(w.txids, w.unspent, block, val);
  }

  lemma SameLookUp(r: Rows, block: Env, env: Env)
    requires env.txs == block.txs
    ensures LookedUp(r, env) == LookedUp(r, block)
  {
  }

  lemma BlockAgrees(txids: set<nat>, unspent: Outputs, block: Env, val: Values)
    requires Extends(txids, unspent, block, val)
    ensures OutputsAgree(val, Resolved(block, val))
  {
    hide Positions.Ok, InBlock;
    forall o, out | InBlock(Resolved(block, val), o, out) ensures val(o) == AsPrevout(out) {
      SameOutputs(block, val, o, out);
    }
  }

  lemma ExtendedBlocks(chain: seq<Handled>, cached: nat, e: ChainEvent, b: Handled)
    requires REORG_CACHE_MAX_LEN <= e.tip && cached <= |chain| && b.env.height == e.block.height
    ensures var left := Left(chain, cached, e);
            var s := WithData(e, DataOf(RowsOf(left), b));
            Kept(Chain(BlocksOf(chain), cached), s) == BlocksOf(left)
            && Extended(Chain(BlocksOf(chain), cached), s).blocks == BlocksOf(left + [b])
  {
    hide DataOf, RowsOf, BlocksOf, Kept, Left, Dropped, Extended;
    LeftBlocks(chain, cached, e);
    BlocksOnTop(Left(chain, cached, e), b);
    KeptAlike(Chain(BlocksOf(chain), cached), e, DataOf(RowsOf(Left(chain, cached, e)), b));
  }

  lemma KeptAlike(ch: Chain, e: ChainEvent, data: seq<ProcessedData>)
    requires REORG_CACHE_MAX_LEN <= e.tip && ch.cached <= |ch.blocks|
    ensures Kept(ch, WithData(e, data)) == Kept(ch, WithData(e, []))
    ensures Extended(ch, WithData(e, data)).blocks == Kept(ch, WithData(e, [])) + [Block(e.block.height, data)]
  {
  }

  lemma BlocksOnTop(left: seq<Handled>, b: Handled)
    ensures BlocksOf(left + [b]) == BlocksOf(left) + [BlockOf(left, b)]
  {
    hide BlockOf;
    assert (left + [b])[..|left|] == left;
  }

  lemma EventTable(n: Node, chain: seq<Handled>, cached: nat, e: ChainEvent, b: Handled, k: Table)
    requires REORG_CACHE_MAX_LEN <= e.tip && cached <= |chain| && b.env.height == e.block.height
    requires Tracks(n, EMPTY, BlocksOf(chain), cached, k)
    requires var left := Left(chain, cached, e); DataOk(EMPTY, BlocksOf(left), DataOf(RowsOf(left), b), k)
    requires Next(n, WithData(e, DataOf(RowsOf(Left(chain, cached, e)), b))).Some?
    ensures var left := Left(chain, cached, e);
            var s := WithData(e, DataOf(RowsOf(left), b));
            Tracks(Next(n, s).value, EMPTY, BlocksOf(left + [b]), Extended(Chain(BlocksOf(chain), cached), s).cached, k)
  {
    hide Tracks, Next, Kept, Extended, DataOk, Left, BlocksOf, RowsOf, DataOf;
    var left := Left(chain, cached, e);
    ExtendedBlocks(chain, cached, e, b);
    EventTracks(n, WithData(e, DataOf(RowsOf(left), b)), EMPTY, Chain(BlocksOf(chain), cached), k);
  }

  lemma EventOutput(n: Node, chain: seq<Handled>, cached: nat, e: ChainEvent, b: Handled, val: Values)
    requires REORG_CACHE_MAX_LEN <= e.tip && cached <= |chain| && b.env.height == e.block.height
    requires TracksOutputs(n, EMPTY, BlocksOf(chain), cached, val)
    requires var left := Left(chain, cached, e); WellHandled(left, val) && Top(left, b, val)
    requires Next(n, WithData(e, DataOf(RowsOf(Left(chain, cached, e)), b))).Some?
    ensures var left := Left(chain, cached, e);
            var s := WithData(e, DataOf(RowsOf(left), b));
            TracksOutputs(Next(n, s).value, EMPTY, BlocksOf(left + [b]), Extended(Chain(BlocksOf(chain), cached), s).cached, val)
  {
    hide TracksOutputs, Next, Kept, Extended, OutputsOk, WellHandled, Top, Left, BlocksOf, RowsOf, DataOf, ChainOk, OverwritesAll;
    var left := Left(chain, cached, e);
    ChainKeeps(left, val);
    TopOutputs(left, b, val);
    ExtendedBlocks(chain, cached, e, b);
    EventOutputs(n, WithData(e, DataOf(RowsOf(left), b)), EMPTY, Chain(BlocksOf(chain), cached), val);
  }

  lemma NextExists(n: Node, e: ChainEvent, data: seq<ProcessedData>)
    requires REORG_CACHE_MAX_LEN <= e.tip
    ensures Next(n, WithData(e, data)).Some? <==> Follows(Rolled(n, WithData(e, [])).1, e.block.height)
  {
    hide Popped, WriteAll, LogOf, Opened;
  }

  /** Every accepted event of a valid stream leaves the indexer on the surviving blocks and the new one. */
  lemma EventStands(m: Moment, e: ChainEvent, b: Handled, val: Values)
    requires StandsOn(m, val) && Accepts(m, e, b) && Valid(Left(m.chain, m.cached, e), e.block, val)
    requires Full(b) ==> SameTransfers(b.p.actions)
    ensures StandsOn(Advanced(m, e, b), val)
  {
    hide Tracks, TracksOutputs, Rolled, Part, Over, WellHandled, WorldOf, RowsOf, Top, DataOf, WorkedOut, SameTransfers, Restorable, BlocksOf, Next, Extended, Valid, RolledRows, ChainOk, DataOk;
    var left := Left(m.chain, m.cached, e);
    RolledBack(m, e, val);
    WellPrefix(m.chain, |left|, val);
    WorkIsIdeal(RolledRows(m, e), m.holders, left, e.block, b, val);
    WellOnTop(left, b, val);
    ChainKeeps(left, val);
    var data := DataOf(RowsOf(left), b);
    NextExists(m.node, e, data);
    forall k | Restorable(k) ensures Tracks(Next(m.node, WithData(e, data)).value, EMPTY, BlocksOf(left + [b]), Extended(ChainOf(m), WithData(e, data)).cached, k) {
      TopFresh(left, b, val, k);
      EventTable(m.node, m.chain, m.cached, e, b, k);
    }
    EventOutput(m.node, m.chain, m.cached, e, b, val);
    ExtendedBlocks(m.chain, m.cached, e, b);
    assert |Extended(ChainOf(m), WithData(e, data)).blocks| == |left + [b]|;
  }

  // ---- the tables themselves ----

  /** The world the indexer's own tables stand for: those of the chain, with what rollbacks left in the
      table of outputs and in the holder index. */
  ghost function Actual(chain: seq<Handled>, r: Rows, h: Index): World
  {
    WorldOf(chain).(prevouts := r.ordinals.prevouts, holders := h)
  }

  lemma SameHistory(r: Rows, s: Rows)
    requires (forall k :: Restorable(k) ==> Part(r, k) == Part(s, k)) && HistoryOk(s)
    ensures HistoryOk(r)
  {
    hide IdsOk;
    assert Part(r, History) == Part(s, History);
  }

  lemma ActualWorld(w: World, r: Rows, h: Index, val: Values)
    requires WorldOk(w) && RowsOk(w, r) && w.ledger == LedgerOf(r) && w.offsets == r.ordinals.offsets
    requires (forall o :: o in w.made ==> val(o) == AsPrevout(w.made[o])) && Over(r.ordinals.prevouts, w.unspent, val)
    ensures var a := w.(prevouts := r.ordinals.prevouts, holders := h);
            WorldOk(a) && RowsOk(a, r) && Reflects(a, r, h) && UndoLog.Stored(r.ordinals.prevouts, a.unspent)
  {
    hide AsPrevout, LedgerInvariants.Inv, OneOwner, LogReplay.Replay, LedgerInvariants.Gap, LogReplay.ViewOf, Whole, At;
  }

  /** Tables that agree with the chain's keep every promise. */
  lemma ActualOk(chain: seq<Handled>, r: Rows, h: Index, val: Values)
    requires WellHandled(chain, val)
    requires (forall k :: Restorable(k) ==> Part(r, k) == Part(RowsOf(chain), k)) && Over(r.ordinals.prevouts, RowsOf(chain).ordinals.prevouts, val)
    ensures var w := Actual(chain, r, h);
            && Reflects(w, r, h) && WorldOk(w) && RowsOk(w, r) && HistoryOk(r) && UndoLog.Stored(r.ordinals.prevouts, w.unspent)
  {
    hide WellHandled, WorldOf, RowsOf, Part, Restorable, HistoryOk, AsPrevout, WorldOk, Over, UndoLog.Stored, EventsBelow;
    ChainKeeps(chain, val);
    SameTables(r, RowsOf(chain));
    SameHistory(r, RowsOf(chain));
    ActualWorld(WorldOf(chain), r, h, val);
  }

  /** What an event's rolled-back tables and block are to the handler: good tables, a block it may handle,
      every input found. */
  lemma EventHandleable(m: Moment, e: ChainEvent, start: nat, val: Values)
    requires REORG_CACHE_MAX_LEN <= e.tip && StandsOn(m, val) && Valid(Left(m.chain, m.cached, e), e.block, val)
    ensures var w := Actual(Left(m.chain, m.cached, e), RolledRows(m, e), m.holders);
            Handleable(w, RolledRows(m, e), m.holders, e.block, start) && WorldOk(w) && BlockOk(w, Resolved(e.block, val))
    ensures LookedUp(RolledRows(m, e), e.block) == Some(TrueInputs(e.block, val))
  {
    hide Tracks, TracksOutputs, Rolled, Part, WellHandled, WorldOf, RowsOf, Restorable, BlocksOf, Extends, WorldOk, BlockOk, RolledRows, HistoryOk, UndoLog.Stored, LookedUp, AsPrevout, LedgerOf;
    var left := Left(m.chain, m.cached, e);
    RolledBack(m, e, val);
    WellPrefix(m.chain, |left|, val);
    IdealOutputs(left, val);
    var w := WorldOf(left);
    ActualOk(left, RolledRows(m, e), m.holders, val);
    InputsFound(w.txids, w.unspent, RolledRows(m, e), e.block, val);
    ActualExtends(w, RolledRows(m, e), m.holders, e.block, val);
  }

  lemma ActualExtends(w: World, r: Rows, h: Index, block: Env, val: Values)
    requires WorldOk(w.(prevouts := r.ordinals.prevouts, holders := h))
    requires (forall o :: o in w.made ==> val(o) == AsPrevout(w.made[o])) && Agrees(val, r.ordinals.prevouts)
    requires Extends(w.txids, w.unspent, block, val)
    ensures BlockOk(w.(prevouts := r.ordinals.prevouts, holders := h), Resolved(block, val))
  {
    hide Extends, LedgerOk, TransfersPlaced, OffsetsBounded, Positions.Ok, NewTxs, Agrees, AsPrevout;
    ExtendsIsOk(w.(prevouts := r.ordinals.prevouts, holders := h), block, val);
  }

  // ---- whole runs ----

  /** A run over a valid stream: each event accepted, its block worked out on the rolled-back tables, no
      panic, and no two transfers of a block at odds on one location. */
  ghost predicate RunsOn(ms: seq<Moment>, es: seq<ChainEvent>, bs: seq<Handled>, val: Values)
  {
    && |ms| == |es| + 1 && |bs| == |es| && StandsOn(ms[0], val)
    && forall i :: 0 <= i < |es| ==> RunStep(ms[i], es[i], bs[i], val, ms[i + 1])
  }

  ghost predicate RunStep(m: Moment, e: ChainEvent, b: Handled, val: Values, m': Moment)
  {
    && Accepts(m, e, b) && Valid(Left(m.chain, m.cached, e), e.block, val) && (Full(b) ==> SameTransfers(b.p.actions))
    && m' == Advanced(m, e, b)
  }

  lemma RunGrows(ms: seq<Moment>, es: seq<ChainEvent>, bs: seq<Handled>, n: nat, b: Handled, m': Moment, val: Values)
    requires n < |es| && RunsOn(ms, es[..n], bs, val) && RunStep(ms[n], es[n], b, val, m')
    ensures RunsOn(ms + [m'], es[..n + 1], bs + [b], val)
  {
    hide RunStep, StandsOn;
    forall i | 0 <= i < n + 1 ensures RunStep((ms + [m'])[i], es[..n + 1][i], (bs + [b])[i], val, (ms + [m'])[i + 1]) {
      if i < n {
        assert RunStep(ms[i], es[..n][i], bs[i], val, ms[i + 1]);
      }
    }
  }

  /** A run may start from the empty database, under any holder index. */
  lemma StartStands(h: Index, val: Values)
    ensures StandsOn(Moment(START, h, [], 0), val)
  {
    hide Part, Restorable;
    forall k ensures Tracks(START, EMPTY, BlocksOf([]), 0, k) {
      StartTracks(k);
    }
  }

  /** In every state of every such run, whatever was rolled back: the indexer stands on the surviving
      blocks, each handled on what those below it left. */
  lemma {:induction false} RunStands(ms: seq<Moment>, es: seq<ChainEvent>, bs: seq<Handled>, val: Values, i: nat)
    requires RunsOn(ms, es, bs, val) && i < |ms|
    ensures StandsOn(ms[i], val)
    decreases i
  {
    hide StandsOn, Accepts, Valid, Advanced, SameTransfers, Left;
    if i > 0 {
      RunStands(ms, es, bs, val, i - 1);
      assert RunStep(ms[i - 1], es[i - 1], bs[i - 1], val, ms[i]);
      EventStands(ms[i - 1], es[i - 1], bs[i - 1], val);
    }
  }

  /** An outstanding transfer whose output is stored sits at an inscription recorded there and is keyed by
      that output's script hash, under which spending the output looks for it. */
  ghost predicate Owned(r: Rows)
  {
    forall x :: x in r.tokens.transfers && x.location.outpoint in r.ordinals.prevouts ==>
      At(r.ordinals.offsets, x.location) && r.ordinals.prevouts[x.location.outpoint].scriptHash == x.address
  }

  lemma StoredOwned(w: World, r: Rows, h: Index)
    requires WorldOk(w) && Reflects(w, r, h)
    ensures Owned(r)
  {
    hide WorldOk, At;
    forall x | x in r.tokens.transfers && x.location.outpoint in r.ordinals.prevouts
      ensures At(r.ordinals.offsets, x.location) && r.ordinals.prevouts[x.location.outpoint].scriptHash == x.address {
      TransferOwner(w, x);
    }
  }

  /** So its own tables are those of the surviving blocks, every unspent output of theirs among the stored
      ones, and they keep every promise: exact accounting, explained supply, complete history without gaps,
      transfers at recorded inscriptions of their owners, offsets within their outputs. */
  lemma RunKeepsPromises(ms: seq<Moment>, es: seq<ChainEvent>, bs: seq<Handled>, val: Values, i: nat)
    requires RunsOn(ms, es, bs, val) && i < |ms|
    ensures var m := ms[i];
            var w := Actual(m.chain, m.node.rows, m.holders);
            && (forall k :: Restorable(k) ==> Part(m.node.rows, k) == Part(RowsOf(m.chain), k))
            && Reflects(w, m.node.rows, m.holders) && WorldOk(w) && RowsOk(w, m.node.rows) && HistoryOk(m.node.rows)
            && UndoLog.Stored(m.node.rows.ordinals.prevouts, w.unspent)
            && Owned(m.node.rows)
  {
    hide RunsOn, Part, Restorable, WorldOk, RowsOk, HistoryOk, UndoLog.Stored, Over, WellHandled, RowsOf, WorldOf, BlocksOf, After;
    RunStands(ms, es, bs, val, i);
    var m := ms[i];
    AfterBlocks(m.chain);
    StandsAgrees(m, val);
    ActualOk(m.chain, m.node.rows, m.holders, val);
    StoredOwned(Actual(m.chain, m.node.rows, m.holders), m.node.rows, m.holders);
  }

  lemma StandsAgrees(m: Moment, val: Values)
    requires StandsOn(m, val)
    ensures forall k :: Restorable(k) ==> Part(m.node.rows, k) == Part(RowsOf(m.chain), k)
    ensures Over(m.node.rows.ordinals.prevouts, RowsOf(m.chain).ordinals.prevouts, val)
  {
    hide Part, Restorable, Window, CachedAt, OutputsCachedAt, Over, WellHandled, RowsOf, BlocksOf, After;
    AfterBlocks(m.chain);
    forall k | Restorable(k) ensures Part(m.node.rows, k) == Part(RowsOf(m.chain), k) {
      assert Tracks(m.node, EMPTY, BlocksOf(m.chain), m.cached, k);
    }
  }

  /** The holder index keeps agreeing with the balances over an event that finds it agreeing; only a
      rollback can part them. */
  lemma HoldersFollow(m: Moment, e: ChainEvent, b: Handled, val: Values)
    requires StandsOn(m, val) && Accepts(m, e, b) && Valid(Left(m.chain, m.cached, e), e.block, val)
    requires Full(b) ==> SameTransfers(b.p.actions)
    requires Agree(m.holders, RolledRows(m, e).tokens.balances)
    ensures Agree(b.after, Advanced(m, e, b).node.rows.tokens.balances)
  {
    hide Tracks, TracksOutputs, Part, Over, WellHandled, WorldOf, RowsOf, DataOf, SameTransfers, Restorable, BlocksOf, Advanced, Valid, RolledRows, Agree, WorldOk, BlockOk, RowsOk, RowsAfter, HandledEffect, HistoryOk, HigherThan, WorkedOut, OutputsAgree, AsPrevout, EventsBelow, Left;
    var left := Left(m.chain, m.cached, e);
    RolledBack(m, e, val);
    WellLeft(m.chain, m.cached, e, val);
    WorkIsIdeal(RolledRows(m, e), m.holders, left, e.block, b, val);
    SameTables(RolledRows(m, e), RowsOf(left));
    ChainKeeps(left, val);
    UnderKeeps(WorldOf(left), RowsOf(left), b.before);
    WorkedBefore(RolledRows(m, e), m.holders, b);
    HandledKeeps(Under(WorldOf(left), b.before), RowsOf(left), b);
    WellOnTop(left, b, val);
    EventStands(m, e, b, val);
    StandsAgrees(Advanced(m, e, b), val);
    AdvancedChain(m, e, b);
    SameTables(Advanced(m, e, b).node.rows, RowsOf(left + [b]));
  }

  lemma WorkedBefore(r: Rows, h: Index, b: Handled)
    requires WorkedOut(r, h, b)
    ensures b.before == h
  {
  }

  lemma AdvancedChain(m: Moment, e: ChainEvent, b: Handled)
    requires Accepts(m, e, b)
    ensures Advanced(m, e, b).chain == Left(m.chain, m.cached, e) + [b]
  {
  }

  lemma WellLeft(chain: seq<Handled>, cached: nat, e: ChainEvent, val: Values)
    requires REORG_CACHE_MAX_LEN <= e.tip && cached <= |chain| && WellHandled(chain, val)
    ensures WellHandled(Left(chain, cached, e), val)
  {
    hide WellHandled;
    WellPrefix(chain, |Left(chain, cached, e)|, val);
  }
}
