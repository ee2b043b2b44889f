/** The event index over runs: exactly which entries rollbacks cost. What is lost are outputs the surviving
    blocks index and an undone block logged a late deploy on, until a block files them again. */
module EventRuns {
  import opened Base
  import opened Ledger
  import opened CacheRefinement
  import opened Pipeline
  import opened HistoryIds
  import opened UndoLog
  import opened UndoExact
  import opened UndoWindow
  import opened ReorgStore
  import opened Consumer
  import opened ReorgRuns
  import opened ReorgOutputs
  import opened ReorgEvents
  import opened HistoryRuns
  import opened Handler
  import opened HandledBlocks
  import opened HandledRuns
  import opened HandledChain
  import opened HandledReorgs
  import opened Restarts
  import opened EventIndex
  import opened EventReorgs
  import OwnRecords
  import Prevouts

  /** The outputs an event log says the blocks from `j` on deployed. */
  function DeploysFrom(chain: seq<Handled>, j: nat): set<OutPoint>
  {
    set k, i | j <= k < |chain| && 0 <= i < |chain[k].log| && chain[k].log[i].DeployEvent? :: OutputOf(chain[k].log[i])
  }

  ghost function Indexed(chain: seq<Handled>): set<OutPoint>
  {
    RowsOf(chain).tokens.outpointToEvent.Keys
  }

  // ---- what a handled block files under ----

  lemma {:induction false} FiledNone(ds: seq<ProcessedData>)
    requires forall i :: 0 <= i < |ds| ==> !ds[i].HistoryData?
    ensures IndexedBy(ds) == {}
    decreases |ds|
  {
    if ds != [] {
      FiledNone(ds[..|ds| - 1]);
    }
  }

  lemma {:induction false} FiledOnce(ds: seq<ProcessedData>, j: nat)
    requires Once(ds) && j < |ds| && ds[j].HistoryData?
    ensures IndexedBy(ds) == IndexedIn(ds[j])
    decreases |ds|
  {
    hide IndexedIn;
    var n := |ds| - 1;
    assert Touches(ds[j], OutPointEvents);
    forall i | 0 <= i < |ds| && i != j ensures !ds[i].HistoryData? {
      assert !Touches(ds[i], OutPointEvents);
    }
    if j == n {
      FiledNone(ds[..n]);
    } else {
      FiledOnce(ds[..n], j);
      assert IndexedIn(ds[n]) == {} by { NotFiled(ds[n]); }
    }
  }

  lemma NotFiled(d: ProcessedData)
    requires !d.HistoryData?
    ensures IndexedIn(d) == {}
  {
  }

  lemma BlockFiled(w: World, r: Rows, b: Handled)
    requires HandledOn(w, r, b)
    ensures IndexedBy(DataOf(r, b)) == FiledUnder(b.log)
  {
    hide HandledOn, IndexedBy, Once, Prevouts.Written, Prevouts.Spent, Assigned, LastId, TransferRows, TransferKeys, LoadTransfers, Only, Firsts, OutPointItems;
    if Full(b) {
      DataOnce(r, b);
      FiledOnce(FullData(r, b), 4);
      EventKeys(r.tokens.LastHistoryId(), b.env.height, b.log);
    } else {
      FiledNone(ShortData(b));
      ShortFiles(w, r, b);
    }
  }

  lemma ShortFiles(w: World, r: Rows, b: Handled)
    requires HandledOn(w, r, b) && !Full(b)
    ensures FiledUnder(b.log) == {}
  {
  }

  lemma IndexedBlock(w: World, r: Rows, b: Handled)
    requires HandledOn(w, r, b)
    ensures RowsAfter(r, b).tokens.outpointToEvent.Keys == r.tokens.outpointToEvent.Keys + FiledUnder(b.log)
  {
    hide HandledOn, RowsAfter, Extend, Firsts, OutPointItems, Assigned, FiledUnder;
    EventsAfter(r, b);
    if Full(b) {
      ExtendOutside(r.tokens.outpointToEvent, OutPointItems(Assigned(r.tokens.LastHistoryId(), b.env.height, b.log)));
      EventKeys(r.tokens.LastHistoryId(), b.env.height, b.log);
    } else {
      ShortFiles(w, r, b);
    }
  }

  // ---- what undone blocks share with those left standing ----

  ghost predicate DeploysOn(log: seq<HistoryAction>, o: OutPoint)
  {
    exists i :: 0 <= i < |log| && log[i].DeployEvent? && OutputOf(log[i]) == o
  }

  /** On an indexed output a block files nothing but late deploys. */
  lemma LogHits(w: World, r: Rows, b: Handled, o: OutPoint)
    requires HandledOn(w, r, b) && EventsKnown(w, r) && o in r.tokens.outpointToEvent
    ensures o in FiledUnder(b.log) <==> DeploysOn(b.log, o)
  {
    hide HandledOn, OfBlock;
    HandledIsOk(w, r, b);
    if i :| 0 <= i < |b.log| && OutputOf(b.log[i]) == o {
      LogNames(w, r, b, i);
      if OfBlock(b.env.txs, b.log[i].txid) {
        NewTxid(w, b.env, b.log[i].txid);
      }
    }
  }

  lemma {:induction false} IndexedGrows(chain: seq<Handled>, j: nat, val: Values)
    requires WellHandled(chain, val) && j <= |chain|
    ensures Indexed(chain[..j]) <= Indexed(chain)
    decreases |chain|
  {
    hide HandledOn, RowsAfter, WorldOf, FiledUnder, OwnRecords.SameTransfers, HigherThan, OutputsAgree, Under;
    if j == |chain| {
      assert chain[..j] == chain;
    } else {
      var init, b := chain[..|chain| - 1], chain[|chain| - 1];
      IndexedGrows(init, j, val);
      assert init[..j] == chain[..j];
      IndexedBlock(Under(WorldOf(init), b.before), RowsOf(init), b);
    }
  }

  lemma DeploysOneMore(chain: seq<Handled>, j: nat, o: OutPoint)
    requires j < |chain|
    ensures o in DeploysFrom(chain, j) <==> o in DeploysFrom(chain[..|chain| - 1], j) || DeploysOn(chain[|chain| - 1].log, o)
  {
    var init, b := chain[..|chain| - 1], chain[|chain| - 1];
    if k, i :| j <= k < |chain| && 0 <= i < |chain[k].log| && chain[k].log[i].DeployEvent? && OutputOf(chain[k].log[i]) == o {
      if k < |init| {
        assert init[k] == chain[k];
      }
    }
    if k, i :| j <= k < |init| && 0 <= i < |init[k].log| && init[k].log[i].DeployEvent? && OutputOf(init[k].log[i]) == o {
      assert chain[k] == init[k];
    }
  }

  lemma TopHits(chain: seq<Handled>, b: Handled, val: Values, o: OutPoint)
    requires WellHandled(chain, val) && Top(chain, b, val) && o in Indexed(chain)
    ensures o in IndexedBy(DataOf(RowsOf(chain), b)) <==> DeploysOn(b.log, o)
  {
    hide HandledOn, EventsKnown, DeploysOn, DataOf, IndexedBy, FiledUnder, OwnRecords.SameTransfers, HigherThan, OutputsAgree, WellHandled, WorldOf, RowsOf, Under;
    ChainEventsKnown(chain, val);
    var w := Under(WorldOf(chain), b.before);
    UnderKnows(WorldOf(chain), RowsOf(chain), b.before);
    BlockFiled(w, RowsOf(chain), b);
    LogHits(w, RowsOf(chain), b, o);
  }

  /** Of the outputs indexed below `j`, the blocks from `j` on file under exactly those they deploy on. */
  lemma {:induction false} ChainHits(chain: seq<Handled>, j: nat, val: Values, o: OutPoint)
    requires WellHandled(chain, val) && j <= |chain| && o in Indexed(chain[..j])
    ensures o in IndexedFrom(BlocksOf(chain), j) <==> o in DeploysFrom(chain, j)
    decreases |chain|
  {
    hide Top, DataOf, RowsOf, IndexedBy, DeploysFrom, DeploysOn, Indexed;
    if j == |chain| {
      NoneFrom(chain);
    } else {
      var init, b := chain[..|chain| - 1], chain[|chain| - 1];
      assert init[..j] == chain[..j];
      ChainHits(init, j, val, o);
      IndexedGrows(init, j, val);
      TopHits(init, b, val, o);
      DeploysOneMore(chain, j, o);
      assert BlocksOf(chain)[..|chain| - 1] == BlocksOf(init);
      assert BlocksOf(chain)[|chain| - 1].data == DataOf(RowsOf(init), b);
    }
  }

  lemma NoneFrom(chain: seq<Handled>)
    ensures DeploysFrom(chain, |chain|) == {}
  {
  }

  // ---- runs ----

  /** The event index is that of the chain without exactly `lost`, and the top of the chain can be undone. */
  ghost predicate Misses(m: Moment, lost: set<OutPoint>)
  {
    lost <= Indexed(m.chain) && TracksEvents(m.node, EMPTY, BlocksOf(m.chain), m.cached, lost)
  }

  /** What is missing after a rollback from `chain` to `left`, if `lost` was before it: of the outputs the
      blocks left standing index, those and the ones undone blocks deployed on. */
  ghost function LostBy(chain: seq<Handled>, left: seq<Handled>, lost: set<OutPoint>): set<OutPoint>
  {
    (lost + DeploysFrom(chain, |left|)) * Indexed(left)
  }

  lemma SameLoss(n: Node, chain: seq<Handled>, c: nat, lost: set<OutPoint>, same: set<OutPoint>)
    requires TracksEvents(n, EMPTY, BlocksOf(chain), c, lost) && same == lost * Indexed(chain)
    ensures TracksEvents(n, EMPTY, BlocksOf(chain), c, same)
  {
    hide Window, EventsCachedAt, BlocksOf, RowsOf, After;
    AfterBlocks(chain);
  }

  lemma LossAfter(chain: seq<Handled>, left: seq<Handled>, b: Handled, val: Values, lost: set<OutPoint>, o: OutPoint)
    requires WellHandled(chain, val) && left <= chain && Top(left, b, val) && o in Indexed(left + [b])
    ensures o in lost + IndexedFrom(BlocksOf(chain), |left|) - IndexedBy(DataOf(RowsOf(left), b)) <==>
            o in LostBy(chain, left, lost) - FiledUnder(b.log)
  {
    hide HandledOn, RowsAfter, DataOf, IndexedBy, IndexedFrom, DeploysFrom, FiledUnder, BlocksOf, WellHandled, RowsOf, WorldOf, Under, HigherThan, OutputsAgree, OwnRecords.SameTransfers;
    WellPrefix(chain, |left|, val);
    assert chain[..|left|] == left;
    var w := Under(WorldOf(left), b.before);
    WellOnTop(left, b, val);
    IndexedBlock(w, RowsOf(left), b);
    BlockFiled(w, RowsOf(left), b);
    if o in Indexed(left) {
      ChainHits(chain, |left|, val, o);
    }
  }

  /** One event: what it costs, and what its block files again. */
  lemma EventMisses(m: Moment, e: ChainEvent, b: Handled, val: Values, lost: set<OutPoint>)
    requires StandsOn(m, val) && Accepts(m, e, b) && Valid(Left(m.chain, m.cached, e), e.block, val)
    requires (Full(b) ==> OwnRecords.SameTransfers(b.p.actions)) && Misses(m, lost)
    ensures Misses(Advanced(m, e, b), LostBy(m.chain, Left(m.chain, m.cached, e), lost) - FiledUnder(b.log))
  {
    hide Tracks, TracksOutputs, Rolled, Part, Over, WellHandled, WorldOf, RowsOf, Top, DataOf, WorkedOut, OwnRecords.SameTransfers, Restorable, BlocksOf, Next, Extended, Valid, RolledRows, DeploysFrom, Left, TracksEvents, IndexedFrom, IndexedBy, FiledUnder, Indexed;
    var left := Left(m.chain, m.cached, e);
    RolledBack(m, e, val);
    WellLeft(m.chain, m.cached, e, val);
    WorkIsIdeal(RolledRows(m, e), m.holders, left, e.block, b, val);
    var data := DataOf(RowsOf(left), b);
    NextExists(m.node, e, data);
    EventEvents(m.node, WithData(e, data), EMPTY, ChainOf(m), lost);
    ExtendedBlocks(m.chain, m.cached, e, b);
    DroppedFrom(m, e, data);
    LeftPrefix(m.chain, m.cached, e);
    var raw := lost + IndexedFrom(BlocksOf(m.chain), |left|) - IndexedBy(data);
    var gone := LostBy(m.chain, left, lost) - FiledUnder(b.log);
    forall o | o in Indexed(left + [b]) ensures o in raw <==> o in gone {
      LossAfter(m.chain, left, b, val, lost, o);
    }
    LeftIndexed(left, b, val);
    assert gone == raw * Indexed(left + [b]);
    SameLoss(Advanced(m, e, b).node, left + [b], Advanced(m, e, b).cached, raw, gone);
  }

  lemma DroppedFrom(m: Moment, e: ChainEvent, data: seq<ProcessedData>)
    requires REORG_CACHE_MAX_LEN <= e.tip && m.cached <= |m.chain|
    ensures IndexedDropped(ChainOf(m), WithData(e, data)) == IndexedFrom(BlocksOf(m.chain), |Left(m.chain, m.cached, e)|)
  {
    hide BlocksOf, IndexedFrom;
  }

  lemma LeftPrefix(chain: seq<Handled>, cached: nat, e: ChainEvent)
    requires REORG_CACHE_MAX_LEN <= e.tip
    ensures Left(chain, cached, e) <= chain
  {
  }

  lemma LeftIndexed(left: seq<Handled>, b: Handled, val: Values)
    requires WellHandled(left, val) && Top(left, b, val)
    ensures Indexed(left) <= Indexed(left + [b])
  {
    hide Top, RowsOf, WellHandled, BlocksOf, WorldOf;
    WellOnTop(left, b, val);
    assert (left + [b])[..|left|] == left;
    IndexedGrows(left + [b], |left|, val);
  }

  lemma OnTop<T>(left: seq<T>, b: T)
    ensures (left + [b])[..|left|] == left && (left + [b])[|left|] == b
  {
  }

  lemma StepMisses(m: Moment, e: ChainEvent, b: Handled, val: Values, next: Moment, lost: set<OutPoint>)
    requires StandsOn(m, val) && RunStep(m, e, b, val, next) && Misses(m, lost)
    ensures next.chain != []
    ensures var n := |next.chain| - 1; Misses(next, LostBy(m.chain, next.chain[..n], lost) - FiledUnder(next.chain[n].log))
  {
    hide StandsOn, Rolled, Valid, WorkedOut, OwnRecords.SameTransfers, Left, Misses, LostBy, FiledUnder, Follows, Next, RolledRows;
    EventMisses(m, e, b, val, lost);
    AdvancedChain(m, e, b);
    OnTop(Left(m.chain, m.cached, e), b);
  }

  /** What is missing after `i` events of a run that begins with `lost` missing. */
  ghost function Missing(ms: seq<Moment>, lost: set<OutPoint>, i: nat): set<OutPoint>
    requires i < |ms|
  {
    if i == 0 || ms[i].chain == [] then lost
    else
      var n := |ms[i].chain| - 1;
      LostBy(ms[i - 1].chain, ms[i].chain[..n], Missing(ms, lost, i - 1)) - FiledUnder(ms[i].chain[n].log)
  }

  lemma {:induction false} RunMisses(ms: seq<Moment>, es: seq<ChainEvent>, bs: seq<Handled>, val: Values, lost: set<OutPoint>, i: nat)
    requires RunsOn(ms, es, bs, val) && i < |ms| && Misses(ms[0], lost)
    ensures Misses(ms[i], Missing(ms, lost, i))
    decreases i
  {
    hide StandsOn, RunStep, Misses, LostBy, FiledUnder;
    if i > 0 {
      RunMisses(ms, es, bs, val, lost, i - 1);
      assert RunStep(ms[i - 1], es[i - 1], bs[i - 1], val, ms[i]);
      RunStands(ms, es, bs, val, i - 1);
      StepMisses(ms[i - 1], es[i - 1], bs[i - 1], val, ms[i], Missing(ms, lost, i - 1));
    }
  }

  /** After every event of every run the event index is that of the surviving blocks without exactly the
      outputs `Missing` names: a rollback costs those of the outputs left indexed that an undone block
      deployed on, and the new block gives back what it files under. */
  lemma RunEventIndex(ms: seq<Moment>, es: seq<ChainEvent>, bs: seq<Handled>, val: Values, lost: set<OutPoint>, i: nat)
    requires RunsOn(ms, es, bs, val) && i < |ms| && Misses(ms[0], lost)
    ensures Missing(ms, lost, i) <= Indexed(ms[i].chain)
    ensures ms[i].node.rows.tokens.outpointToEvent == RowsOf(ms[i].chain).tokens.outpointToEvent - Missing(ms, lost, i)
  {
    hide RunsOn, BlocksOf, RowsOf, After, Window, EventsCachedAt, Missing;
    RunMisses(ms, es, bs, val, lost, i);
    AfterBlocks(ms[i].chain);
  }

  /** From one chain to the next, every output an undone block deployed on and a block left standing indexes
      is filed again by the new block. */
  ghost predicate Regained(chain: seq<Handled>, next: seq<Handled>)
  {
    next != [] ==> var n := |next| - 1; DeploysFrom(chain, n) * Indexed(next[..n]) <= FiledUnder(next[n].log)
  }

  lemma RegainedExactly(chain: seq<Handled>, next: seq<Handled>)
    requires next != []
    ensures var n := |next| - 1; LostBy(chain, next[..n], {}) - FiledUnder(next[n].log) == {} <==> Regained(chain, next)
  {
    hide DeploysFrom, Indexed, FiledUnder;
    var n := |next| - 1;
    assert LostBy(chain, next[..n], {}) == DeploysFrom(chain, n) * Indexed(next[..n]);
  }

  /** The event index is the one of the chain. */
  ghost predicate EventsWhole(m: Moment)
  {
    m.node.rows.tokens.outpointToEvent == RowsOf(m.chain).tokens.outpointToEvent
  }

  lemma IndexWhole(m: Moment, lost: set<OutPoint>)
    requires Misses(m, lost)
    ensures EventsWhole(m) <==> lost == {}
  {
    hide Window, EventsCachedAt, BlocksOf, RowsOf, After;
    AfterBlocks(m.chain);
    if o :| o in lost {
      assert o !in m.node.rows.tokens.outpointToEvent && o in RowsOf(m.chain).tokens.outpointToEvent;
    }
  }

  ghost predicate NoneMissing(ms: seq<Moment>, none: set<OutPoint>, i: nat)
    requires i < |ms|
  {
    Missing(ms, none, i) == {}
  }

  ghost predicate RegainedAt(ms: seq<Moment>, i: nat)
    requires 0 < i < |ms|
  {
    Regained(ms[i - 1].chain, ms[i].chain)
  }

  lemma {:induction false} MissingExactly(ms: seq<Moment>, none: set<OutPoint>, i: nat)
    requires i < |ms| && none == {} && forall k :: 0 < k < |ms| ==> ms[k].chain != []
    ensures (forall k :: 0 <= k <= i ==> NoneMissing(ms, none, k)) <==> (forall k :: 0 < k <= i ==> RegainedAt(ms, k))
    decreases i
  {
    hide LostBy, FiledUnder, Regained;
    if i > 0 {
      MissingExactly(ms, none, i - 1);
      RegainedExactly(ms[i - 1].chain, ms[i].chain);
      assert NoneMissing(ms, none, i - 1) ==> (NoneMissing(ms, none, i) <==> RegainedAt(ms, i));
    }
  }

  lemma RunChains(ms: seq<Moment>, es: seq<ChainEvent>, bs: seq<Handled>, val: Values, k: nat)
    requires RunsOn(ms, es, bs, val) && 0 < k < |ms|
    ensures ms[k].chain != []
  {
    hide StandsOn, Accepts, Valid, Next, OwnRecords.SameTransfers, Left, RolledRows;
    assert RunStep(ms[k - 1], es[k - 1], bs[k - 1], val, ms[k]);
  }

  lemma RunWhole(ms: seq<Moment>, es: seq<ChainEvent>, bs: seq<Handled>, val: Values, i: nat)
    requires RunsOn(ms, es, bs, val) && Misses(ms[0], {}) && i < |ms|
    ensures EventsWhole(ms[i]) <==> NoneMissing(ms, {}, i)
  {
    hide RunsOn, RowsOf, Missing, Misses;
    RunMisses(ms, es, bs, val, {}, i);
    IndexWhole(ms[i], Missing(ms, {}, i));
  }

  lemma WholeExactly(ms: seq<Moment>, none: set<OutPoint>)
    requires ms != [] && none == {} && forall k :: 0 < k < |ms| ==> ms[k].chain != []
    requires forall i :: 0 <= i < |ms| ==> (EventsWhole(ms[i]) <==> NoneMissing(ms, none, i))
    ensures (forall i :: 0 <= i < |ms| ==> EventsWhole(ms[i])) <==> (forall i :: 0 < i < |ms| ==> RegainedAt(ms, i))
  {
    hide EventsWhole, NoneMissing, RegainedAt;
    MissingExactly(ms, none, |ms| - 1);
    if forall i :: 0 <= i < |ms| ==> EventsWhole(ms[i]) {
      forall k | 0 <= k <= |ms| - 1 ensures NoneMissing(ms, none, k) {
        assert EventsWhole(ms[k]);
      }
    } else {
      var k :| 0 <= k < |ms| && !EventsWhole(ms[k]);
      assert !NoneMissing(ms, none, k);
    }
  }

  /** Over a run that begins with its event index whole, the index is whole after every event if and only
      if each event's block files again what its rollback cost. */
  lemma RunKeepsEventsExactly(ms: seq<Moment>, es: seq<ChainEvent>, bs: seq<Handled>, val: Values)
    requires RunsOn(ms, es, bs, val) && Misses(ms[0], {})
    ensures (forall i :: 0 <= i < |ms| ==> EventsWhole(ms[i])) <==> (forall i :: 0 < i < |ms| ==> RegainedAt(ms, i))
  {
    hide EventsWhole, NoneMissing, RegainedAt, Misses, RunStep, StandsOn;
    forall k | 0 < k < |ms| ensures ms[k].chain != [] {
      RunChains(ms, es, bs, val, k);
    }
    forall i | 0 <= i < |ms| ensures EventsWhole(ms[i]) <==> NoneMissing(ms, {}, i) {
      RunWhole(ms, es, bs, val, i);
    }
    WholeExactly(ms, {});
  }

  /** A moment with nothing cached and a whole index begins such a run; the empty database is one. */
  lemma FreshMisses(m: Moment, val: Values)
    requires StandsOn(m, val) && m.cached == 0 && EventsWhole(m)
    ensures Misses(m, {})
  {
    hide BlocksOf, RowsOf, After, WellHandled, CachedAt, OutputsCachedAt, EventsCachedAt, Over;
    AfterBlocks(m.chain);
  }

  lemma StartMisses(h: Index, val: Values)
    ensures Misses(Moment(START, h, [], 0), {})
  {
    hide StandsOn;
    StartStands(h, val);
    FreshMisses(Moment(START, h, [], 0), val);
  }

  /** A restart costs what a rollback of everything cached does. */
  lemma RestartMisses(m: Moment, h: Index, val: Values, lost: set<OutPoint>)
    requires StandsOn(m, val) && Misses(m, lost)
    ensures Misses(Restarted(m, h), LostBy(m.chain, Restarted(m, h).chain, lost))
  {
    hide Tracks, TracksOutputs, Popped, WellHandled, BlocksOf, Indexed, IndexedFrom, DeploysFrom;
    var left := m.chain[..|m.chain| - m.cached];
    BlocksPrefix(m.chain, |left|);
    RestoreAllEvents(m.node, EMPTY, BlocksOf(m.chain), m.cached, lost);
    forall o | o in Indexed(left) ensures o in IndexedFrom(BlocksOf(m.chain), |left|) <==> o in DeploysFrom(m.chain, |left|) {
      ChainHits(m.chain, |left|, val, o);
    }
    SameLoss(Restarted(m, h).node, left, 0, lost + IndexedFrom(BlocksOf(m.chain), |left|), LostBy(m.chain, left, lost));
  }
}
