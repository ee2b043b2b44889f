/** When a rollback gives the event index back: exactly when no undone block logged a deploy on an output
    already indexed. */
module EventReorgs {
  import opened Base
  import opened Ledger
  import opened CacheRefinement
  import opened Routing
  import opened BlockParser
  import opened Pipeline
  import opened HistoryIds
  import opened UndoLog
  import opened UndoExact
  import opened UndoWindow
  import opened ReorgStore
  import opened ReorgOutputs
  import opened HistoryRuns
  import opened Handler
  import opened HandledBlocks
  import opened HandledRuns
  import opened HandledChain
  import opened EventIndex
  import BlockOutputs
  import OwnRecords
  import Prevouts

  /** Indexed outputs, and the first transactions of unfinished inscriptions, are of the chain. */
  ghost predicate EventsKnown(w: World, r: Rows)
  {
    && (forall o :: o in r.tokens.outpointToEvent ==> o.txid in w.txids)
    && (forall o :: o in r.ordinals.partials ==> r.ordinals.partials[o].genesisTxid in w.txids)
  }

  /** No deploy is logged on an output that is already indexed. */
  predicate DeploysApart(r: Rows, log: seq<HistoryAction>)
  {
    forall i :: 0 <= i < |log| && log[i].DeployEvent? ==> OutputOf(log[i]) !in r.tokens.outpointToEvent
  }

  lemma ParsedOrigins(r: Rows, env: Env, known: set<nat>)
    requires Balanced(env.txs, env.prevouts) && forall o :: o in r.ordinals.partials ==> r.ordinals.partials[o].genesisTxid in known
    ensures OriginsKnown(env, known, ParsedOn(r, env))
  {
    assert |env.txs| >= 1;
    hide Txs, Balanced;
    assert OriginsKnown(env, known, StartOn(r, env));
    TxsOrigins(env, |env.txs|, StartOn(r, env), known);
  }

  /** An event of a block names one of its transactions, or is a deploy that names one seen before. */
  lemma LogNames(w: World, r: Rows, b: Handled, i: nat)
    requires HandledOn(w, r, b) && EventsKnown(w, r) && i < |b.log|
    ensures OfBlock(b.env.txs, b.log[i].txid) || (b.log[i].DeployEvent? && b.log[i].txid in w.txids)
  {
    hide WorldOk, BlockOk, ParsedOn, Run, LoadedCache, LookedUp, OffsetsLeft, Balanced, OfBlock, PartialsKnown;
    ParsedOrigins(r, b.env, w.txids);
    var c := LoadedCache(LedgerOf(r), b.env.prevouts, b.p.all, b.p.actions);
    RunLogs(c, b.before, b.p.actions, i);
    var j :| 0 <= j < |b.p.actions| && EventOf(b.p.actions[j], b.log[i]);
    assert NamesKnown(b.env.txs, w.txids, b.p.actions[j]);
  }

  lemma NewTxid(w: World, env: Env, txid: nat)
    requires BlockOk(w, env) && OfBlock(env.txs, txid)
    ensures txid !in w.txids
  {
  }

  lemma ItemsUnder(es: seq<Entry>, o: OutPoint)
    ensures o in Firsts(OutPointItems(es)) <==> EntryUnder(es, o)
  {
    var items := OutPointItems(es);
    if i :| 0 <= i < |es| && EventOutPoint(es[i].1.event) == o {
      assert items[i].0 == o;
    }
  }

  lemma EventKeys(last: nat, height: nat, log: seq<HistoryAction>)
    ensures Firsts(OutPointItems(Assigned(last, height, log))) == FiledUnder(log)
  {
    hide Firsts, OutPointItems, Assigned, EntryUnder, FiledUnder;
    var es := Assigned(last, height, log);
    forall o ensures o in Firsts(OutPointItems(es)) <==> o in FiledUnder(log) {
      ItemsUnder(es, o);
      AssignedUnder(last, height, log, o);
    }
  }

  /** Only late deploys can hit the index. */
  lemma LogApart(w: World, r: Rows, b: Handled)
    requires HandledOn(w, r, b) && EventsKnown(w, r)
    ensures r.tokens.outpointToEvent.Keys !! FiledUnder(b.log) <==> DeploysApart(r, b.log)
  {
    hide HandledOn, OfBlock;
    forall i | 0 <= i < |b.log| && OutputOf(b.log[i]) in r.tokens.outpointToEvent ensures b.log[i].DeployEvent? {
      LogNames(w, r, b, i);
      if OfBlock(b.env.txs, b.log[i].txid) {
        NewTxid(w, b.env, b.log[i].txid) by { HandledIsOk(w, r, b); }
      }
    }
    if DeploysApart(r, b.log) {
      forall o | o in r.tokens.outpointToEvent ensures o !in FiledUnder(b.log) {
      }
    } else {
      var i :| 0 <= i < |b.log| && b.log[i].DeployEvent? && OutputOf(b.log[i]) in r.tokens.outpointToEvent;
      assert OutputOf(b.log[i]) in FiledUnder(b.log);
    }
  }

  lemma HandledIsOk(w: World, r: Rows, b: Handled)
    requires HandledOn(w, r, b)
    ensures BlockOk(w, b.env)
  {
  }

  /** A block writes the event index freshly if and only if it logs no deploy on an indexed output. */
  lemma EventsFreshExactly(w: World, r: Rows, b: Handled)
    requires HandledOn(w, r, b) && EventsKnown(w, r)
    ensures FreshAll(r, DataOf(r, b), OutPointEvents) <==> DeploysApart(r, b.log)
  {
    hide HandledOn, EventsKnown, DeploysApart, Prevouts.Written, Prevouts.Spent, Assigned, LastId, TransferRows, TransferKeys, LoadTransfers, Only, Firsts, OutPointItems, FiledUnder, FreshAll, Once;
    LogApart(w, r, b);
    if Full(b) {
      var ds := FullData(r, b);
      DataOnce(r, b);
      EventKeys(r.tokens.LastHistoryId(), b.env.height, b.log);
      assert UndoLog.Fresh(r, ds[4], OutPointEvents) <==> DeploysApart(r, b.log);
      OneFresh(r, ds, 4, OutPointEvents);
    } else {
      ShortFresh(r, b, OutPointEvents);
      ShortLog(w, r, b);
    }
  }

  /** So undoing the block gives the event index back under exactly that condition. */
  lemma EventsUndoneExactly(w: World, r: Rows, b: Handled)
    requires HandledOn(w, r, b) && EventsKnown(w, r)
    ensures UndoneAfter(r, DataOf(r, b), OutPointEvents) == Part(r, OutPointEvents) <==> DeploysApart(r, b.log)
  {
    hide HandledOn, EventsKnown, DeploysApart, DataOf, UndoneAfter, Part, FreshAll, AllWritable, Once;
    DataOnce(r, b);
    HandledWritable(w, r, b);
    EventsFreshExactly(w, r, b);
    BlockExactly(r, DataOf(r, b), OutPointEvents);
  }

  lemma ShortLog(w: World, r: Rows, b: Handled)
    requires HandledOn(w, r, b) && !Full(b)
    ensures DeploysApart(r, b.log)
  {
  }

  lemma OneFresh(r: Rows, ds: seq<ProcessedData>, j: nat, k: Table)
    requires Once(ds) && j < |ds| && Touches(ds[j], k)
    ensures FreshAll(r, ds, k) <==> UndoLog.Fresh(r, ds[j], k)
  {
    hide UndoLog.Fresh, Touches;
    if UndoLog.Fresh(r, ds[j], k) {
      FreshOnly(r, ds, j, k);
    }
  }

  // ---- the index along a chain ----

  lemma EventsAfter(r: Rows, b: Handled)
    ensures var t := RowsAfter(r, b).tokens;
            t.outpointToEvent == if Full(b) then Extend(r.tokens.outpointToEvent, OutPointItems(Assigned(r.tokens.LastHistoryId(), b.env.height, b.log)))
                                 else r.tokens.outpointToEvent
  {
    hide WriteAll, Once, Prevouts.Written, Prevouts.Spent, TransferKeys, TransferRows, LoadTransfers, Only, Assigned, LastId, Extend, SortKeys, TokenIdItems, OutPointItems;
    if Full(b) {
      DataOnce(r, b);
      TouchedOnce(r, FullData(r, b), 4, OutPointEvents);
    } else {
      ShortAfter(r, b, OutPointEvents);
    }
  }

  lemma IndexedKnown(w: World, r: Rows, b: Handled, o: OutPoint)
    requires HandledOn(w, r, b) && EventsKnown(w, r) && o in RowsAfter(r, b).tokens.outpointToEvent
    ensures o.txid in w.txids || OfBlock(b.env.txs, o.txid)
  {
    hide HandledOn, RowsAfter, Extend, OutPointItems, Assigned, OfBlock;
    EventsAfter(r, b);
    if Full(b) && o !in r.tokens.outpointToEvent {
      ExtendOutside(r.tokens.outpointToEvent, OutPointItems(Assigned(r.tokens.LastHistoryId(), b.env.height, b.log)));
      EventKeys(r.tokens.LastHistoryId(), b.env.height, b.log);
      var i :| 0 <= i < |b.log| && OutputOf(b.log[i]) == o;
      LogNames(w, r, b, i);
    }
  }

  lemma PartialKnown(w: World, r: Rows, b: Handled, o: OutPoint)
    requires HandledOn(w, r, b) && EventsKnown(w, r) && o in RowsAfter(r, b).ordinals.partials
    ensures var txid := RowsAfter(r, b).ordinals.partials[o].genesisTxid; txid in w.txids || OfBlock(b.env.txs, txid)
  {
    hide WorldOk, BlockOk, RowsAfter, ParsedOn, Drained, LookedUp, OffsetsLeft, Balanced, OfBlock, ActionsKnown, Only;
    if Full(b) {
      OrdinalsAfter(r, b);
      ParsedOrigins(r, b.env, w.txids);
    } else {
      ShortRows(r, b);
    }
  }

  lemma EventsKnownKept(w: World, r: Rows, b: Handled)
    requires HandledOn(w, r, b) && EventsKnown(w, r)
    ensures EventsKnown(WorldAfter(w, r, b), RowsAfter(r, b))
  {
    hide HandledOn, RowsAfter, Prevouts.Written, Prevouts.Spent, BlockOutputs.AllOutputs;
    forall o | o in RowsAfter(r, b).tokens.outpointToEvent ensures o.txid in WorldAfter(w, r, b).txids {
      IndexedKnown(w, r, b, o);
    }
    forall o | o in RowsAfter(r, b).ordinals.partials ensures RowsAfter(r, b).ordinals.partials[o].genesisTxid in WorldAfter(w, r, b).txids {
      PartialKnown(w, r, b, o);
    }
  }

  lemma NothingKnown()
    ensures EventsKnown(GENESIS, EMPTY)
  {
  }

  lemma {:induction false} ChainEventsKnown(chain: seq<Handled>, val: Values)
    requires WellHandled(chain, val)
    ensures EventsKnown(WorldOf(chain), RowsOf(chain))
    decreases |chain|
  {
    hide EventsKnown, HandledOn, RowsAfter, WorldAfter, OwnRecords.SameTransfers, HigherThan, OutputsAgree, Under;
    if chain == [] {
      NothingKnown();
    } else {
      var init, b := chain[..|chain| - 1], chain[|chain| - 1];
      ChainEventsKnown(init, val);
      UnderKnows(WorldOf(init), RowsOf(init), b.before);
      EventsKnownKept(Under(WorldOf(init), b.before), RowsOf(init), b);
    }
  }

  /** The block at place `i` logs no deploy on an output indexed below it. */
  ghost predicate ApartAt(chain: seq<Handled>, i: nat)
    requires i < |chain|
  {
    DeploysApart(RowsOf(chain[..i]), chain[i].log)
  }

  lemma TopEventsFresh(chain: seq<Handled>, b: Handled, val: Values)
    requires WellHandled(chain, val) && Top(chain, b, val)
    ensures Once(DataOf(RowsOf(chain), b)) && AllWritable(RowsOf(chain), DataOf(RowsOf(chain), b))
    ensures FreshAll(RowsOf(chain), DataOf(RowsOf(chain), b), OutPointEvents) <==> DeploysApart(RowsOf(chain), b.log)
  {
    hide HandledOn, EventsKnown, DeploysApart, DataOf, FreshAll, Once, AllWritable, OwnRecords.SameTransfers, HigherThan, OutputsAgree, WellHandled, WorldOf, RowsOf;
    ChainEventsKnown(chain, val);
    var w := Under(WorldOf(chain), b.before);
    UnderKnows(WorldOf(chain), RowsOf(chain), b.before);
    DataOnce(RowsOf(chain), b);
    HandledWritable(w, RowsOf(chain), b);
    EventsFreshExactly(w, RowsOf(chain), b);
  }

  lemma UnderKnows(w: World, r: Rows, h: Index)
    requires EventsKnown(w, r)
    ensures EventsKnown(Under(w, h), r)
  {
  }

  lemma LinkEvents(chain: seq<Handled>, i: nat, val: Values)
    requires WellHandled(chain, val) && i < |chain|
    ensures FreshAt(EMPTY, BlocksOf(chain), i, OutPointEvents) <==> ApartAt(chain, i)
  {
    hide Top, WellHandled, DataOf, FreshAll, DeploysApart, Once, AllWritable;
    WellPrefix(chain, i, val);
    TopEventsFresh(chain[..i], chain[i], val);
    BlocksPrefix(chain, i);
    BlocksAt(chain, i);
    AfterBlocks(chain[..i]);
  }

  /** For any window of a chain: the event index is restored at each of its heights if and only if no block
      of it logged a deploy on an output indexed below. */
  lemma EventsRestoredExactly(chain: seq<Handled>, m: nat, val: Values)
    requires WellHandled(chain, val) && m <= |chain|
    ensures (forall j :: m <= j <= |chain| ==> RestoresAt(RowsOf(chain), EMPTY, BlocksOf(chain), j, OutPointEvents))
            <==> (forall i :: m <= i < |chain| ==> ApartAt(chain, i))
  {
    hide WellHandled, WellFormed, RestoresAt, FreshAt, ApartAt, BlocksOf, RowsOf, After;
    ChainWellFormed(chain, val);
    LaterWellFormed(EMPTY, BlocksOf(chain), 0, m);
    AfterBlocks(chain);
    forall i | m <= i < |chain| ensures FreshAt(EMPTY, BlocksOf(chain), i, OutPointEvents) <==> ApartAt(chain, i) {
      LinkEvents(chain, i, val);
    }
    WindowExactly(EMPTY, BlocksOf(chain), m, OutPointEvents);
  }
}
