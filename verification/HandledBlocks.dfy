/** What a handled block's data does: written, it is the block effect of the whole-run theorem;
    undone, it gives every table back that the reorg log answers for. */
module HandledBlocks {
  import opened Base
  import opened Ledger
  import opened CacheRefinement
  import opened BlockParser
  import opened Searcher
  import opened Leaked
  import opened Routing
  import opened Lifecycle
  import opened Pipeline
  import opened HistoryIds
  import opened UndoLog
  import opened UndoExact
  import UndoWindow
  import opened ReorgRuns
  import opened HistoryRuns
  import opened Handler
  import opened HandledKeys
  import opened BlockOutputs
  import Prevouts
  import Positions

  // ---- written: each table is touched by one of the writes ----

  lemma {:induction false} TouchedOnce(r: Rows, ds: seq<ProcessedData>, j: nat, k: Table)
    requires Once(ds) && j < |ds| && Touches(ds[j], k)
    ensures Part(WriteAll(r, ds), k) == Part(UndoLog.Write(r, ds[j]), k)
    decreases |ds|
  {
    hide Part, UndoLog.Write, Touches;
    var n := |ds| - 1;
    var at := WriteAll(r, ds[..n]);
    if j == n {
      BlockElsewhere(r.tokens, r.ordinals, r, ds[..n], k);
      WriteAlike(at, r, ds[n], k);
    } else {
      assert !Touches(ds[n], k);
      TouchedOnce(r, ds[..n], j, k);
      WriteElsewhere(at, ds[n], k);
    }
  }

  /** `b` is the work `HandleBlock` does on tables `r` that stand for `w`. */
  ghost predicate HandledOn(w: World, r: Rows, b: Handled)
  {
    Reflects(w, r, b.before) && WorldOk(w) && BlockOk(w, b.env) && WorkedOut(r, b.before, b)
  }

  lemma DataOnce(r: Rows, b: Handled)
    ensures Once(DataOf(r, b))
  {
  }

  /** Beside the world's own promises: no empty offset row, and unfinished inscriptions on made outputs. */
  ghost predicate RowsOk(w: World, r: Rows)
  {
    NoEmpty(r.ordinals.offsets) && forall o :: o in r.ordinals.partials ==> o in w.made
  }

  lemma ParsedKeys(r: Rows, env: Env)
    requires Balanced(env.txs, env.prevouts) && NoEmpty(r.ordinals.offsets)
    ensures var keys := env.prevouts.Keys;
            KeysOk(env, Only(r.ordinals.offsets, keys).Keys, Only(r.ordinals.partials, keys).Keys, ParsedOn(r, env))
  {
    assert |env.txs| >= 1;
    hide Txs, Made, Balanced;
    TxsKeys(env, |env.txs|, StartOn(r, env), Only(r.ordinals.offsets, env.prevouts.Keys).Keys, Only(r.ordinals.partials, env.prevouts.Keys).Keys);
  }

  lemma BlockKeys(w: World, r: Rows, b: Handled)
    requires HandledOn(w, r, b) && Full(b) && RowsOk(w, r)
    ensures var keys := b.env.prevouts.Keys;
            && KeysOk(b.env, Only(r.ordinals.offsets, keys).Keys, Only(r.ordinals.partials, keys).Keys, b.p)
            && NoEmpty(b.offsets) && KeysFrom(b.env.txs, b.offsets.Keys, Only(r.ordinals.offsets, keys).Keys)
  {
    hide WorldOk, BlockOk, ParsedOn, Drained, Made, OffsetsLeft, Only, LookedUp, Balanced;
    ParsedKeys(r, b.env);
    forall o | o in b.offsets ensures b.offsets[o] != {} && (o in Only(r.ordinals.offsets, b.env.prevouts.Keys) || Made(b.env.txs, o)) {
      OffsetKey(w, r, b, o);
    }
  }

  lemma OffsetKey(w: World, r: Rows, b: Handled, o: OutPoint)
    requires Balanced(b.env.txs, b.env.prevouts) && OffsetsLeft(b.env, b.p, b.offsets) && o in b.offsets
    requires NoEmpty(b.p.offsets)
    ensures b.offsets[o] != {} && (o in b.p.offsets || Made(b.env.txs, o))
  {
    if o in b.p.offsets {
      var x :| x in b.p.offsets[o];
      assert At(b.p.offsets, Location(o, x));
      assert At(b.offsets, Location(o, x));
    } else {
      var x :| At(b.offsets, Location(o, x));
      assert LeakedAt(b.env, b.p.leaked, Location(o, x));
      LeakedMade(b.env, b.p, Location(o, x));
    }
  }

  lemma LeakedMade(env: Env, p: Progress, l: Location)
    requires Balanced(env.txs, env.prevouts) && LeakedAt(env, p.leaked, l)
    ensures Made(env.txs, l.outpoint)
  {
    var key :| key in p.leaked && CoinbaseLocation(env.txs[0], Reward(env.txs, env.prevouts), key) == Some(l);
    LocateIs(env.txs[0].outputs, Reward(env.txs, env.prevouts) + key);
    assert InTx(env.txs[0], l.outpoint);
  }

  /** Outputs of the block are new to every table. */
  lemma OldNotMade(w: World, env: Env, o: OutPoint)
    requires WorldOk(w) && BlockOk(w, env) && o in w.made
    ensures !Made(env.txs, o)
  {
    hide Positions.Ok, LedgerOk, TransfersPlaced, OffsetsBounded;
    MadeOutside(w, env, o);
  }

  // ---- undone: freshness of every table ----

  lemma OffsetsFresh(w: World, r: Rows, b: Handled)
    requires HandledOn(w, r, b) && Full(b) && RowsOk(w, r)
    ensures var loaded := Only(r.ordinals.offsets, b.env.prevouts.Keys);
            UndoLog.Stored(r.ordinals.offsets, loaded) && FreshKeys(r.ordinals.offsets, loaded.Keys, b.offsets.Keys)
  {
    hide BlockOk, LedgerOk, TransfersPlaced, OutputsTrue, OffsetsLeft, ParsedOn, Drained, KeysOk, Made;
    BlockKeys(w, r, b);
    forall o | o in b.offsets && o in r.ordinals.offsets ensures o in Only(r.ordinals.offsets, b.env.prevouts.Keys) {
      var x :| x in r.ordinals.offsets[o];
      assert At(w.offsets, Location(o, x));
      OldNotMade(w, b.env, o);
    }
  }

  lemma PartialsFresh(w: World, r: Rows, b: Handled)
    requires HandledOn(w, r, b) && Full(b) && RowsOk(w, r)
    ensures var loaded := Only(r.ordinals.partials, b.env.prevouts.Keys);
            UndoLog.Stored(r.ordinals.partials, loaded) && FreshKeys(r.ordinals.partials, loaded.Keys, b.p.partials.Keys)
  {
    hide WorldOk, BlockOk, OffsetsLeft, ParsedOn, Drained, NoEmpty, Made;
    BlockKeys(w, r, b);
    forall o | o in b.p.partials && o in r.ordinals.partials ensures o in Only(r.ordinals.partials, b.env.prevouts.Keys) {
      OldNotMade(w, b.env, o);
    }
  }

  /** A transfer row written over a stored one is one of the loaded, hence removed, rows. */
  lemma TransferFresh(w: World, r: Rows, b: Handled, x: AddressLocation)
    requires HandledOn(w, r, b) && Full(b) && x in TransferRows(b.state.valid) && x in r.tokens.transfers
    ensures x in TransferKeys(LoadTransfers(r.tokens.transfers, b.env.prevouts))
  {
    hide WorldOk, BlockOk, Parsed, LoadedWith, LoadTransfers, Run, LoadedCache, Live, ByLocation, Alive;
    var env := b.env;
    var partials := Only(r.ordinals.partials, env.prevouts.Keys);
    var loaded := LoadTransfers(w.ledger.transfers, env.prevouts);
    OwnersUnique(w);
    LoadedIff(w, env, x.location);
    assert x.location in ByLocation(w.ledger.transfers) && ByLocation(w.ledger.transfers)[x.location].owner == x.address by {
      RowIs(w.ledger.transfers, x);
    }
    assert x.location in b.state.valid;
    LoadedRows(w, r, env);
    RunLive(LoadedCache(w.ledger, env.prevouts, b.p.all, b.p.actions), w.holders, b.p.actions);
    assert LoadedCache(w.ledger, env.prevouts, b.p.all, b.p.actions).valid == loaded by { CacheValid(w.ledger, env, b.p); }
    if x.location !in loaded {
      LiveFrom(loaded.Keys, b.p.actions, x.location);
      var i :| 0 <= i < |b.p.actions| && b.p.actions[i].Transfer? && b.p.actions[i].location == x.location;
      ActionPlaced(w, env, partials, i);
      assert false;
    }
    assert loaded[x.location].owner == x.address;
    TransferKeysAre(loaded, x);
  }

  lemma RowIs(transfers: map<AddressLocation, TransferProto>, x: AddressLocation)
    requires OneOwner(transfers) && x in transfers
    ensures x.location in ByLocation(transfers) && ByLocation(transfers)[x.location].owner == x.address
  {
  }

  lemma CacheValid(g: CacheRefinement.Tables, env: Env, p: Progress)
    ensures LoadedCache(g, env.prevouts, p.all, p.actions).valid == LoadTransfers(g.transfers, env.prevouts)
  {
  }

  lemma {:induction false} LiveFrom(live: set<Location>, actions: seq<TokenAction>, l: Location)
    requires l in Live(live, actions) && l !in live
    ensures exists i :: 0 <= i < |actions| && actions[i].Transfer? && actions[i].location == l
    decreases |actions|
  {
    var n := |actions| - 1;
    if !(actions[n].Transfer? && actions[n].location == l) {
      LiveFrom(live, actions[..n], l);
      var i :| 0 <= i < n && actions[..n][i].Transfer? && actions[..n][i].location == l;
      assert actions[i].location == l;
    }
  }

  /** An output the block makes that is still stored is stored as the block writes it. */
  lemma LeftoverSame(w: World, r: Rows, b: Handled, o: OutPoint)
    requires HandledOn(w, r, b) && o in r.ordinals.prevouts && o in Prevouts.Written(b.env.txs)
    ensures r.ordinals.prevouts[o] == Prevouts.Written(b.env.txs)[o]
  {
    hide LedgerOk, TransfersPlaced, OffsetsBounded, OutputsTrue, WorkedOut, InBlock, Prevouts.Written, EnvOk;
    TxidsDistinct(b.env);
    WrittenIs(b.env, o);
    var out :| InBlock(b.env, o, out);
  }

  lemma TxidsDistinct(env: Env)
    requires Positions.Ok(env)
    ensures DistinctTxids(env.txs)
  {
  }

  /** The spent outputs are the looked-up ones, each stored or written by the block. */
  lemma SpentFound(r: Rows, env: Env)
    requires LookedUp(r, env) == Some(env.prevouts)
    ensures env.prevouts.Keys == Prevouts.Spent(env.txs)
    ensures forall o :: o in env.prevouts ==>
              env.prevouts[o] == (if o in r.ordinals.prevouts then r.ordinals.prevouts[o] else if o in Prevouts.Written(env.txs) then Prevouts.Written(env.txs)[o] else env.prevouts[o])
    ensures Prevouts.Spent(env.txs) <= r.ordinals.prevouts.Keys + Prevouts.Written(env.txs).Keys
  {
    hide Prevouts.Written, Prevouts.Spent;
    var keys, own := Prevouts.Spent(env.txs), Prevouts.Written(env.txs);
    forall o | o in keys ensures o in r.ordinals.prevouts || o in own {
      assert Prevouts.LookUp(r.ordinals.prevouts, own, o).Some?;
    }
  }

  /** What each write of the block finds is there: no panic while the inverse entries are taken. */
  lemma HandledWritable(w: World, r: Rows, b: Handled)
    requires HandledOn(w, r, b)
    ensures AllWritable(r, DataOf(r, b))
  {
    hide WorldOk, BlockOk, OffsetsLeft, ParsedOn, Drained, Prevouts.Written, Prevouts.Spent, Assigned, LastId, TransferRows, WriteAll, Only, Balanced;
    var ds := DataOf(r, b);
    DataOnce(r, b);
    SpentFound(r, b.env);
    RemovedStored(r.tokens.transfers, b.env.prevouts);
    forall i | 0 <= i < |ds| ensures Writable(WriteAll(r, ds[..i]), ds[i]) {
      DataWritable(r, ds, i);
    }
  }

  lemma RemovedStored(transfers: map<AddressLocation, TransferProto>, prevouts: map<OutPoint, TxPrevout>)
    ensures TransferKeys(LoadTransfers(transfers, prevouts)) <= transfers.Keys
  {
    forall x | x in TransferKeys(LoadTransfers(transfers, prevouts)) ensures x in transfers {
      var l :| l in LoadTransfers(transfers, prevouts) && x == AddressLocation(LoadTransfers(transfers, prevouts)[l].owner, l);
      var y :| y in transfers && y.location == l && LoadTransfers(transfers, prevouts)[l] == ValidTransfer(y.address, transfers[y]);
      assert x == y;
    }
  }

  /** A write is possible after others of different kinds when it was possible at first. */
  lemma DataWritable(r: Rows, ds: seq<ProcessedData>, i: nat)
    requires i < |ds| && Once(ds) && Writable(r, ds[i])
    ensures Writable(WriteAll(r, ds[..i]), ds[i])
  {
    hide WriteAll;
    if ds[i].TokensData? {
      assert Touches(ds[i], Transfers);
      BlockElsewhere(r.tokens, r.ordinals, r, ds[..i], Transfers);
    } else if ds[i].PrevoutsData? {
      assert Touches(ds[i], PrevoutTable);
      BlockElsewhere(r.tokens, r.ordinals, r, ds[..i], PrevoutTable);
    }
  }

  lemma FreshOnly(r: Rows, ds: seq<ProcessedData>, j: nat, k: UndoLog.Table)
    requires Once(ds) && j < |ds| && Touches(ds[j], k) && UndoLog.Fresh(r, ds[j], k)
    ensures FreshAll(r, ds, k)
  {
    hide Touches, UndoLog.Fresh;
    forall i | 0 <= i < |ds| ensures UndoLog.Fresh(r, ds[i], k) {
      FreshAlike(r, r, ds[i], k);
    }
  }

  lemma HistoryFresh(r: Rows, b: Handled)
    requires HistoryOk(r) && EventsBelow(r, b.env.height)
    ensures UndoLog.Fresh(r, FullData(r, b)[4], History)
  {
    hide IdsOk, UndoLog.Fresh, UndoLog.Write;
    assert FiledAs(r.tokens.LastHistoryId(), b.env.height, FullData(r, b)[4]);
    FilingKeeps(r, b.env.height, FullData(r, b)[4]);
  }

  lemma FullFresh(w: World, r: Rows, b: Handled, k: UndoLog.Table)
    requires Full(b) && HandledOn(w, r, b) && RowsOk(w, r) && !k.OutPointEvents? && !k.PrevoutTable?
    requires k.History? ==> HistoryOk(r) && EventsBelow(r, b.env.height)
    ensures FreshAll(r, FullData(r, b), k)
  {
    hide HandledOn, RowsOk, Prevouts.Written, Prevouts.Spent, Assigned, LastId, TransferRows, TransferKeys, LoadTransfers, Only, FreshKeys, UndoLog.Stored, FreshAll, HistoryOk, Once;
    var ds := FullData(r, b);
    DataOnce(r, b);
    if k.History? {
      HistoryFresh(r, b);
      FreshOnly(r, ds, 4, k);
    } else if k.PartialTable? {
      PartialsFresh(w, r, b);
      FreshOnly(r, ds, 2, k);
    } else if k.OffsetTable? {
      OffsetsFresh(w, r, b);
      FreshOnly(r, ds, 3, k);
    } else {
      TransfersFresh(w, r, b);
      FreshOnly(r, ds, 5, k);
    }
  }

  /** The shortcuts write outputs, addresses and block info only. */
  lemma ShortFresh(r: Rows, b: Handled, k: UndoLog.Table)
    requires !k.PrevoutTable?
    ensures FreshAll(r, ShortData(b), k)
  {
    hide Prevouts.Written, Prevouts.Spent;
  }

  /** Every table but the event index and the unspent outputs was written freshly. */
  lemma HandledFresh(w: World, r: Rows, b: Handled, k: UndoLog.Table)
    requires HandledOn(w, r, b) && RowsOk(w, r) && !k.OutPointEvents? && !k.PrevoutTable?
    requires k.History? ==> HistoryOk(r) && EventsBelow(r, b.env.height)
    ensures FreshAll(r, DataOf(r, b), k)
  {
    hide HandledOn, RowsOk, FullData, ShortData, FreshAll, HistoryOk, EventsBelow;
    if Full(b) {
      FullFresh(w, r, b, k);
    } else {
      ShortFresh(r, b, k);
    }
  }

  lemma TransfersFresh(w: World, r: Rows, b: Handled)
    requires Full(b) && HandledOn(w, r, b)
    ensures FreshKeys(r.tokens.transfers, TransferKeys(LoadTransfers(r.tokens.transfers, b.env.prevouts)), TransferRows(b.state.valid).Keys)
  {
    hide HandledOn, TransferRows, TransferKeys, LoadTransfers;
    forall x | x in TransferRows(b.state.valid) && x in r.tokens.transfers
      ensures x in TransferKeys(LoadTransfers(r.tokens.transfers, b.env.prevouts)) {
      TransferFresh(w, r, b, x);
    }
  }

  /** A handled block undone: histories, metas, balances, transfers, unfinished inscriptions and offsets
      are exactly as before it; the unspent outputs are all back, with only the block's own on top. */
  lemma HandledUndone(w: World, r: Rows, b: Handled, k: UndoLog.Table)
    requires HandledOn(w, r, b) && RowsOk(w, r) && !k.OutPointEvents?
    requires k.History? ==> HistoryOk(r) && EventsBelow(r, b.env.height)
    ensures !k.PrevoutTable? ==> UndoneAfter(r, DataOf(r, b), k) == Part(r, k)
    ensures k.PrevoutTable? ==>
              var u := UndoWindow.PrevoutsAfter(r, DataOf(r, b));
              UndoLog.Stored(u, r.ordinals.prevouts) && u.Keys == r.ordinals.prevouts.Keys + UndoWindow.OutputsIn(DataOf(r, b))
  {
    hide HandledOn, RowsOk, DataOf, UndoneAfter, Part, FreshAll, HistoryOk, UndoWindow.PrevoutsAfter, UndoLog.Stored, AllWritable, Once, UndoWindow.OverwritesAll;
    DataOnce(r, b);
    HandledWritable(w, r, b);
    if k.PrevoutTable? {
      UndoWindow.BlockCovers(r, DataOf(r, b));
      OutputsOverwrite(w, r, b);
    } else {
      HandledFresh(w, r, b, k);
      BlockExactly(r, DataOf(r, b), k);
    }
  }

  lemma OutputsOverwrite(w: World, r: Rows, b: Handled)
    requires HandledOn(w, r, b)
    ensures UndoWindow.OverwritesAll(r, DataOf(r, b))
  {
    hide HandledOn, Prevouts.Written, Prevouts.Spent, Assigned, LastId, TransferRows, TransferKeys, Only, LoadTransfers;
    forall o | o in Prevouts.Written(b.env.txs) && o in r.ordinals.prevouts ensures Prevouts.Written(b.env.txs)[o] == r.ordinals.prevouts[o] {
      LeftoverSame(w, r, b, o);
    }
  }
}
