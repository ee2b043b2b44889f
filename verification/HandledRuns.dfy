/** Handling and writing a block is one step of the whole-run theorem: the tables it leaves keep every
    promise the next block relies on. */
module HandledRuns {
  import opened Base
  import opened Ledger
  import opened CacheRefinement
  import opened BlockParser
  import opened Routing
  import opened OwnRecords
  import opened Pipeline
  import opened HistoryIds
  import opened UndoLog
  import opened UndoExact
  import opened Handler
  import opened HandledKeys
  import opened BlockOutputs
  import opened HandledBlocks
  import LedgerInvariants
  import LogReplay
  import Prevouts
  import Positions

  // ---- the tables after the writes ----

  ghost function RowsAfter(r: Rows, b: Handled): Rows
  {
    WriteAll(r, DataOf(r, b))
  }

  lemma TokensAfter(r: Rows, b: Handled)
    requires Full(b)
    ensures var t := RowsAfter(r, b).tokens;
            && t.metas == r.tokens.metas + b.state.tokens
            && t.balances == r.tokens.balances + b.state.accounts
            && t.transfers == (r.tokens.transfers - TransferKeys(LoadTransfers(r.tokens.transfers, b.env.prevouts))) + TransferRows(b.state.valid)
  {
    hide WriteAll, Once, Prevouts.Written, Prevouts.Spent, TransferKeys, TransferRows, LoadTransfers, Only, Assigned, LastId, Extend, SortKeys, TokenIdItems, OutPointItems;
    var ds := FullData(r, b);
    DataOnce(r, b);
    TouchedOnce(r, ds, 5, Metas);
    TouchedOnce(r, ds, 5, Balances);
    TouchedOnce(r, ds, 5, Transfers);
  }

  lemma OrdinalsAfter(r: Rows, b: Handled)
    requires Full(b)
    ensures var o := RowsAfter(r, b).ordinals;
            && o.partials == (r.ordinals.partials - Only(r.ordinals.partials, b.env.prevouts.Keys).Keys) + b.p.partials
            && o.offsets == (r.ordinals.offsets - Only(r.ordinals.offsets, b.env.prevouts.Keys).Keys) + b.offsets
  {
    hide WriteAll, Once, Prevouts.Written, Prevouts.Spent, TransferKeys, TransferRows, LoadTransfers, Only, Assigned, LastId, Extend, SortKeys, TokenIdItems, OutPointItems;
    var ds := FullData(r, b);
    DataOnce(r, b);
    TouchedOnce(r, ds, 2, PartialTable);
    TouchedOnce(r, ds, 3, OffsetTable);
  }

  lemma PrevoutsStored(r: Rows, b: Handled)
    ensures RowsAfter(r, b).ordinals.prevouts == (r.ordinals.prevouts + Prevouts.Written(b.env.txs)) - Prevouts.Spent(b.env.txs)
  {
    hide WriteAll, Once, Prevouts.Written, Prevouts.Spent, TransferKeys, TransferRows, LoadTransfers, Only, Assigned, LastId, Extend, SortKeys, TokenIdItems, OutPointItems;
    DataOnce(r, b);
    TouchedOnce(r, DataOf(r, b), 0, PrevoutTable);
  }

  /** The shortcuts leave every table but the outputs alone. */
  lemma ShortAfter(r: Rows, b: Handled, k: Table)
    requires !Full(b) && !k.PrevoutTable?
    ensures Part(RowsAfter(r, b), k) == Part(r, k)
  {
    hide WriteAll, Prevouts.Written, Prevouts.Spent, Part;
    BlockElsewhere(r.tokens, r.ordinals, r, ShortData(b), k);
  }

  lemma ShortRows(r: Rows, b: Handled)
    requires !Full(b)
    ensures LedgerOf(RowsAfter(r, b)) == LedgerOf(r)
    ensures RowsAfter(r, b).ordinals.offsets == r.ordinals.offsets && RowsAfter(r, b).ordinals.partials == r.ordinals.partials
  {
    hide RowsAfter;
    ShortAfter(r, b, Metas);
    ShortAfter(r, b, Balances);
    ShortAfter(r, b, Transfers);
    ShortAfter(r, b, OffsetTable);
    ShortAfter(r, b, PartialTable);
  }

  ghost function WorldAfter(w: World, r: Rows, b: Handled): World
  {
    var r' := RowsAfter(r, b);
    World(LedgerOf(r'), b.after, r'.ordinals.offsets, r'.ordinals.prevouts,
          (w.unspent + Prevouts.Written(b.env.txs)) - Prevouts.Spent(b.env.txs),
          w.made + AllOutputs(b.env.txs),
          w.txids + (set k | 0 <= k < |b.env.txs| :: b.env.txs[k].txid),
          w.log + b.log)
  }

  lemma LedgerEffectHolds(w: World, r: Rows, b: Handled)
    requires HandledOn(w, r, b) && Full(b)
    ensures LedgerEffect(w, b.env, b.p, WorldAfter(w, r, b))
  {
    hide WorldOk, BlockOk, Run, LoadedCache, OffsetsLeft, ParsedOn, LookedUp, Only, Prevouts.Written, Prevouts.Spent, RowsAfter, Balanced, LoadTransfers, TransferKeys, TransferRows;
    TokensAfter(r, b);
  }

  lemma PositionEffectHolds(w: World, r: Rows, b: Handled)
    requires HandledOn(w, r, b) && Full(b) && RowsOk(w, r)
    ensures PositionEffect(w, b.env, b.p, WorldAfter(w, r, b))
  {
    hide WorldOk, BlockOk, ParsedOn, LookedUp, Drained, Prevouts.Written, Prevouts.Spent, RowsAfter, Balanced, LeakedAt, KeysOk, Made, NoEmpty, LoadTransfers, TransferKeys, TransferRows;
    OrdinalsAfter(r, b);
    OffsetsFresh(w, r, b);
    var w' := WorldAfter(w, r, b);
    forall l ensures At(w'.offsets, l) <==> (At(w.offsets, l) && l.outpoint !in b.env.prevouts) || Positions.Occupied(b.env, b.p, l) {
      assert At(b.offsets, l) <==> Positions.Occupied(b.env, b.p, l);
      if l.outpoint in b.offsets {
        assert w'.offsets[l.outpoint] == b.offsets[l.outpoint];
      }
    }
  }

  lemma MadePart(made: map<OutPoint, TxOut>, env: Env)
    requires DistinctTxids(env.txs) && forall q :: q in made ==> !Made(env.txs, q)
    ensures var made' := made + AllOutputs(env.txs);
            && (forall q :: q in made' <==> q in made || exists out :: InBlock(env, q, out))
            && (forall q :: q in made ==> made'[q] == made[q])
            && (forall q, out :: InBlock(env, q, out) ==> q in made' && made'[q] == out)
  {
    hide InBlock, AllOutputs, Made;
    forall q ensures q in AllOutputs(env.txs) <==> exists out :: InBlock(env, q, out) {
      InBlockIs(env, q);
    }
    forall q, out | InBlock(env, q, out) ensures q in AllOutputs(env.txs) && AllOutputs(env.txs)[q] == out && q !in made {
      InBlockIs(env, q);
    }
    forall q | q in made ensures q !in AllOutputs(env.txs) {
      InBlockIs(env, q);
    }
  }

  /** Writing the block's outputs and removing the spent ones is the effect on either table of outputs. */
  lemma SpendPart(before: map<OutPoint, TxPrevout>, env: Env)
    requires DistinctTxids(env.txs) && env.prevouts.Keys == Prevouts.Spent(env.txs)
    requires forall o, out :: o in before && InBlock(env, o, out) ==> before[o] == AsPrevout(out)
    ensures SpendEffect(before, env, (before + Prevouts.Written(env.txs)) - Prevouts.Spent(env.txs))
  {
    hide InBlock, Prevouts.Written, Prevouts.Spent, AsPrevout;
    forall q ensures q in Prevouts.Written(env.txs) <==> exists out :: InBlock(env, q, out) && !out.unspendable {
      WrittenIs(env, q);
    }
    forall q, out | InBlock(env, q, out) && q in Prevouts.Written(env.txs) ensures Prevouts.Written(env.txs)[q] == AsPrevout(out) {
      WrittenIs(env, q);
    }
    forall q | q in before && q in Prevouts.Written(env.txs) ensures Prevouts.Written(env.txs)[q] == before[q] {
      var out :| InBlock(env, q, out);
    }
  }

  lemma UnspentOld(w: World, env: Env, o: OutPoint, out: TxOut)
    requires WorldOk(w) && BlockOk(w, env) && o in w.unspent
    ensures !InBlock(env, o, out)
  {
    hide LedgerOk, TransfersPlaced, OffsetsBounded, Positions.Ok;
    MadeOutside(w, env, o);
  }

  lemma AllMade(w: World, r: Rows, b: Handled)
    requires HandledOn(w, r, b)
    ensures var made := w.made + AllOutputs(b.env.txs);
            && (forall q :: q in made <==> q in w.made || exists out :: InBlock(b.env, q, out))
            && (forall q :: q in w.made ==> made[q] == w.made[q])
            && (forall q, out :: InBlock(b.env, q, out) ==> q in made && made[q] == out)
  {
    hide WorldOk, WorkedOut, Positions.Ok, NewTxs, InBlock, AllOutputs, Made;
    TxidsDistinct(b.env);
    forall q | q in w.made ensures !Made(b.env.txs, q) {
      OldNotMade(w, b.env, q);
    }
    MadePart(w.made, b.env);
  }

  lemma TablesSpent(w: World, r: Rows, b: Handled)
    requires HandledOn(w, r, b)
    ensures SpendEffect(w.prevouts, b.env, (w.prevouts + Prevouts.Written(b.env.txs)) - Prevouts.Spent(b.env.txs))
    ensures SpendEffect(w.unspent, b.env, (w.unspent + Prevouts.Written(b.env.txs)) - Prevouts.Spent(b.env.txs))
  {
    hide WorldOk, WorkedOut, Positions.Ok, Prevouts.Written, Prevouts.Spent, InBlock, SpendEffect;
    SpendsFound(w, r, b);
    TxidsDistinct(b.env);
    SpendPart(w.prevouts, b.env);
    forall o, out | o in w.unspent ensures !InBlock(b.env, o, out) {
      UnspentOld(w, b.env, o, out);
    }
    SpendPart(w.unspent, b.env);
  }

  lemma OutputEffectHolds(w: World, r: Rows, b: Handled)
    requires HandledOn(w, r, b)
    ensures OutputEffect(w, b.env, WorldAfter(w, r, b))
  {
    hide WorldOk, BlockOk, WorkedOut, Prevouts.Written, Prevouts.Spent, RowsAfter, InBlock, AllOutputs, LedgerOf, SpendEffect;
    PrevoutsStored(r, b);
    AllMade(w, r, b);
    TablesSpent(w, r, b);
  }

  lemma SpendsFound(w: World, r: Rows, b: Handled)
    requires HandledOn(w, r, b)
    ensures b.env.prevouts.Keys == Prevouts.Spent(b.env.txs)
  {
    SpentFound(r, b.env);
  }

  lemma RowsKept(w: World, r: Rows, b: Handled)
    requires HandledOn(w, r, b) && RowsOk(w, r)
    ensures RowsOk(WorldAfter(w, r, b), RowsAfter(r, b))
  {
    hide WorldOk, BlockOk, WorkedOut, Prevouts.Written, Prevouts.Spent, RowsAfter, Made, AllOutputs, LoadTransfers, TransferKeys, TransferRows;
    if Full(b) {
      OrdinalsAfter(r, b);
      BlockKeys(w, r, b);
      assert DistinctTxids(b.env.txs) by { HandledTxids(w, b.env); }
      forall o | o in b.p.partials ensures o in w.made + AllOutputs(b.env.txs) {
        InBlockIs(b.env, o);
      }
    } else {
      ShortRows(r, b);
    }
  }

  lemma HandledTxids(w: World, env: Env)
    requires BlockOk(w, env)
    ensures DistinctTxids(env.txs)
  {
    TxidsDistinct(env);
  }

  // ---- the block as a step of the whole run ----

  /** The world as the shortcuts leave it: outputs made and spent, all else as it was. */
  ghost predicate SkipEffect(w: World, env: Env, w': World)
  {
    && w'.ledger == w.ledger && w'.holders == w.holders && w'.offsets == w.offsets && w'.log == w.log
    && OutputEffect(w, env, w')
  }

  lemma SkipKeeps(w: World, env: Env, w': World)
    requires WorldOk(w) && BlockOk(w, env) && SkipEffect(w, env, w')
    ensures WorldOk(w') && (HoldersOk(w) ==> HoldersOk(w'))
  {
    hide Positions.Ok, InBlock, LedgerInvariants.Inv, LogReplay.Replay, LedgerInvariants.Gap, OneOwner, Whole, LogReplay.ViewOf, OutputsTrue, NewTxs, At, SpendEffect;
    OutputsKeep(w, env, w');
  }

  lemma SkipEffectHolds(w: World, r: Rows, b: Handled)
    requires HandledOn(w, r, b) && !Full(b)
    ensures SkipEffect(w, b.env, WorldAfter(w, r, b))
  {
    hide WorldOk, BlockOk, LookedUp, RowsAfter, OutputEffect, Prevouts.Written, Prevouts.Spent, AllOutputs;
    ShortRows(r, b);
    assert w.log + [] == w.log;
    OutputEffectHolds(w, r, b);
  }

  /** What handling and writing a block does to the world. */
  ghost predicate HandledEffect(w: World, r: Rows, b: Handled, w': World)
  {
    if Full(b) then Balanced(b.env.txs, b.env.prevouts) && BlockEffect(w, b.env, Only(r.ordinals.partials, b.env.prevouts.Keys), w')
    else SkipEffect(w, b.env, w')
  }

  lemma FullEffectHolds(w: World, r: Rows, b: Handled)
    requires HandledOn(w, r, b) && RowsOk(w, r) && Full(b)
    ensures Balanced(b.env.txs, b.env.prevouts)
    ensures b.p == Parsed(b.env, LoadedWith(w, b.env, Only(r.ordinals.partials, b.env.prevouts.Keys)))
    ensures BlockEffect(w, b.env, Only(r.ordinals.partials, b.env.prevouts.Keys), WorldAfter(w, r, b))
  {
    hide WorldOk, BlockOk, RowsOk, RowsAfter, LookedUp, OffsetsLeft, LedgerEffect, PositionEffect, OutputEffect, Parsed, Drained, Balanced;
    LoadedRows(w, r, b.env);
    LedgerEffectHolds(w, r, b);
    PositionEffectHolds(w, r, b);
    OutputEffectHolds(w, r, b);
  }

  /** Handling a block on good tables and writing its data leaves good tables: the step of the whole-run
      theorem holds, and the next block finds every promise it relies on. */
  lemma HandledKeeps(w: World, r: Rows, b: Handled)
    requires HandledOn(w, r, b) && RowsOk(w, r) && (Full(b) ==> SameTransfers(b.p.actions))
    ensures var w' := WorldAfter(w, r, b);
            && HandledEffect(w, r, b, w') && Reflects(w', RowsAfter(r, b), b.after)
            && WorldOk(w') && RowsOk(w', RowsAfter(r, b)) && (HoldersOk(w) ==> HoldersOk(w'))
  {
    hide WorldOk, BlockOk, RowsOk, RowsAfter, LookedUp, OffsetsLeft, BlockEffect, SkipEffect, ParsedOn, Parsed, LoadedWith, Drained, Balanced, SameTransfers, HoldersOk;
    RowsKept(w, r, b);
    if Full(b) {
      FullEffectHolds(w, r, b);
      BlockKeeps(w, b.env, Only(r.ordinals.partials, b.env.prevouts.Keys), WorldAfter(w, r, b));
    } else {
      SkipEffectHolds(w, r, b);
      SkipKeeps(w, b.env, WorldAfter(w, r, b));
    }
  }
}
