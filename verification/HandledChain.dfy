/** Chains of handled blocks: the tables each block finds and leaves, and what every restore within the
    cached window gives back. */
module HandledChain {
  import opened Base
  import opened Ledger
  import opened BlockParser
  import opened OwnRecords
  import opened Pipeline
  import opened HistoryIds
  import opened UndoLog
  import opened UndoExact
  import opened UndoWindow
  import opened ReorgRuns
  import opened ReorgOutputs
  import opened HistoryRuns
  import opened Handler
  import opened BlockOutputs
  import opened HandledBlocks
  import opened HandledRuns
  import CacheRefinement
  import LedgerInvariants
  import LogReplay
  import Positions
  import Prevouts

  // ---- what a chain of handled blocks leaves ----

  ghost function RowsOf(chain: seq<Handled>): Rows
  {
    if chain == [] then EMPTY else RowsAfter(RowsOf(chain[..|chain| - 1]), chain[|chain| - 1])
  }

  /** Each block found the holder index it was handled under; the other tables are those before it. */
  ghost function WorldOf(chain: seq<Handled>): World
  {
    if chain == [] then GENESIS
    else
      var init, b := chain[..|chain| - 1], chain[|chain| - 1];
      WorldAfter(Under(WorldOf(init), b.before), RowsOf(init), b)
  }

  ghost function Under(w: World, h: Index): World
  {
    w.(holders := h)
  }

  ghost function BlockOf(chain: seq<Handled>, b: Handled): Block
  {
    Block(b.env.height, DataOf(RowsOf(chain), b))
  }

  ghost function BlocksOf(chain: seq<Handled>): (bs: seq<Block>)
    ensures |bs| == |chain|
  {
    if chain == [] then [] else BlocksOf(chain[..|chain| - 1]) + [BlockOf(chain[..|chain| - 1], chain[|chain| - 1])]
  }

  lemma {:induction false} BlocksPrefix(chain: seq<Handled>, n: nat)
    requires n <= |chain|
    ensures BlocksOf(chain[..n]) == BlocksOf(chain)[..n]
    decreases |chain|
  {
    hide BlockOf;
    if n == |chain| {
      assert chain[..n] == chain;
    } else {
      BlocksPrefix(chain[..|chain| - 1], n);
      assert chain[..|chain| - 1][..n] == chain[..n];
    }
  }

  lemma BlocksAt(chain: seq<Handled>, i: nat)
    requires i < |chain|
    ensures BlocksOf(chain)[i] == BlockOf(chain[..i], chain[i])
  {
    hide BlockOf;
    BlocksPrefix(chain, i + 1);
    assert chain[..i + 1][..i] == chain[..i];
  }

  lemma {:induction false} AfterBlocks(chain: seq<Handled>)
    ensures After(EMPTY, BlocksOf(chain)) == RowsOf(chain)
    decreases |chain|
  {
    hide DataOf, WriteAll;
    if chain != [] {
      AfterBlocks(chain[..|chain| - 1]);
      assert BlocksOf(chain)[..|chain| - 1] == BlocksOf(chain[..|chain| - 1]);
    }
  }

  // ---- well handled chains ----

  /** A transaction id fixes its outputs. */
  ghost predicate OutputsAgree(val: Values, env: Env)
  {
    forall o, out :: InBlock(env, o, out) ==> val(o) == AsPrevout(out)
  }

  ghost predicate HigherThan(chain: seq<Handled>, height: nat)
  {
    forall j :: 0 <= j < |chain| ==> chain[j].env.height < height
  }

  /** `b` was handled on what `chain` left. */
  ghost predicate Top(chain: seq<Handled>, b: Handled, val: Values)
  {
    && HandledOn(Under(WorldOf(chain), b.before), RowsOf(chain), b) && (Full(b) ==> SameTransfers(b.p.actions))
    && HigherThan(chain, b.env.height) && OutputsAgree(val, b.env)
  }

  ghost predicate WellHandled(chain: seq<Handled>, val: Values)
  {
    chain != [] ==> WellHandled(chain[..|chain| - 1], val) && Top(chain[..|chain| - 1], chain[|chain| - 1], val)
  }

  lemma {:induction false} WellPrefix(chain: seq<Handled>, n: nat, val: Values)
    requires n <= |chain| && WellHandled(chain, val)
    ensures WellHandled(chain[..n], val)
    ensures n < |chain| ==> Top(chain[..n], chain[n], val)
    decreases |chain|
  {
    hide Top;
    if n >= |chain| - 1 {
      assert n == |chain| ==> chain[..n] == chain;
    } else {
      WellPrefix(chain[..|chain| - 1], n, val);
      assert chain[..|chain| - 1][..n] == chain[..n];
    }
  }

  lemma WellOnTop(chain: seq<Handled>, b: Handled, val: Values)
    requires WellHandled(chain, val) && Top(chain, b, val)
    ensures WellHandled(chain + [b], val)
    ensures RowsOf(chain + [b]) == RowsAfter(RowsOf(chain), b)
    ensures WorldOf(chain + [b]) == WorldAfter(Under(WorldOf(chain), b.before), RowsOf(chain), b)
    ensures BlocksOf(chain + [b]) == BlocksOf(chain) + [BlockOf(chain, b)]
  {
    hide Top, RowsAfter, WorldAfter, BlockOf;
    assert (chain + [b])[..|chain|] == chain;
  }

  // ---- what a well handled chain keeps ----

  /** The ideal world of a chain: its table of outputs is the unspent ones alone, its history in order. */
  ghost predicate ChainOk(chain: seq<Handled>, val: Values)
  {
    var w, r := WorldOf(chain), RowsOf(chain);
    && WorldOk(w) && RowsOk(w, r) && Reflects(w, r, w.holders) && w.unspent == w.prevouts
    && (forall o :: o in w.made ==> val(o) == AsPrevout(w.made[o]))
    && HistoryOk(r) && (forall h: nat :: HigherThan(chain, h) ==> EventsBelow(r, h))
  }

  lemma UnderKeeps(w: World, r: Rows, h: Index)
    requires WorldOk(w) && RowsOk(w, r)
    ensures WorldOk(Under(w, h)) && RowsOk(Under(w, h), r)
  {
    hide LedgerInvariants.Inv, CacheRefinement.OneOwner, LogReplay.Replay, LedgerInvariants.Gap, LogReplay.ViewOf, CacheRefinement.Whole;
  }

  lemma EmptyChain(val: Values)
    ensures ChainOk([], val)
  {
    hide WorldOk, IdsOk, HoldersOk;
    GenesisOk();
    EmptyIds();
  }

  lemma TopWorld(chain: seq<Handled>, b: Handled, val: Values)
    requires ChainOk(chain, val) && Top(chain, b, val)
    ensures var w := WorldAfter(Under(WorldOf(chain), b.before), RowsOf(chain), b);
            && WorldOk(w) && RowsOk(w, RowsAfter(RowsOf(chain), b)) && Reflects(w, RowsAfter(RowsOf(chain), b), w.holders)
            && w.unspent == w.prevouts
  {
    hide HandledOn, WorldOk, RowsOk, RowsAfter, HandledEffect, SameTransfers, HistoryOk, OutputsAgree, Prevouts.Written, Prevouts.Spent, AllOutputs, HoldersOk, LedgerOf;
    var w, r := Under(WorldOf(chain), b.before), RowsOf(chain);
    UnderKeeps(WorldOf(chain), r, b.before);
    HandledKeeps(w, r, b);
    PrevoutsStored(r, b);
  }

  lemma TopMade(chain: seq<Handled>, b: Handled, val: Values, o: OutPoint)
    requires ChainOk(chain, val) && Top(chain, b, val)
    requires var w := WorldAfter(Under(WorldOf(chain), b.before), RowsOf(chain), b); o in w.made
    ensures val(o) == AsPrevout(WorldAfter(Under(WorldOf(chain), b.before), RowsOf(chain), b).made[o])
  {
    hide WorldOk, WorkedOut, Positions.Ok, RowsOk, RowsAfter, SameTransfers, HistoryOk, Prevouts.Written, Prevouts.Spent, AllOutputs, LedgerOf, InBlock;
    TxidsDistinct(b.env);
    InBlockIs(b.env, o);
  }

  /** The history filed by a handled block continues the ids. */
  lemma DataFiled(r: Rows, b: Handled)
    ensures Filed(r.tokens.LastHistoryId(), Block(b.env.height, DataOf(r, b)))
  {
    hide Assigned, LastId, Prevouts.Written, Prevouts.Spent, CacheRefinement.TransferRows, CacheRefinement.TransferKeys, Only, CacheRefinement.LoadTransfers;
    var ds := DataOf(r, b);
    forall i | 0 <= i < |ds| && ds[i].HistoryData? ensures FiledAs(r.tokens.LastHistoryId(), b.env.height, ds[i]) {
      assert ds[i] == HistoryData(b.env.height, LastId(r.tokens.LastHistoryId(), b.log), Assigned(r.tokens.LastHistoryId(), b.env.height, b.log));
    }
  }

  lemma HistoryKept(r: Rows, b: Handled)
    requires HistoryOk(r) && EventsBelow(r, b.env.height)
    ensures HistoryOk(RowsAfter(r, b)) && EventsBelow(RowsAfter(r, b), b.env.height + 1)
    ensures FreshAll(r, DataOf(r, b), History)
  {
    hide HistoryOk, DataOf, WriteAll, FreshAll, Filed, EventsBelow, Once;
    DataOnce(r, b);
    DataFiled(r, b);
    BlockKeepsIds(r, Block(b.env.height, DataOf(r, b)));
  }

  lemma TopHistory(chain: seq<Handled>, b: Handled, val: Values)
    requires ChainOk(chain, val) && Top(chain, b, val)
    ensures HistoryOk(RowsAfter(RowsOf(chain), b)) && EventsBelow(RowsAfter(RowsOf(chain), b), b.env.height + 1)
  {
    hide WorldOk, HandledOn, SameTransfers, OutputsAgree, HistoryOk, RowsAfter, EventsBelow, RowsOk;
    HistoryKept(RowsOf(chain), b);
  }

  lemma TopEvents(chain: seq<Handled>, b: Handled, val: Values, h: nat)
    requires ChainOk(chain, val) && Top(chain, b, val) && HigherThan(chain + [b], h)
    ensures EventsBelow(RowsAfter(RowsOf(chain), b), h)
  {
    hide WorldOk, HandledOn, SameTransfers, OutputsAgree, HistoryOk, RowsAfter, RowsOk;
    TopHistory(chain, b, val);
    assert (chain + [b])[|chain|] == b;
  }

  lemma {:induction false} ChainKeeps(chain: seq<Handled>, val: Values)
    requires WellHandled(chain, val)
    ensures ChainOk(chain, val)
    decreases |chain|
  {
    hide Top, WorldOk, RowsOk, Reflects, HistoryOk, RowsAfter, WorldAfter, HigherThan, EventsBelow, AsPrevout;
    if chain == [] {
      EmptyChain(val);
    } else {
      var init, b := chain[..|chain| - 1], chain[|chain| - 1];
      assert chain == init + [b];
      ChainKeeps(init, val);
      TopWorld(init, b, val);
      TopHistory(init, b, val);
      forall o | o in WorldOf(chain).made ensures val(o) == AsPrevout(WorldOf(chain).made[o]) {
        TopMade(init, b, val, o);
      }
      forall h: nat | HigherThan(chain, h) ensures EventsBelow(RowsOf(chain), h) {
        TopEvents(init, b, val, h);
      }
    }
  }

  // ---- every block writes freshly ----

  /** The tables a restore gives back exactly. */
  predicate Restorable(k: Table)
  {
    !k.OutPointEvents? && !k.PrevoutTable?
  }

  lemma TopFresh(chain: seq<Handled>, b: Handled, val: Values, k: Table)
    requires ChainOk(chain, val) && Top(chain, b, val) && Restorable(k)
    ensures DataOk(EMPTY, BlocksOf(chain), DataOf(RowsOf(chain), b), k)
  {
    hide WorldOk, HandledOn, RowsOk, HistoryOk, EventsBelow, SameTransfers, OutputsAgree, DataOf, Once, AllWritable, FreshAll;
    var w, r := Under(WorldOf(chain), b.before), RowsOf(chain);
    UnderKeeps(WorldOf(chain), r, b.before);
    AfterBlocks(chain);
    DataOnce(r, b);
    HandledWritable(w, r, b);
    HandledFresh(w, r, b, k);
  }

  lemma WrittenAgrees(env: Env, val: Values)
    requires DistinctTxids(env.txs) && OutputsAgree(val, env)
    ensures Agrees(val, Prevouts.Written(env.txs))
  {
    hide Prevouts.Written, InBlock, AsPrevout;
    forall o | o in Prevouts.Written(env.txs) ensures Prevouts.Written(env.txs)[o] == val(o) {
      WrittenIs(env, o);
      var out :| InBlock(env, o, out) && !out.unspendable;
    }
  }

  lemma DataTrue(r: Rows, b: Handled, val: Values)
    requires DistinctTxids(b.env.txs) && OutputsAgree(val, b.env)
    ensures DataAgrees(val, DataOf(r, b))
  {
    hide DistinctTxids, OutputsAgree, Agrees, Prevouts.Written, Prevouts.Spent, Only, Assigned, LastId, CacheRefinement.TransferRows, CacheRefinement.TransferKeys, CacheRefinement.LoadTransfers;
    WrittenAgrees(b.env, val);
  }

  lemma TopTxids(chain: seq<Handled>, b: Handled, val: Values)
    requires Top(chain, b, val)
    ensures DistinctTxids(b.env.txs)
  {
    hide WorldOk, WorkedOut, NewTxs, SameTransfers, OutputsAgree;
    TxidsDistinct(b.env);
  }

  lemma TopOutputs(chain: seq<Handled>, b: Handled, val: Values)
    requires ChainOk(chain, val) && Top(chain, b, val)
    ensures OutputsOk(EMPTY, BlocksOf(chain), DataOf(RowsOf(chain), b), val)
    ensures OverwritesAll(RowsOf(chain), DataOf(RowsOf(chain), b))
  {
    hide WorldOk, HandledOn, RowsOk, HistoryOk, EventsBelow, SameTransfers, OutputsAgree, Once, AllWritable, OverwritesAll, DataAgrees, DataOf, DistinctTxids;
    var w, r := Under(WorldOf(chain), b.before), RowsOf(chain);
    AfterBlocks(chain);
    DataOnce(r, b);
    HandledWritable(w, r, b);
    OutputsOverwrite(w, r, b);
    TopTxids(chain, b, val);
    DataTrue(r, b, val);
  }

  lemma LinkFresh(chain: seq<Handled>, i: nat, val: Values, k: Table)
    requires WellHandled(chain, val) && i < |chain| && Restorable(k)
    ensures DataOk(EMPTY, BlocksOf(chain)[..i], BlocksOf(chain)[i].data, k)
  {
    hide Top, ChainOk, DataOk, WellHandled, DataOf;
    WellPrefix(chain, i, val);
    ChainKeeps(chain[..i], val);
    TopFresh(chain[..i], chain[i], val, k);
    BlocksPrefix(chain, i);
    BlocksAt(chain, i);
  }

  lemma LinkOutputs(chain: seq<Handled>, i: nat, val: Values)
    requires WellHandled(chain, val) && i < |chain|
    ensures OutputsOk(EMPTY, BlocksOf(chain)[..i], BlocksOf(chain)[i].data, val)
    ensures OverwritesAll(After(EMPTY, BlocksOf(chain)[..i]), BlocksOf(chain)[i].data)
  {
    hide Top, ChainOk, OutputsOk, OverwritesAll, WellHandled, DataOf;
    WellPrefix(chain, i, val);
    ChainKeeps(chain[..i], val);
    TopOutputs(chain[..i], chain[i], val);
    BlocksPrefix(chain, i);
    BlocksAt(chain, i);
    AfterBlocks(chain[..i]);
  }

  lemma ChainWellFormed(chain: seq<Handled>, val: Values)
    requires WellHandled(chain, val)
    ensures WellFormed(EMPTY, BlocksOf(chain), 0)
  {
    hide WellHandled, Once, AllWritable, DataAgrees, After;
    forall i | 0 <= i < |chain| ensures Once(BlocksOf(chain)[i].data) && AllWritable(After(EMPTY, BlocksOf(chain)[..i]), BlocksOf(chain)[i].data) {
      LinkOutputs(chain, i, val);
    }
  }

  /** A chain of handled blocks restored to any of its heights: histories, metas, balances, transfers,
      unfinished inscriptions and offsets are exactly as the blocks below left them. */
  lemma ChainRestores(chain: seq<Handled>, val: Values, j: nat, k: Table)
    requires WellHandled(chain, val) && j <= |chain| && Restorable(k)
    ensures Part(Restored(RowsOf(chain), EMPTY, BlocksOf(chain), j), k) == Part(RowsOf(chain[..j]), k)
  {
    hide WellHandled, WellFormed, Part, Once, AllWritable, FreshAll, Restorable;
    var bs := BlocksOf(chain);
    ChainWellFormed(chain, val);
    forall i | 0 <= i < |bs| ensures FreshAt(EMPTY, bs, i, k) {
      LinkFresh(chain, i, val, k);
    }
    WindowExactly(EMPTY, bs, 0, k);
    AfterBlocks(chain);
    AfterBlocks(chain[..j]);
    BlocksPrefix(chain, j);
    assert RestoresAt(After(EMPTY, bs), EMPTY, bs, j, k);
  }

  /** Of the unspent outputs every one is back with its value, and what is left on top are outputs of the
      undone blocks. */
  lemma ChainCovers(chain: seq<Handled>, val: Values, j: nat)
    requires WellHandled(chain, val) && j <= |chain|
    ensures var u := Restored(RowsOf(chain), EMPTY, BlocksOf(chain), j).ordinals.prevouts;
            UndoLog.Stored(u, RowsOf(chain[..j]).ordinals.prevouts)
            && u.Keys <= RowsOf(chain[..j]).ordinals.prevouts.Keys + OutputsFrom(BlocksOf(chain), j)
  {
    hide WellHandled, WellFormed, OverwritesAll, OutputsOk, UndoLog.Stored, Restored, OutputsFrom;
    var bs := BlocksOf(chain);
    ChainWellFormed(chain, val);
    LaterWellFormed(EMPTY, bs, 0, j);
    forall i | j <= i < |bs| ensures OverwritesAll(After(EMPTY, bs[..i]), bs[i].data) {
      LinkOutputs(chain, i, val);
    }
    WindowCovers(EMPTY, bs, j);
    AfterBlocks(chain);
    AfterBlocks(chain[..j]);
    BlocksPrefix(chain, j);
  }
}
