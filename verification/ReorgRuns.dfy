/** The consumer event by event: what it rolls back, what it refuses, and that its tables stay those of
    the surviving blocks. */
module ReorgRuns {
  import opened Base
  import opened HistoryIds
  import opened UndoLog
  import opened UndoExact
  import opened UndoWindow
  import opened ReorgStore
  import opened Consumer

  /** Two logs that undo table `k` alike. */
  ghost predicate LogLike(a: HistoryBlock, b: HistoryBlock, k: Table)
  {
    forall t, o :: UndoLogOn(t, o, a, k) == UndoLogOn(t, o, b, k)
  }

  /** Block `i` of the chain is cached with a log that undoes table `k`, which its block wrote freshly. */
  ghost predicate CachedAt(blocks: Blocks, base: Rows, bs: seq<Block>, i: nat, k: Table)
    requires i < |bs|
  {
    && bs[i].height in blocks && LogLike(blocks[bs[i].height], LogOf(After(base, bs[..i]), bs[i].data), k)
    && Once(bs[i].data) && AllWritable(After(base, bs[..i]), bs[i].data) && FreshAt(base, bs, i, k)
  }

  /** The cache holds the top `c` blocks of the chain, at consecutive heights. */
  ghost predicate Window(blocks: Blocks, prevHeight: Option<nat>, bs: seq<Block>, c: nat)
  {
    && c <= |bs| && c <= REORG_CACHE_MAX_LEN
    && (forall i :: |bs| - c <= i < |bs| ==> bs[i].height > 0 && bs[i].height == bs[|bs| - 1].height - (|bs| - 1 - i))
    && (forall h :: h in blocks <==> exists i :: |bs| - c <= i < |bs| && bs[i].height == h)
    && (c > 0 ==> prevHeight == Some(bs[|bs| - 1].height))
  }

  /** Table `k` is as the chain `bs` of blocks over `base` left it, and the top `c` of them can be undone. */
  ghost predicate Tracks(n: Node, base: Rows, bs: seq<Block>, c: nat, k: Table)
  {
    && Part(n.rows, k) == Part(After(base, bs), k)
    && Window(n.blocks, n.prevHeight, bs, c)
    && (forall i :: |bs| - c <= i < |bs| ==> CachedAt(n.blocks, base, bs, i, k))
  }

  // ---- writes and logs see one table at a time ----

  lemma WriteAlike(r: Rows, s: Rows, d: ProcessedData, k: Table)
    requires Part(r, k) == Part(s, k)
    ensures Part(UndoLog.Write(r, d), k) == Part(UndoLog.Write(s, d), k)
  {
    hide Extend, SortKeys, TokenIdItems, OutPointItems;
  }

  lemma UndoneFromAlike(t: TokenTables, o: OrdinalTables, r: Rows, s: Rows, d: ProcessedData, k: Table)
    requires Part(r, k) == Part(s, k)
    ensures ContentOf(UndoneTokens(t, r.tokens, d), UndoneOrdinals(o, r.ordinals, d), k) ==
            ContentOf(UndoneTokens(t, s.tokens, d), UndoneOrdinals(o, s.ordinals, d), k)
  {
    hide Firsts, TokenIdItems, OutPointItems, Only, SpentBefore;
  }

  lemma {:induction false} BlockAlike(r: Rows, s: Rows, ds: seq<ProcessedData>, k: Table)
    requires Part(r, k) == Part(s, k)
    ensures Part(WriteAll(r, ds), k) == Part(WriteAll(s, ds), k)
    decreases |ds|
  {
    hide Part, UndoLog.Write;
    if ds != [] {
      BlockAlike(r, s, ds[..|ds| - 1], k);
      WriteAlike(WriteAll(r, ds[..|ds| - 1]), WriteAll(s, ds[..|ds| - 1]), ds[|ds| - 1], k);
    }
  }

  lemma {:induction false} LogAlike(t: TokenTables, o: OrdinalTables, r: Rows, s: Rows, ds: seq<ProcessedData>, k: Table)
    requires Part(r, k) == Part(s, k)
    ensures UndoLogOn(t, o, LogOf(r, ds), k) == UndoLogOn(t, o, LogOf(s, ds), k)
    decreases |ds|
  {
    hide UndoneTokens, UndoneOrdinals, UndoLogOn, ContentOf, UndoLog.Write, Part;
    if ds != [] {
      hide LogOf;
      var n := |ds| - 1;
      var init := ds[..n];
      var a, b := WriteAll(r, init), WriteAll(s, init);
      BlockAlike(r, s, init, k);
      UndoLast(t, o, r, ds, k);
      UndoLast(t, o, s, ds, k);
      UndoneFromAlike(t, o, a, b, ds[n], k);
      var t1, o1 := UndoneTokens(t, a.tokens, ds[n]), UndoneOrdinals(o, a.ordinals, ds[n]);
      var t2, o2 := UndoneTokens(t, b.tokens, ds[n]), UndoneOrdinals(o, b.ordinals, ds[n]);
      UndoAlike(t1, o1, t2, o2, r, init, k);
      LogAlike(t2, o2, r, s, init, k);
    }
  }

  // ---- popping ----

  lemma WindowLast(blocks: Blocks, prevHeight: Option<nat>, bs: seq<Block>, c: nat)
    requires Window(blocks, prevHeight, bs, c)
    ensures blocks == map[] <==> c == 0
    ensures c > 0 ==> Last(blocks.Keys) == bs[|bs| - 1].height && First(blocks.Keys) == bs[|bs| - c].height
  {
    if c > 0 {
      assert bs[|bs| - 1].height in blocks;
      assert bs[|bs| - c].height in blocks;
    } else if h :| h in blocks {
      assert false;
    }
  }

  /** Without the window's top block, and without a previous height to tie it to. */
  ghost predicate Cut(blocks: Blocks, bs: seq<Block>, c: nat)
  {
    Window(blocks, if c > 0 && bs != [] then Some(bs[|bs| - 1].height) else None, bs, c)
  }

  lemma PopWindow(blocks: Blocks, bs: seq<Block>, c: nat)
    requires Cut(blocks, bs, c) && c > 0
    ensures bs != [] && Cut(blocks - {bs[|bs| - 1].height}, bs[..|bs| - 1], c - 1)
  {
    var top := bs[|bs| - 1].height;
    var init := bs[..|bs| - 1];
    forall h | h in blocks - {top} ensures exists i :: |init| - (c - 1) <= i < |init| && init[i].height == h {
      var i :| |bs| - c <= i < |bs| && bs[i].height == h;
      assert init[i].height == h;
    }
    forall i | |init| - (c - 1) <= i < |init| ensures init[i].height in blocks - {top} {
      assert bs[i].height in blocks;
    }
  }

  /** Undoing the top block from its cached log gives table `k` back as it was before that block. */
  lemma PopTracks(r: Rows, blocks: Blocks, base: Rows, bs: seq<Block>, k: Table)
    requires bs != [] && Part(r, k) == Part(After(base, bs), k) && CachedAt(blocks, base, bs, |bs| - 1, k)
    ensures var top := bs[|bs| - 1];
            Part(RestoreBlock(r, top.height, blocks[top.height]), k) == Part(After(base, bs[..|bs| - 1]), k)
  {
    hide ContentOf, WriteAll, LogOf, UndoTokens, UndoOrdinals, Once, AllWritable, FreshAll;
    var n := |bs| - 1;
    var top := bs[n];
    var at := After(base, bs[..n]);
    var w := After(base, bs);
    BlockExactly(at, top.data, k);
    UndoAlike(r.tokens, r.ordinals, w.tokens, w.ordinals, at, top.data, k);
    assert UndoLogOn(r.tokens, r.ordinals, blocks[top.height], k) == UndoLogOn(r.tokens, r.ordinals, LogOf(at, top.data), k);
  }

  lemma CachedStays(blocks: Blocks, base: Rows, bs: seq<Block>, c: nat, i: nat, k: Table)
    requires Cut(blocks, bs, c) && |bs| - c <= i < |bs| - 1 && CachedAt(blocks, base, bs, i, k)
    ensures CachedAt(blocks - {bs[|bs| - 1].height}, base, bs[..|bs| - 1], i, k)
  {
    hide LogLike, LogOf, After, Once, AllWritable, FreshAll;
    assert bs[..|bs| - 1][..i] == bs[..i];
  }

  /** The blocks of the window above `height`. */
  function Above(bs: seq<Block>, c: nat, height: nat): nat
    requires c <= |bs|
  {
    if c == 0 || bs[|bs| - 1].height <= height then 0 else 1 + Above(bs[..|bs| - 1], c - 1, height)
  }

  lemma {:induction false} RestoreTracks(r: Rows, blocks: Blocks, base: Rows, bs: seq<Block>, c: nat, height: nat, k: Table)
    requires c <= |bs| && Part(r, k) == Part(After(base, bs), k) && Cut(blocks, bs, c)
    requires forall i :: |bs| - c <= i < |bs| ==> CachedAt(blocks, base, bs, i, k)
    ensures var (r', blocks') := Popped(r, blocks, height);
            var m := Above(bs, c, height);
            && m <= c && var kept := bs[..|bs| - m];
               && Part(r', k) == Part(After(base, kept), k) && Cut(blocks', kept, c - m)
               && (forall i :: |kept| - (c - m) <= i < |kept| ==> CachedAt(blocks', base, kept, i, k))
    decreases c
  {
    hide Part, After, CachedAt, RestoreBlock, LogLike, Window, LogOf, UndoLogOn;
    WindowLast(blocks, if c > 0 && bs != [] then Some(bs[|bs| - 1].height) else None, bs, c);
    assert bs[..|bs|] == bs;
    if c > 0 && bs[|bs| - 1].height > height {
      var n := |bs| - 1;
      var top := bs[n];
      PopWindow(blocks, bs, c);
      assert CachedAt(blocks, base, bs, n, k);
      PopTracks(r, blocks, base, bs, k);
      forall i | n - (c - 1) <= i < n ensures CachedAt(blocks - {top.height}, base, bs[..n], i, k) {
        CachedStays(blocks, base, bs, c, i, k);
      }
      RestoreTracks(RestoreBlock(r, top.height, blocks[top.height]), blocks - {top.height}, base, bs[..n], c - 1, height, k);
      var m := Above(bs[..n], c - 1, height);
      assert bs[..n][..n - m] == bs[..n - m];
    }
  }

  // ---- events ----

  /** The chain the consumer stands on, and how many of its top blocks are cached. */
  datatype Chain = Chain(blocks: seq<Block>, cached: nat)

  /** How many blocks an event really takes off: never more than are cached. */
  function Dropped(cached: nat, e: BlockEvent): nat
    requires REORG_CACHE_MAX_LEN <= e.tip
  {
    if !e.Cached() then 0 else if e.reorgLen <= cached then e.reorgLen else cached
  }

  function Kept(ch: Chain, e: BlockEvent): seq<Block>
    requires REORG_CACHE_MAX_LEN <= e.tip && ch.cached <= |ch.blocks|
  {
    ch.blocks[..|ch.blocks| - Dropped(ch.cached, e)]
  }

  function Extended(ch: Chain, e: BlockEvent): (r: Chain)
    requires REORG_CACHE_MAX_LEN <= e.tip && ch.cached <= |ch.blocks|
    ensures r.cached <= |r.blocks|
  {
    var left := if e.Cached() then ch.cached - Dropped(ch.cached, e) else 0;
    Chain(Kept(ch, e) + [Block(e.height, e.data)],
          if !e.Cached() then 0 else if left == REORG_CACHE_MAX_LEN then left else left + 1)
  }

  /** The event drops what its producer asked for exactly when that much is still cached. */
  lemma RollbackExactly(ch: Chain, e: BlockEvent)
    requires REORG_CACHE_MAX_LEN <= e.tip && ch.cached <= |ch.blocks| && e.reorgLen <= |ch.blocks|
    ensures Extended(ch, e).blocks == ch.blocks[..|ch.blocks| - e.reorgLen] + [Block(e.height, e.data)]
            <==> e.reorgLen == 0 || (e.Cached() && e.reorgLen <= ch.cached)
  {
    if Dropped(ch.cached, e) != e.reorgLen {
      assert |Extended(ch, e).blocks| != |ch.blocks[..|ch.blocks| - e.reorgLen] + [Block(e.height, e.data)]|;
    }
  }

  lemma {:induction false} AboveIs(bs: seq<Block>, c: nat, height: nat)
    requires c <= |bs|
    requires forall i :: |bs| - c <= i < |bs| ==> bs[i].height > 0 && bs[i].height == bs[|bs| - 1].height - (|bs| - 1 - i)
    ensures c > 0 ==> Above(bs, c, height) == (var over := bs[|bs| - 1].height - height; if over <= 0 then 0 else if over <= c then over else c)
    ensures c == 0 ==> Above(bs, c, height) == 0
    decreases c
  {
    if c > 0 {
      AboveIs(bs[..|bs| - 1], c - 1, height);
    }
  }

  lemma RestoresDropped(prevHeight: Option<nat>, blocks: Blocks, ch: Chain, e: BlockEvent)
    requires REORG_CACHE_MAX_LEN <= e.tip && e.Cached() && Window(blocks, prevHeight, ch.blocks, ch.cached)
    ensures Above(ch.blocks, ch.cached, RestoreHeight(prevHeight, e.reorgLen)) == Dropped(ch.cached, e)
  {
    AboveIs(ch.blocks, ch.cached, RestoreHeight(prevHeight, e.reorgLen));
    if ch.cached > 0 {
      assert ch.blocks[|ch.blocks| - ch.cached].height > 0;
    }
  }

  /** After the rollback. */
  ghost predicate Stands(r: Rows, blocks: Blocks, base: Rows, bs: seq<Block>, c: nat, k: Table)
  {
    && Part(r, k) == Part(After(base, bs), k) && Cut(blocks, bs, c)
    && (forall i :: |bs| - c <= i < |bs| ==> CachedAt(blocks, base, bs, i, k))
  }

  lemma RollTracks(n: Node, e: BlockEvent, base: Rows, ch: Chain, k: Table)
    requires REORG_CACHE_MAX_LEN <= e.tip && Tracks(n, base, ch.blocks, ch.cached, k)
    ensures var (r, blocks) := Rolled(n, e);
            Stands(r, blocks, base, Kept(ch, e), if e.Cached() then ch.cached - Dropped(ch.cached, e) else 0, k)
  {
    hide Part, After, CachedAt, Popped, Above, LogLike;
    assert ch.blocks[..|ch.blocks|] == ch.blocks;
    if e.Cached() && e.reorgLen > 0 {
      RestoreTracks(n.rows, n.blocks, base, ch.blocks, ch.cached, RestoreHeight(n.prevHeight, e.reorgLen), k);
      RestoresDropped(n.prevHeight, n.blocks, ch, e);
    } else if !e.Cached() && e.reorgLen > 0 {
      assert Popped(n.rows, map[], RestoreHeight(n.prevHeight, e.reorgLen)) == (n.rows, map[]) by {
        NothingPopped(n.rows, RestoreHeight(n.prevHeight, e.reorgLen));
      }
    }
  }

  lemma NothingPopped(r: Rows, height: nat)
    ensures Popped(r, map[], height) == (r, map[])
  {
  }

  /** What a block's data must meet on the chain it extends, for table `k`. */
  ghost predicate DataOk(base: Rows, bs: seq<Block>, data: seq<ProcessedData>, k: Table)
  {
    Once(data) && AllWritable(After(base, bs), data) && FreshAll(After(base, bs), data, k)
  }

  lemma PushWindow(blocks: Blocks, bs: seq<Block>, c: nat, b: Block, log: HistoryBlock)
    requires Cut(blocks, bs, c) && b.height > 0 && Follows(blocks, b.height)
    ensures Window(Opened(blocks, b.height)[b.height := log], Some(b.height), bs + [b], if c == REORG_CACHE_MAX_LEN then c else c + 1)
    ensures c == REORG_CACHE_MAX_LEN <==> |blocks| == REORG_CACHE_MAX_LEN
  {
    WindowLast(blocks, if c > 0 && bs != [] then Some(bs[|bs| - 1].height) else None, bs, c);
    WindowSize(blocks, bs, c);
    var bs' := bs + [b];
    var c' := if c == REORG_CACHE_MAX_LEN then c else c + 1;
    var blocks' := Opened(blocks, b.height)[b.height := log];
    forall i | |bs'| - c' <= i < |bs'| ensures bs'[i].height > 0 && bs'[i].height == b.height - (|bs'| - 1 - i) && bs'[i].height in blocks' {
      if i < |bs| {
        assert bs'[i] == bs[i] && bs[i].height in blocks;
      }
    }
    forall h | h in blocks' ensures exists i :: |bs'| - c' <= i < |bs'| && bs'[i].height == h {
      if h == b.height {
        assert bs'[|bs|].height == h;
      } else {
        var i :| |bs| - c <= i < |bs| && bs[i].height == h;
        assert bs'[i].height == h;
      }
    }
  }

  lemma {:induction false} WindowSize(blocks: Blocks, bs: seq<Block>, c: nat)
    requires Cut(blocks, bs, c)
    ensures |blocks| == c
    decreases c
  {
    WindowLast(blocks, if c > 0 && bs != [] then Some(bs[|bs| - 1].height) else None, bs, c);
    if c > 0 {
      PopWindow(blocks, bs, c);
      PopShrinks(blocks, bs[|bs| - 1].height);
      WindowSize(blocks - {bs[|bs| - 1].height}, bs[..|bs| - 1], c - 1);
    }
  }

  lemma CachedCarries(blocks: Blocks, base: Rows, bs: seq<Block>, c: nat, b: Block, log: HistoryBlock, i: nat, k: Table)
    requires Cut(blocks, bs, c) && Follows(blocks, b.height) && b.height > 0
    requires |bs| - (if c == REORG_CACHE_MAX_LEN then c - 1 else c) <= i < |bs| && CachedAt(blocks, base, bs, i, k)
    ensures CachedAt(Opened(blocks, b.height)[b.height := log], base, bs + [b], i, k)
  {
    hide LogLike, LogOf, After, Once, AllWritable, FreshAll;
    assert (bs + [b])[..i] == bs[..i] && (bs + [b])[i] == bs[i];
    WindowLast(blocks, if c > 0 && bs != [] then Some(bs[|bs| - 1].height) else None, bs, c);
    WindowSize(blocks, bs, c);
  }

  lemma NewCached(r: Rows, blocks: Blocks, base: Rows, bs: seq<Block>, b: Block, k: Table)
    requires Part(r, k) == Part(After(base, bs), k) && DataOk(base, bs, b.data, k)
    requires b.height in blocks && blocks[b.height] == LogOf(r, b.data)
    ensures CachedAt(blocks, base, bs + [b], |bs|, k)
    ensures Part(WriteAll(r, b.data), k) == Part(After(base, bs + [b]), k)
  {
    hide LogOf, WriteAll, Once, AllWritable, FreshAll, ContentOf, UndoLogOn;
    assert (bs + [b])[..|bs|] == bs && (bs + [b])[..|bs + [b]| - 1] == bs;
    BlockAlike(r, After(base, bs), b.data, k);
    forall t, o ensures UndoLogOn(t, o, LogOf(r, b.data), k) == UndoLogOn(t, o, LogOf(After(base, bs), b.data), k) {
      LogAlike(t, o, r, After(base, bs), b.data, k);
    }
  }

  /** The cache after a new block: its log on top of those still kept. */
  lemma TopCached(r: Rows, blocks: Blocks, base: Rows, bs: seq<Block>, c: nat, b: Block, k: Table)
    requires Stands(r, blocks, base, bs, c, k) && Follows(blocks, b.height) && b.height > 0 && DataOk(base, bs, b.data, k)
    ensures var blocks' := Opened(blocks, b.height)[b.height := LogOf(r, b.data)];
            var c' := if c == REORG_CACHE_MAX_LEN then c else c + 1;
            && Window(blocks', Some(b.height), bs + [b], c')
            && forall i :: |bs + [b]| - c' <= i < |bs + [b]| ==> CachedAt(blocks', base, bs + [b], i, k)
  {
    hide Part, After, CachedAt, Opened, LogOf, DataOk, Follows;
    var blocks' := Opened(blocks, b.height)[b.height := LogOf(r, b.data)];
    var c' := if c == REORG_CACHE_MAX_LEN then c else c + 1;
    PushWindow(blocks, bs, c, b, LogOf(r, b.data));
    forall i | |bs + [b]| - c' <= i < |bs + [b]| ensures CachedAt(blocks', base, bs + [b], i, k) {
      if i < |bs| {
        assert CachedAt(blocks, base, bs, i, k);
        CachedCarries(blocks, base, bs, c, b, LogOf(r, b.data), i, k);
      } else {
        NewCached(r, blocks', base, bs, b, k);
      }
    }
  }

  /** Every event the consumer accepts leaves table `k` as the surviving blocks and the new one make
      it, and keeps the top of the chain undoable. */
  lemma EventTracks(n: Node, e: BlockEvent, base: Rows, ch: Chain, k: Table)
    requires REORG_CACHE_MAX_LEN <= e.tip && Tracks(n, base, ch.blocks, ch.cached, k)
    requires Next(n, e).Some? && DataOk(base, Kept(ch, e), e.data, k)
    ensures Tracks(Next(n, e).value, base, Extended(ch, e).blocks, Extended(ch, e).cached, k)
  {
    hide Part, After, CachedAt, Popped, LogLike, Opened, LogOf, WriteAll, DataOk, Rolled, Follows, Kept;
    RollTracks(n, e, base, ch, k);
    var (r, blocks) := Rolled(n, e);
    var kept := Kept(ch, e);
    var b := Block(e.height, e.data);
    NewRows(r, base, kept, b, k);
    if e.Cached() {
      TopCached(r, blocks, base, kept, ch.cached - Dropped(ch.cached, e), b, k);
    }
  }

  lemma NewRows(r: Rows, base: Rows, bs: seq<Block>, b: Block, k: Table)
    requires Part(r, k) == Part(After(base, bs), k)
    ensures Part(WriteAll(r, b.data), k) == Part(After(base, bs + [b]), k)
  {
    hide Part, WriteAll;
    assert (bs + [b])[..|bs + [b]| - 1] == bs;
    BlockAlike(r, After(base, bs), b.data, k);
  }

  /** The consumer refuses an event exactly when blocks stay cached and the new one does not follow them. */
  lemma RefusesExactly(n: Node, e: BlockEvent, base: Rows, ch: Chain, k: Table)
    requires REORG_CACHE_MAX_LEN <= e.tip && Tracks(n, base, ch.blocks, ch.cached, k)
    ensures Next(n, e).None? <==>
            e.Cached() && Dropped(ch.cached, e) < ch.cached && Kept(ch, e)[|Kept(ch, e)| - 1].height + 1 != e.height
  {
    hide Part, After, CachedAt, Popped, LogLike, Opened, LogOf, WriteAll, Rolled, Kept;
    RollTracks(n, e, base, ch, k);
    var left := if e.Cached() then ch.cached - Dropped(ch.cached, e) else 0;
    var kept := Kept(ch, e);
    WindowLast(Rolled(n, e).1, if left > 0 && kept != [] then Some(kept[|kept| - 1].height) else None, kept, left);
  }

  /** Restoring everything, as the indexer does when it stops, leaves the chain below the cache. */
  lemma RestoreAllTracks(n: Node, base: Rows, bs: seq<Block>, c: nat, k: Table)
    requires Tracks(n, base, bs, c, k)
    ensures Part(Popped(n.rows, n.blocks, 0).0, k) == Part(After(base, bs[..|bs| - c]), k)
    ensures Popped(n.rows, n.blocks, 0).1 == map[]
  {
    hide Part, After, CachedAt, Popped, LogLike;
    RestoreTracks(n.rows, n.blocks, base, bs, c, 0, k);
    AboveIs(bs, c, 0);
    if c > 0 {
      assert bs[|bs| - c].height > 0;
      PoppedAll(n.rows, n.blocks, bs, c);
    } else {
      WindowLast(n.blocks, n.prevHeight, bs, c);
      NothingPopped(n.rows, 0);
    }
  }

  lemma PoppedAll(r: Rows, blocks: Blocks, bs: seq<Block>, c: nat)
    requires c <= |bs| && Cut(Popped(r, blocks, 0).1, bs[..|bs| - c], 0)
    ensures Popped(r, blocks, 0).1 == map[]
  {
    WindowLast(Popped(r, blocks, 0).1, None, bs[..|bs| - c], 0);
  }
}
