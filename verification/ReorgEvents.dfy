/** The event index under rollbacks: a restore takes away every entry an undone block filed, also one it
    had only written over, so event by event the index is that of the surviving blocks less some outputs. */
module ReorgEvents {
  import opened Base
  import opened Ledger
  import opened HistoryIds
  import opened UndoLog
  import opened UndoExact
  import opened UndoWindow
  import opened ReorgStore
  import opened Consumer
  import opened ReorgRuns

  function IndexedIn(d: ProcessedData): set<OutPoint>
  {
    if d.HistoryData? then Firsts(OutPointItems(d.history)) else {}
  }

  /** The outputs a block files events under. */
  function IndexedBy(ds: seq<ProcessedData>): set<OutPoint>
  {
    if ds == [] then {} else IndexedBy(ds[..|ds| - 1]) + IndexedIn(ds[|ds| - 1])
  }

  /** The index of `r` is that of `s` without `lost`. */
  ghost predicate Lacks(r: Rows, s: Rows, lost: set<OutPoint>)
  {
    r.tokens.outpointToEvent == s.tokens.outpointToEvent - lost
  }

  /** Undoing the log takes the entries of these outputs away, and nothing else of the index. */
  ghost predicate Unfiles(log: HistoryBlock, outs: set<OutPoint>)
  {
    forall t: TokenTables :: UndoTokens(t, log.tokenHistory).outpointToEvent == t.outpointToEvent - outs
  }

  // ---- one block ----

  lemma {:induction false} LogUnfiles(r: Rows, ds: seq<ProcessedData>)
    ensures Unfiles(LogOf(r, ds), IndexedBy(ds))
    decreases |ds|
  {
    hide WriteAll, TokenEntries, UndoToken, OrdinalEntries;
    if ds != [] {
      var n := |ds| - 1;
      var init, at := LogOf(r, ds[..n]), WriteAll(r, ds[..n]);
      LogUnfiles(r, ds[..n]);
      forall t: TokenTables ensures UndoTokens(t, LogOf(r, ds).tokenHistory).outpointToEvent == t.outpointToEvent - IndexedBy(ds) {
        UndoTokensAppend(t, init.tokenHistory, TokenEntries(at.tokens, ds[n]));
        UndoTokenEntries(t, at.tokens, ds[n]);
        OneUnfiles(t, at.tokens, ds[n]);
      }
    }
  }

  lemma OneUnfiles(t: TokenTables, before: TokenTables, d: ProcessedData)
    ensures UndoneTokens(t, before, d).outpointToEvent == t.outpointToEvent - IndexedIn(d)
  {
    hide Firsts, OutPointItems, Only;
  }

  lemma {:induction false} ExtendWithout<K, V>(m: map<K, V>, lost: set<K>, items: seq<(K, V)>)
    ensures Extend(m - lost, items) == Extend(m, items) - (lost - Firsts(items))
    decreases |items|
  {
    if items != [] {
      var n := |items| - 1;
      ExtendWithout(m, lost, items[..n]);
      assert Firsts(items) == Firsts(items[..n]) + {items[n].0};
    }
  }

  lemma OneWrite(r: Rows, s: Rows, d: ProcessedData, lost: set<OutPoint>)
    requires Lacks(r, s, lost)
    ensures Lacks(UndoLog.Write(r, d), UndoLog.Write(s, d), lost - IndexedIn(d))
    ensures UndoLog.Write(s, d).tokens.outpointToEvent - IndexedIn(d) == s.tokens.outpointToEvent - IndexedIn(d)
  {
    hide Extend, Firsts, OutPointItems, TokenIdItems, SortKeys, WriteOrdinals;
    if d.HistoryData? {
      ExtendWithout(s.tokens.outpointToEvent, lost, OutPointItems(d.history));
      ExtendOutside(s.tokens.outpointToEvent, OutPointItems(d.history));
    }
  }

  /** A block gives an entry back to each output it files under, and to no other. */
  lemma {:induction false} BlockWrites(r: Rows, s: Rows, ds: seq<ProcessedData>, lost: set<OutPoint>)
    requires Lacks(r, s, lost)
    ensures Lacks(WriteAll(r, ds), WriteAll(s, ds), lost - IndexedBy(ds))
    decreases |ds|
  {
    hide UndoLog.Write, IndexedIn;
    if ds == [] {
      assert lost - IndexedBy(ds) == lost;
    } else {
      hide Lacks;
      var n := |ds| - 1;
      BlockWrites(r, s, ds[..n], lost);
      OneWrite(WriteAll(r, ds[..n]), WriteAll(s, ds[..n]), ds[n], lost - IndexedBy(ds[..n]));
      assert lost - IndexedBy(ds[..n]) - IndexedIn(ds[n]) == lost - IndexedBy(ds);
    }
  }

  lemma {:induction false} BlockOutside(r: Rows, ds: seq<ProcessedData>)
    ensures WriteAll(r, ds).tokens.outpointToEvent - IndexedBy(ds) == r.tokens.outpointToEvent - IndexedBy(ds)
    decreases |ds|
  {
    hide UndoLog.Write, IndexedIn;
    if ds != [] {
      var n := |ds| - 1;
      BlockOutside(r, ds[..n]);
      var at := WriteAll(r, ds[..n]);
      OneWrite(at, at, ds[n], {});
      OutsideBoth(r.tokens.outpointToEvent, at.tokens.outpointToEvent, UndoLog.Write(at, ds[n]).tokens.outpointToEvent, IndexedBy(ds[..n]), IndexedIn(ds[n]));
    }
  }

  lemma LessTwice<K, V>(m: map<K, V>, a: set<K>, b: set<K>)
    ensures m - a - b == m - (a + b)
  {
  }

  lemma OutsideBoth<K, V>(m: map<K, V>, m1: map<K, V>, m2: map<K, V>, a: set<K>, b: set<K>)
    requires m1 - a == m - a && m2 - b == m1 - b
    ensures m2 - (a + b) == m - (a + b)
  {
    LessTwice(m2, b, a);
    LessTwice(m1, b, a);
    LessTwice(m1, a, b);
    LessTwice(m, a, b);
    assert b + a == a + b;
  }

  // ---- the window ----

  ghost predicate EventsCachedAt(blocks: Blocks, bs: seq<Block>, i: nat)
    requires i < |bs|
  {
    bs[i].height in blocks && Unfiles(blocks[bs[i].height], IndexedBy(bs[i].data))
  }

  /** The index is that of the chain less `lost`, and the cached logs take away what their blocks filed. */
  ghost predicate TracksEvents(n: Node, base: Rows, bs: seq<Block>, c: nat, lost: set<OutPoint>)
  {
    && Lacks(n.rows, After(base, bs), lost)
    && Window(n.blocks, n.prevHeight, bs, c)
    && (forall i :: |bs| - c <= i < |bs| ==> EventsCachedAt(n.blocks, bs, i))
  }

  lemma Unfiled(r: Rows, w: Rows, log: HistoryBlock, height: nat, lost: set<OutPoint>, filed: set<OutPoint>)
    requires Lacks(r, w, lost) && Unfiles(log, filed)
    ensures RestoreBlock(r, height, log).tokens.outpointToEvent == w.tokens.outpointToEvent - (lost + filed)
  {
    hide UndoTokens, UndoOrdinals;
    assert UndoTokens(r.tokens, log.tokenHistory).outpointToEvent == r.tokens.outpointToEvent - filed;
    LessTwice(w.tokens.outpointToEvent, lost, filed);
  }

  lemma OnePopped(r: Rows, at: Rows, ds: seq<ProcessedData>, log: HistoryBlock, height: nat, lost: set<OutPoint>)
    requires Lacks(r, WriteAll(at, ds), lost) && Unfiles(log, IndexedBy(ds))
    ensures Lacks(RestoreBlock(r, height, log), at, lost + IndexedBy(ds))
  {
    hide WriteAll, RestoreBlock, IndexedBy, Unfiles;
    var w := WriteAll(at, ds);
    BlockOutside(at, ds);
    OutsideBoth(at.tokens.outpointToEvent, w.tokens.outpointToEvent, w.tokens.outpointToEvent, IndexedBy(ds), lost);
    assert IndexedBy(ds) + lost == lost + IndexedBy(ds);
    Unfiled(r, w, log, height, lost, IndexedBy(ds));
  }

  lemma PopEvents(r: Rows, blocks: Blocks, base: Rows, bs: seq<Block>, lost: set<OutPoint>)
    requires bs != [] && Lacks(r, After(base, bs), lost) && EventsCachedAt(blocks, bs, |bs| - 1)
    ensures var top := bs[|bs| - 1];
            Lacks(RestoreBlock(r, top.height, blocks[top.height]), After(base, bs[..|bs| - 1]), lost + IndexedBy(top.data))
  {
    hide WriteAll, RestoreBlock, IndexedBy, Unfiles, Lacks;
    var top := bs[|bs| - 1];
    OnePopped(r, After(base, bs[..|bs| - 1]), top.data, blocks[top.height], top.height, lost);
  }

  lemma EventsStay(blocks: Blocks, bs: seq<Block>, c: nat, i: nat)
    requires Cut(blocks, bs, c) && |bs| - c <= i < |bs| - 1 && EventsCachedAt(blocks, bs, i)
    ensures EventsCachedAt(blocks - {bs[|bs| - 1].height}, bs[..|bs| - 1], i)
  {
    hide Unfiles, IndexedBy;
  }

  /** What the blocks from `j` on filed under. */
  function IndexedFrom(bs: seq<Block>, j: nat): set<OutPoint>
    requires j <= |bs|
    decreases |bs|
  {
    if |bs| == j then {} else IndexedFrom(bs[..|bs| - 1], j) + IndexedBy(bs[|bs| - 1].data)
  }

  lemma {:induction false} RestoreEvents(r: Rows, blocks: Blocks, base: Rows, bs: seq<Block>, c: nat, height: nat, lost: set<OutPoint>)
    requires c <= |bs| && Lacks(r, After(base, bs), lost) && Cut(blocks, bs, c)
    requires forall i :: |bs| - c <= i < |bs| ==> EventsCachedAt(blocks, bs, i)
    ensures var (r', blocks') := Popped(r, blocks, height);
            var m := Above(bs, c, height);
            && m <= c && var kept := bs[..|bs| - m];
               && Lacks(r', After(base, kept), lost + IndexedFrom(bs, |kept|)) && Cut(blocks', kept, c - m)
               && (forall i :: |kept| - (c - m) <= i < |kept| ==> EventsCachedAt(blocks', kept, i))
    decreases c
  {
    hide After, EventsCachedAt, RestoreBlock, Unfiles, Window, IndexedBy, Lacks;
    WindowLast(blocks, if c > 0 && bs != [] then Some(bs[|bs| - 1].height) else None, bs, c);
    assert bs[..|bs|] == bs;
    if c > 0 && bs[|bs| - 1].height > height {
      var n := |bs| - 1;
      var top := bs[n];
      PopWindow(blocks, bs, c);
      assert EventsCachedAt(blocks, bs, n);
      PopEvents(r, blocks, base, bs, lost);
      forall i | n - (c - 1) <= i < n ensures EventsCachedAt(blocks - {top.height}, bs[..n], i) {
        EventsStay(blocks, bs, c, i);
      }
      RestoreEvents(RestoreBlock(r, top.height, blocks[top.height]), blocks - {top.height}, base, bs[..n], c - 1, height, lost + IndexedBy(top.data));
      var m := Above(bs[..n], c - 1, height);
      assert bs[..n][..n - m] == bs[..n - m];
      assert lost + IndexedBy(top.data) + IndexedFrom(bs[..n], n - m) == lost + IndexedFrom(bs, n - m);
    } else {
      assert lost + IndexedFrom(bs, |bs|) == lost;
    }
  }

  // ---- events ----

  ghost predicate EventsStand(r: Rows, blocks: Blocks, base: Rows, bs: seq<Block>, c: nat, lost: set<OutPoint>)
  {
    && Lacks(r, After(base, bs), lost) && Cut(blocks, bs, c)
    && (forall i :: |bs| - c <= i < |bs| ==> EventsCachedAt(blocks, bs, i))
  }

  /** What the blocks an event drops filed under. */
  function IndexedDropped(ch: Chain, e: BlockEvent): set<OutPoint>
    requires REORG_CACHE_MAX_LEN <= e.tip && ch.cached <= |ch.blocks|
  {
    IndexedFrom(ch.blocks, |Kept(ch, e)|)
  }

  lemma WindowCut(blocks: Blocks, prevHeight: Option<nat>, bs: seq<Block>, c: nat)
    requires Window(blocks, prevHeight, bs, c)
    ensures c <= |bs| && Cut(blocks, bs, c) && Cut(map[], bs, 0)
  {
  }

  /** A rollback loses what the dropped blocks filed under. */
  lemma RollEvents(n: Node, e: BlockEvent, base: Rows, ch: Chain, lost: set<OutPoint>)
    requires REORG_CACHE_MAX_LEN <= e.tip && TracksEvents(n, base, ch.blocks, ch.cached, lost)
    ensures var (r, blocks) := Rolled(n, e);
            EventsStand(r, blocks, base, Kept(ch, e), if e.Cached() then ch.cached - Dropped(ch.cached, e) else 0,
                        lost + IndexedDropped(ch, e))
  {
    hide After, EventsCachedAt, Popped, Above, IndexedBy, Lacks, Window, Cut;
    WindowCut(n.blocks, n.prevHeight, ch.blocks, ch.cached);
    assert ch.blocks[..|ch.blocks|] == ch.blocks && lost + IndexedFrom(ch.blocks, |ch.blocks|) == lost;
    if e.Cached() && e.reorgLen > 0 {
      RestoreEvents(n.rows, n.blocks, base, ch.blocks, ch.cached, RestoreHeight(n.prevHeight, e.reorgLen), lost);
      RestoresDropped(n.prevHeight, n.blocks, ch, e);
    } else if !e.Cached() && e.reorgLen > 0 {
      NothingPopped(n.rows, RestoreHeight(n.prevHeight, e.reorgLen));
    }
  }

  lemma EventsCarry(blocks: Blocks, bs: seq<Block>, c: nat, b: Block, log: HistoryBlock, i: nat)
    requires Cut(blocks, bs, c) && Follows(blocks, b.height) && b.height > 0
    requires |bs| - (if c == REORG_CACHE_MAX_LEN then c - 1 else c) <= i < |bs| && EventsCachedAt(blocks, bs, i)
    ensures EventsCachedAt(Opened(blocks, b.height)[b.height := log], bs + [b], i)
  {
    hide Unfiles, IndexedBy;
    assert (bs + [b])[i] == bs[i];
    WindowLast(blocks, if c > 0 && bs != [] then Some(bs[|bs| - 1].height) else None, bs, c);
    WindowSize(blocks, bs, c);
  }

  lemma NewEvents(r: Rows, base: Rows, bs: seq<Block>, b: Block, lost: set<OutPoint>)
    requires Lacks(r, After(base, bs), lost)
    ensures Lacks(WriteAll(r, b.data), After(base, bs + [b]), lost - IndexedBy(b.data))
  {
    hide WriteAll, IndexedBy, Lacks;
    assert (bs + [b])[..|bs + [b]| - 1] == bs;
    BlockWrites(r, After(base, bs), b.data, lost);
  }

  lemma TopEvents(r: Rows, blocks: Blocks, base: Rows, bs: seq<Block>, c: nat, b: Block, lost: set<OutPoint>)
    requires EventsStand(r, blocks, base, bs, c, lost) && Follows(blocks, b.height) && b.height > 0
    ensures var blocks' := Opened(blocks, b.height)[b.height := LogOf(r, b.data)];
            var c' := if c == REORG_CACHE_MAX_LEN then c else c + 1;
            && Window(blocks', Some(b.height), bs + [b], c')
            && forall i :: |bs + [b]| - c' <= i < |bs + [b]| ==> EventsCachedAt(blocks', bs + [b], i)
  {
    hide Lacks, EventsCachedAt, Opened, LogOf, Follows;
    var blocks' := Opened(blocks, b.height)[b.height := LogOf(r, b.data)];
    var c' := if c == REORG_CACHE_MAX_LEN then c else c + 1;
    PushWindow(blocks, bs, c, b, LogOf(r, b.data));
    forall i | |bs + [b]| - c' <= i < |bs + [b]| ensures EventsCachedAt(blocks', bs + [b], i) {
      if i < |bs| {
        assert EventsCachedAt(blocks, bs, i);
        EventsCarry(blocks, bs, c, b, LogOf(r, b.data), i);
      } else {
        NewEventsCached(r, blocks', bs, b);
      }
    }
  }

  /** An accepted event loses what the dropped blocks filed under, except where its block files again. */
  lemma EventEvents(n: Node, e: BlockEvent, base: Rows, ch: Chain, lost: set<OutPoint>)
    requires REORG_CACHE_MAX_LEN <= e.tip && TracksEvents(n, base, ch.blocks, ch.cached, lost) && Next(n, e).Some?
    ensures TracksEvents(Next(n, e).value, base, Extended(ch, e).blocks, Extended(ch, e).cached,
                         lost + IndexedDropped(ch, e) - IndexedBy(e.data))
  {
    hide After, EventsCachedAt, Popped, Opened, LogOf, WriteAll, Rolled, Kept, IndexedBy, IndexedDropped, Lacks, Follows;
    RollEvents(n, e, base, ch, lost);
    var (r, blocks) := Rolled(n, e);
    var kept := Kept(ch, e);
    var b := Block(e.height, e.data);
    var left := if e.Cached() then ch.cached - Dropped(ch.cached, e) else 0;
    NewEvents(r, base, kept, b, lost + IndexedDropped(ch, e));
    if e.Cached() {
      TopEvents(r, blocks, base, kept, left, b, lost + IndexedDropped(ch, e));
    }
  }

  lemma NewEventsCached(r: Rows, blocks: Blocks, bs: seq<Block>, b: Block)
    requires b.height in blocks && blocks[b.height] == LogOf(r, b.data)
    ensures EventsCachedAt(blocks, bs + [b], |bs|)
  {
    hide Unfiles, LogOf;
    LogUnfiles(r, b.data);
  }

  /** Restoring everything loses what all cached blocks filed under. */
  lemma RestoreAllEvents(n: Node, base: Rows, bs: seq<Block>, c: nat, lost: set<OutPoint>)
    requires TracksEvents(n, base, bs, c, lost)
    ensures TracksEvents(Node(Popped(n.rows, n.blocks, 0).0, map[], None), base, bs[..|bs| - c], 0, lost + IndexedFrom(bs, |bs| - c))
  {
    hide Lacks, After, EventsCachedAt, Popped;
    RestoreEvents(n.rows, n.blocks, base, bs, c, 0, lost);
    AboveIs(bs, c, 0);
    if c > 0 {
      assert bs[|bs| - c].height > 0;
    }
  }
}
