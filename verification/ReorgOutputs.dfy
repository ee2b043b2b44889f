/** Unspent outputs under rollbacks: event by event the table keeps every output the surviving blocks left
    unspent, with its value. */
module ReorgOutputs {
  import opened Base
  import opened UndoLog
  import opened UndoExact
  import opened UndoWindow
  import opened ReorgStore
  import opened Consumer
  import opened ReorgRuns

  type Outputs = map<OutPoint, TxPrevout>

  /** What each outpoint stands for: a transaction id fixes its outputs. */
  type Values = OutPoint -> TxPrevout

  ghost predicate Agrees(val: Values, m: Outputs)
  {
    forall o :: o in m ==> m[o] == val(o)
  }

  /** `p` holds all of `q`, and both hold only true values. */
  ghost predicate Over(p: Outputs, q: Outputs, val: Values)
  {
    Agrees(val, p) && Agrees(val, q) && q.Keys <= p.Keys
  }

  ghost predicate DataAgrees(val: Values, ds: seq<ProcessedData>)
  {
    forall i :: 0 <= i < |ds| && ds[i].PrevoutsData? ==> Agrees(val, ds[i].outputs)
  }

  /** Undoing `a` on the larger table stays over undoing `b` on the smaller one. */
  ghost predicate LogOver(a: HistoryBlock, b: HistoryBlock, val: Values)
  {
    forall p: OrdinalTables, q: OrdinalTables :: Over(p.prevouts, q.prevouts, val) ==>
      Over(UndoOrdinals(p, a.ordinalsHistory).prevouts, UndoOrdinals(q, b.ordinalsHistory).prevouts, val)
  }

  // ---- one block ----

  lemma WriteOver(r: OrdinalTables, s: OrdinalTables, d: ProcessedData, val: Values)
    requires Over(r.prevouts, s.prevouts, val) && (d.PrevoutsData? ==> Agrees(val, d.outputs))
    ensures Over(WriteOrdinals(r, d).prevouts, WriteOrdinals(s, d).prevouts, val)
  {
  }

  lemma UndoneOver(p: OrdinalTables, q: OrdinalTables, r: OrdinalTables, s: OrdinalTables, d: ProcessedData, val: Values)
    requires Over(p.prevouts, q.prevouts, val) && Over(r.prevouts, s.prevouts, val) && (d.PrevoutsData? ==> Agrees(val, d.outputs))
    ensures Over(UndoneOrdinals(p, r, d).prevouts, UndoneOrdinals(q, s, d).prevouts, val)
  {
  }

  lemma {:induction false} BlockOver(r: Rows, s: Rows, ds: seq<ProcessedData>, val: Values)
    requires Over(r.ordinals.prevouts, s.ordinals.prevouts, val) && DataAgrees(val, ds)
    ensures Over(WriteAll(r, ds).ordinals.prevouts, WriteAll(s, ds).ordinals.prevouts, val)
    decreases |ds|
  {
    hide Over, Agrees, WriteOrdinals, WriteTokens;
    if ds != [] {
      var n := |ds| - 1;
      BlockOver(r, s, ds[..n], val);
      WriteOver(WriteAll(r, ds[..n]).ordinals, WriteAll(s, ds[..n]).ordinals, ds[n], val);
    }
  }

  lemma {:induction false} UndoOver(p: OrdinalTables, q: OrdinalTables, r: Rows, s: Rows, ds: seq<ProcessedData>, val: Values)
    requires Over(p.prevouts, q.prevouts, val) && Over(r.ordinals.prevouts, s.ordinals.prevouts, val) && DataAgrees(val, ds)
    ensures Over(UndoOrdinals(p, LogOf(r, ds).ordinalsHistory).prevouts, UndoOrdinals(q, LogOf(s, ds).ordinalsHistory).prevouts, val)
    decreases |ds|
  {
    hide Over, Agrees, UndoneOrdinals, WriteAll, OrdinalEntries, UndoOrdinal;
    if ds != [] {
      var n := |ds| - 1;
      var d, init := ds[n], ds[..n];
      var a, b := WriteAll(r, init), WriteAll(s, init);
      BlockOver(r, s, init, val);
      UndoOrdinalsAppend(p, LogOf(r, init).ordinalsHistory, OrdinalEntries(a.ordinals, d));
      UndoOrdinalsAppend(q, LogOf(s, init).ordinalsHistory, OrdinalEntries(b.ordinals, d));
      UndoOrdinalEntries(p, a.ordinals, d);
      UndoOrdinalEntries(q, b.ordinals, d);
      UndoneOver(p, q, a.ordinals, b.ordinals, d, val);
      UndoOver(UndoneOrdinals(p, a.ordinals, d), UndoneOrdinals(q, b.ordinals, d), r, s, init, val);
    }
  }

  lemma LogsOver(r: Rows, s: Rows, ds: seq<ProcessedData>, val: Values)
    requires Over(r.ordinals.prevouts, s.ordinals.prevouts, val) && DataAgrees(val, ds)
    ensures LogOver(LogOf(r, ds), LogOf(s, ds), val)
  {
    hide Over, LogOf, UndoOrdinals, DataAgrees;
    forall p: OrdinalTables, q: OrdinalTables | Over(p.prevouts, q.prevouts, val)
      ensures Over(UndoOrdinals(p, LogOf(r, ds).ordinalsHistory).prevouts, UndoOrdinals(q, LogOf(s, ds).ordinalsHistory).prevouts, val) {
      UndoOver(p, q, r, s, ds, val);
    }
  }

  // ---- the window ----

  ghost predicate OutputsCachedAt(blocks: Blocks, base: Rows, bs: seq<Block>, i: nat, val: Values)
    requires i < |bs|
  {
    && bs[i].height in blocks && LogOver(blocks[bs[i].height], LogOf(After(base, bs[..i]), bs[i].data), val)
    && Once(bs[i].data) && AllWritable(After(base, bs[..i]), bs[i].data)
    && Agrees(val, After(base, bs[..i]).ordinals.prevouts)
  }

  ghost predicate TracksOutputs(n: Node, base: Rows, bs: seq<Block>, c: nat, val: Values)
  {
    && Over(n.rows.ordinals.prevouts, After(base, bs).ordinals.prevouts, val)
    && Window(n.blocks, n.prevHeight, bs, c)
    && (forall i :: |bs| - c <= i < |bs| ==> OutputsCachedAt(n.blocks, base, bs, i, val))
  }

  /** Undoing the top block keeps the table over what was there before that block. */
  lemma PopOutputs(r: Rows, blocks: Blocks, base: Rows, bs: seq<Block>, val: Values)
    requires bs != [] && Over(r.ordinals.prevouts, After(base, bs).ordinals.prevouts, val) && OutputsCachedAt(blocks, base, bs, |bs| - 1, val)
    ensures var top := bs[|bs| - 1];
            Over(RestoreBlock(r, top.height, blocks[top.height]).ordinals.prevouts, After(base, bs[..|bs| - 1]).ordinals.prevouts, val)
  {
    hide WriteAll, LogOf, UndoTokens, UndoOrdinals, Once, AllWritable, OverwritesAll, Stored;
    var n := |bs| - 1;
    var top := bs[n];
    var at := After(base, bs[..n]);
    var w := After(base, bs);
    BlockCovers(at, top.data);
    assert Over(UndoOrdinals(r.ordinals, blocks[top.height].ordinalsHistory).prevouts,
                UndoOrdinals(w.ordinals, LogOf(at, top.data).ordinalsHistory).prevouts, val);
  }

  lemma OutputsStay(blocks: Blocks, base: Rows, bs: seq<Block>, c: nat, i: nat, val: Values)
    requires Cut(blocks, bs, c) && |bs| - c <= i < |bs| - 1 && OutputsCachedAt(blocks, base, bs, i, val)
    ensures OutputsCachedAt(blocks - {bs[|bs| - 1].height}, base, bs[..|bs| - 1], i, val)
  {
    hide LogOver, LogOf, After, Once, AllWritable, Agrees;
    assert bs[..|bs| - 1][..i] == bs[..i];
  }

  lemma {:induction false} RestoreOutputs(r: Rows, blocks: Blocks, base: Rows, bs: seq<Block>, c: nat, height: nat, val: Values)
    requires c <= |bs| && Over(r.ordinals.prevouts, After(base, bs).ordinals.prevouts, val) && Cut(blocks, bs, c)
    requires forall i :: |bs| - c <= i < |bs| ==> OutputsCachedAt(blocks, base, bs, i, val)
    ensures var (r', blocks') := Popped(r, blocks, height);
            var m := Above(bs, c, height);
            && m <= c && var kept := bs[..|bs| - m];
               && Over(r'.ordinals.prevouts, After(base, kept).ordinals.prevouts, val) && Cut(blocks', kept, c - m)
               && (forall i :: |kept| - (c - m) <= i < |kept| ==> OutputsCachedAt(blocks', base, kept, i, val))
    decreases c
  {
    hide Over, After, OutputsCachedAt, RestoreBlock, LogOver, Window, LogOf;
    WindowLast(blocks, if c > 0 && bs != [] then Some(bs[|bs| - 1].height) else None, bs, c);
    assert bs[..|bs|] == bs;
    if c > 0 && bs[|bs| - 1].height > height {
      var n := |bs| - 1;
      var top := bs[n];
      PopWindow(blocks, bs, c);
      assert OutputsCachedAt(blocks, base, bs, n, val);
      PopOutputs(r, blocks, base, bs, val);
      forall i | n - (c - 1) <= i < n ensures OutputsCachedAt(blocks - {top.height}, base, bs[..n], i, val) {
        OutputsStay(blocks, base, bs, c, i, val);
      }
      RestoreOutputs(RestoreBlock(r, top.height, blocks[top.height]), blocks - {top.height}, base, bs[..n], c - 1, height, val);
      var m := Above(bs[..n], c - 1, height);
      assert bs[..n][..n - m] == bs[..n - m];
    }
  }

  // ---- events ----

  ghost predicate OutputsStand(r: Rows, blocks: Blocks, base: Rows, bs: seq<Block>, c: nat, val: Values)
  {
    && Over(r.ordinals.prevouts, After(base, bs).ordinals.prevouts, val) && Cut(blocks, bs, c)
    && (forall i :: |bs| - c <= i < |bs| ==> OutputsCachedAt(blocks, base, bs, i, val))
  }

  lemma RollOutputs(n: Node, e: BlockEvent, base: Rows, ch: Chain, val: Values)
    requires REORG_CACHE_MAX_LEN <= e.tip && TracksOutputs(n, base, ch.blocks, ch.cached, val)
    ensures var (r, blocks) := Rolled(n, e);
            OutputsStand(r, blocks, base, Kept(ch, e), if e.Cached() then ch.cached - Dropped(ch.cached, e) else 0, val)
  {
    hide Over, After, OutputsCachedAt, Popped, Above, LogOver;
    assert ch.blocks[..|ch.blocks|] == ch.blocks;
    if e.Cached() && e.reorgLen > 0 {
      RestoreOutputs(n.rows, n.blocks, base, ch.blocks, ch.cached, RestoreHeight(n.prevHeight, e.reorgLen), val);
      RestoresDropped(n.prevHeight, n.blocks, ch, e);
    } else if !e.Cached() && e.reorgLen > 0 {
      NothingPopped(n.rows, RestoreHeight(n.prevHeight, e.reorgLen));
    }
  }

  /** What a block must meet on the chain it extends: one write of a kind, inputs found, true values. */
  ghost predicate OutputsOk(base: Rows, bs: seq<Block>, data: seq<ProcessedData>, val: Values)
  {
    Once(data) && AllWritable(After(base, bs), data) && DataAgrees(val, data)
  }

  lemma OutputsCarry(blocks: Blocks, base: Rows, bs: seq<Block>, c: nat, b: Block, log: HistoryBlock, i: nat, val: Values)
    requires Cut(blocks, bs, c) && Follows(blocks, b.height) && b.height > 0
    requires |bs| - (if c == REORG_CACHE_MAX_LEN then c - 1 else c) <= i < |bs| && OutputsCachedAt(blocks, base, bs, i, val)
    ensures OutputsCachedAt(Opened(blocks, b.height)[b.height := log], base, bs + [b], i, val)
  {
    hide LogOver, LogOf, After, Once, AllWritable, Agrees;
    assert (bs + [b])[..i] == bs[..i] && (bs + [b])[i] == bs[i];
    WindowLast(blocks, if c > 0 && bs != [] then Some(bs[|bs| - 1].height) else None, bs, c);
    WindowSize(blocks, bs, c);
  }

  lemma NewOutputs(r: Rows, base: Rows, bs: seq<Block>, b: Block, val: Values)
    requires Over(r.ordinals.prevouts, After(base, bs).ordinals.prevouts, val) && DataAgrees(val, b.data)
    ensures Over(WriteAll(r, b.data).ordinals.prevouts, After(base, bs + [b]).ordinals.prevouts, val)
  {
    hide WriteAll, Over, DataAgrees;
    assert (bs + [b])[..|bs + [b]| - 1] == bs;
    BlockOver(r, After(base, bs), b.data, val);
  }

  lemma NewOutputsCached(r: Rows, blocks: Blocks, base: Rows, bs: seq<Block>, b: Block, val: Values)
    requires Over(r.ordinals.prevouts, After(base, bs).ordinals.prevouts, val) && OutputsOk(base, bs, b.data, val)
    requires b.height in blocks && blocks[b.height] == LogOf(r, b.data)
    ensures OutputsCachedAt(blocks, base, bs + [b], |bs|, val)
  {
    hide LogOf, WriteAll, Once, AllWritable, LogOver, DataAgrees;
    assert (bs + [b])[..|bs|] == bs;
    LogsOver(r, After(base, bs), b.data, val);
  }

  lemma EventOutputs(n: Node, e: BlockEvent, base: Rows, ch: Chain, val: Values)
    requires REORG_CACHE_MAX_LEN <= e.tip && TracksOutputs(n, base, ch.blocks, ch.cached, val)
    requires Next(n, e).Some? && OutputsOk(base, Kept(ch, e), e.data, val)
    ensures TracksOutputs(Next(n, e).value, base, Extended(ch, e).blocks, Extended(ch, e).cached, val)
  {
    hide Over, After, OutputsCachedAt, Popped, LogOver, Opened, LogOf, WriteAll, Rolled, Follows, Kept, Once, AllWritable;
    RollOutputs(n, e, base, ch, val);
    var (r, blocks) := Rolled(n, e);
    var kept := Kept(ch, e);
    var b := Block(e.height, e.data);
    var left := if e.Cached() then ch.cached - Dropped(ch.cached, e) else 0;
    var n' := Next(n, e).value;
    NewOutputs(r, base, kept, b, val);
    if e.Cached() {
      PushWindow(blocks, kept, left, b, LogOf(r, e.data));
      forall i | |kept + [b]| - Extended(ch, e).cached <= i < |kept + [b]| ensures OutputsCachedAt(n'.blocks, base, kept + [b], i, val) {
        if i < |kept| {
          assert OutputsCachedAt(blocks, base, kept, i, val);
          OutputsCarry(blocks, base, kept, left, b, LogOf(r, e.data), i, val);
        } else {
          NewOutputsCached(r, n'.blocks, base, kept, b, val);
        }
      }
    }
  }

  /** Restoring everything keeps the outputs over those of the chain below the cache. */
  lemma RestoreAllOutputs(n: Node, base: Rows, bs: seq<Block>, c: nat, val: Values)
    requires TracksOutputs(n, base, bs, c, val)
    ensures c <= |bs| && Over(Popped(n.rows, n.blocks, 0).0.ordinals.prevouts, After(base, bs[..|bs| - c]).ordinals.prevouts, val)
  {
    hide Over, After, OutputsCachedAt, Popped, LogOver;
    RestoreOutputs(n.rows, n.blocks, base, bs, c, 0, val);
    AboveIs(bs, c, 0);
    if c > 0 {
      assert bs[|bs| - c].height > 0;
    }
  }
}
