/** Restoring over several blocks: what the cached window gives back at every height in it. */
module UndoWindow {
  import opened Base
  import opened HistoryIds
  import opened UndoLog
  import opened UndoExact

  // ---- a chain of blocks and the restore over its top ----

  function After(base: Rows, bs: seq<Block>): Rows
  {
    if bs == [] then base else WriteAll(After(base, bs[..|bs| - 1]), bs[|bs| - 1].data)
  }

  function LastLog(base: Rows, bs: seq<Block>): HistoryBlock
    requires bs != []
  {
    LogOf(After(base, bs[..|bs| - 1]), bs[|bs| - 1].data)
  }

  /** Tables `r` after the restore loop took the blocks from `j` on off the chain `bs`. */
  function Restored(r: Rows, base: Rows, bs: seq<Block>, j: nat): Rows
    requires j <= |bs|
    decreases |bs|
  {
    if |bs| == j then r
    else Restored(RestoreBlock(r, bs[|bs| - 1].height, LastLog(base, bs)), base, bs[..|bs| - 1], j)
  }

  /** Blocks from `m` on are well formed: one write of a kind, and each finds what it expects. */
  ghost predicate WellFormed(base: Rows, bs: seq<Block>, m: nat)
  {
    forall i :: m <= i < |bs| ==> Once(bs[i].data) && AllWritable(After(base, bs[..i]), bs[i].data)
  }

  ghost predicate FreshAt(base: Rows, bs: seq<Block>, i: nat, k: Table)
    requires i < |bs|
  {
    FreshAll(After(base, bs[..i]), bs[i].data, k)
  }

  ghost predicate RestoresAt(r: Rows, base: Rows, bs: seq<Block>, j: nat, k: Table)
    requires j <= |bs|
  {
    Part(Restored(r, base, bs, j), k) == Part(After(base, bs[..j]), k)
  }

  lemma {:induction false} RestoredAlike(r: Rows, s: Rows, base: Rows, bs: seq<Block>, j: nat, k: Table)
    requires j <= |bs| && Part(r, k) == Part(s, k)
    ensures Part(Restored(r, base, bs, j), k) == Part(Restored(s, base, bs, j), k)
    decreases |bs|
  {
    if j < |bs| {
      hide ContentOf, LogOf, UndoTokens, UndoOrdinals;
      var n := |bs| - 1;
      UndoAlike(r.tokens, r.ordinals, s.tokens, s.ordinals, After(base, bs[..n]), bs[n].data, k);
      RestoredAlike(RestoreBlock(r, bs[n].height, LastLog(base, bs)), RestoreBlock(s, bs[n].height, LastLog(base, bs)), base, bs[..n], j, k);
    }
  }

  lemma PrefixOfInit(bs: seq<Block>, i: nat)
    requires i < |bs|
    ensures bs[..|bs| - 1][..i] == bs[..i]
  {
  }

  lemma InitWellFormed(base: Rows, bs: seq<Block>, m: nat)
    requires bs != [] && WellFormed(base, bs, m)
    ensures WellFormed(base, bs[..|bs| - 1], m)
  {
    hide Once, AllWritable;
    forall i | m <= i < |bs| - 1 ensures Once(bs[i].data) && AllWritable(After(base, bs[..|bs| - 1][..i]), bs[i].data) {
      PrefixOfInit(bs, i);
    }
  }

  /** Undoing the last block alone. */
  lemma LastRestores(base: Rows, bs: seq<Block>, m: nat, k: Table)
    requires m < |bs| && WellFormed(base, bs, m)
    ensures var n := |bs| - 1;
            Part(RestoreBlock(After(base, bs), bs[n].height, LastLog(base, bs)), k) == Part(After(base, bs[..n]), k)
            <==> FreshAt(base, bs, n, k)
  {
    hide WriteAll, LogOf, FreshAll, ContentOf, UndoTokens, UndoOrdinals, Once, AllWritable;
    var n := |bs| - 1;
    BlockExactly(After(base, bs[..n]), bs[n].data, k);
  }

  /** Every height of the window is restored exactly, table by table, if and only if every block of
      the window wrote only fresh keys to that table. */
  lemma {:induction false} WindowExactly(base: Rows, bs: seq<Block>, m: nat, k: Table)
    requires m <= |bs| && WellFormed(base, bs, m)
    ensures (forall j :: m <= j <= |bs| ==> RestoresAt(After(base, bs), base, bs, j, k))
            <==> (forall i :: m <= i < |bs| ==> FreshAt(base, bs, i, k))
    decreases |bs|
  {
    hide Part, RestoreBlock, LastLog, FreshAll, WriteAll, WellFormed;
    assert bs[..|bs|] == bs;
    if m < |bs| {
      var n := |bs| - 1;
      var init := bs[..n];
      var r := After(base, bs);
      var r1 := RestoreBlock(r, bs[n].height, LastLog(base, bs));
      LastRestores(base, bs, m, k);
      assert Restored(r1, base, init, n) == r1 && Restored(r, base, bs, n) == r1;
      assert RestoresAt(r, base, bs, n, k) <==> FreshAt(base, bs, n, k);
      InitWellFormed(base, bs, m);
      WindowExactly(base, init, m, k);
      if FreshAt(base, bs, n, k) {
        forall j | m <= j <= n ensures RestoresAt(r, base, bs, j, k) <==> RestoresAt(After(base, init), base, init, j, k) {
          RestoredAlike(r1, After(base, init), base, init, j, k);
          assert init[..j] == bs[..j];
        }
        forall i | m <= i < n ensures FreshAt(base, init, i, k) <==> FreshAt(base, bs, i, k) {
          PrefixOfInit(bs, i);
        }
      }
    }
  }

  lemma AlwaysFresh(r: Rows, ds: seq<ProcessedData>, k: Table)
    requires k.Metas? || k.Balances?
    ensures FreshAll(r, ds, k)
  {
  }

  /** Token metas and balances need no freshness: they come back at every height. */
  lemma LedgerAlwaysRestored(base: Rows, bs: seq<Block>, m: nat, j: nat, k: Table)
    requires m <= j <= |bs| && WellFormed(base, bs, m) && (k.Metas? || k.Balances?)
    ensures RestoresAt(After(base, bs), base, bs, j, k)
  {
    hide After, WellFormed, RestoresAt;
    forall i | m <= i < |bs| ensures FreshAt(base, bs, i, k) {
      AlwaysFresh(After(base, bs[..i]), bs[i].data, k);
    }
    WindowExactly(base, bs, m, k);
  }

  // ---- unspent outputs ----

  function OutputsIn(ds: seq<ProcessedData>): set<OutPoint>
  {
    if ds == [] then {}
    else OutputsIn(ds[..|ds| - 1]) + (if ds[|ds| - 1].PrevoutsData? then ds[|ds| - 1].outputs.Keys else {})
  }

  ghost predicate OverwritesAll(r: Rows, ds: seq<ProcessedData>)
  {
    forall i :: 0 <= i < |ds| && ds[i].PrevoutsData? ==> OverwritesSame(r.ordinals.prevouts, ds[i].outputs, ds[i].inputs)
  }

  lemma {:induction false} NoOutputs(ds: seq<ProcessedData>)
    requires forall i :: 0 <= i < |ds| ==> !ds[i].PrevoutsData?
    ensures OutputsIn(ds) == {}
    decreases |ds|
  {
    if ds != [] {
      NoOutputs(ds[..|ds| - 1]);
    }
  }

  function PrevoutsAfter(r: Rows, ds: seq<ProcessedData>): map<OutPoint, TxPrevout>
  {
    UndoOrdinals(WriteAll(r, ds).ordinals, LogOf(r, ds).ordinalsHistory).prevouts
  }

  lemma LastSpends(r: Rows, ds: seq<ProcessedData>)
    requires ds != [] && ds[|ds| - 1].PrevoutsData? && Writable(WriteAll(r, ds[..|ds| - 1]), ds[|ds| - 1])
    requires forall i :: 0 <= i < |ds| - 1 ==> !Touches(ds[i], PrevoutTable)
    ensures PrevoutsAfter(r, ds).Keys == r.ordinals.prevouts.Keys + OutputsIn(ds)
    ensures Stored(PrevoutsAfter(r, ds), r.ordinals.prevouts) <==>
            OverwritesSame(r.ordinals.prevouts, ds[|ds| - 1].outputs, ds[|ds| - 1].inputs)
  {
    hide LogOf, UndoTokens, UndoOrdinals, UndoneTokens, SpentBefore, OverwritesSame, Stored, WriteTokens;
    var d := ds[|ds| - 1];
    var init := ds[..|ds| - 1];
    var at := WriteAll(r, init);
    var w := Write(at, d);
    assert w == WriteAll(r, ds);
    hide WriteAll;
    UndoLast(w.tokens, w.ordinals, r, ds, PrevoutTable);
    BlockElsewhere(UndoneTokens(w.tokens, at.tokens, d), UndoneOrdinals(w.ordinals, at.ordinals, d), r, init, PrevoutTable);
    PrevoutsExactly(r.ordinals.prevouts, d.outputs, d.inputs);
    NoOutputs(init);
  }

  lemma {:induction false} BlockCovers(r: Rows, ds: seq<ProcessedData>)
    requires Once(ds) && AllWritable(r, ds)
    ensures PrevoutsAfter(r, ds).Keys == r.ordinals.prevouts.Keys + OutputsIn(ds)
    ensures Stored(PrevoutsAfter(r, ds), r.ordinals.prevouts) <==> OverwritesAll(r, ds)
    decreases |ds|
  {
    hide LogOf, WriteAll, UndoTokens, UndoOrdinals, OverwritesSame, Writable;
    if ds == [] {
      NothingUndone(r, PrevoutTable);
    } else {
      var n := |ds| - 1;
      if ds[n].PrevoutsData? {
        assert Touches(ds[n], PrevoutTable);
        LastSpends(r, ds);
      } else {
        LastElsewhere(r, ds, PrevoutTable);
        forall i | 0 <= i < n ensures Writable(WriteAll(r, ds[..n][..i]), ds[..n][i]) {
          assert ds[..n][..i] == ds[..i];
        }
        BlockCovers(r, ds[..n]);
      }
    }
  }

  lemma {:induction false} UndoStored(o: OrdinalTables, q: OrdinalTables, es: seq<OrdinalsEntry>, extra: set<OutPoint>)
    requires Stored(o.prevouts, q.prevouts) && o.prevouts.Keys <= q.prevouts.Keys + extra
    ensures var u, v := UndoOrdinals(o, es), UndoOrdinals(q, es);
            Stored(u.prevouts, v.prevouts) && u.prevouts.Keys <= v.prevouts.Keys + extra
    decreases |es|
  {
    if es != [] {
      var n := |es| - 1;
      UndoStored(UndoOrdinal(o, es[n]), UndoOrdinal(q, es[n]), es[..n], extra);
    }
  }

  lemma {:induction false} RestoredStored(r: Rows, s: Rows, base: Rows, bs: seq<Block>, j: nat, extra: set<OutPoint>)
    requires j <= |bs|
    requires Stored(r.ordinals.prevouts, s.ordinals.prevouts) && r.ordinals.prevouts.Keys <= s.ordinals.prevouts.Keys + extra
    ensures var u, v := Restored(r, base, bs, j).ordinals.prevouts, Restored(s, base, bs, j).ordinals.prevouts;
            Stored(u, v) && u.Keys <= v.Keys + extra
    decreases |bs|
  {
    if j < |bs| {
      hide LogOf, UndoTokens, UndoOrdinals, Stored;
      var n := |bs| - 1;
      var log := LastLog(base, bs);
      UndoStored(r.ordinals, s.ordinals, log.ordinalsHistory, extra);
      RestoredStored(RestoreBlock(r, bs[n].height, log), RestoreBlock(s, bs[n].height, log), base, bs[..n], j, extra);
    }
  }

  /** The outputs of the blocks from `j` on. */
  function OutputsFrom(bs: seq<Block>, j: nat): set<OutPoint>
    requires j <= |bs|
    decreases |bs|
  {
    if |bs| == j then {} else OutputsFrom(bs[..|bs| - 1], j) + OutputsIn(bs[|bs| - 1].data)
  }

  /** Restoring gives back every unspent output there was; what it leaves on top are outputs of the
      undone blocks. */
  lemma {:induction false} WindowCovers(base: Rows, bs: seq<Block>, j: nat)
    requires j <= |bs| && WellFormed(base, bs, j)
    requires forall i :: j <= i < |bs| ==> OverwritesAll(After(base, bs[..i]), bs[i].data)
    ensures var u, v := Restored(After(base, bs), base, bs, j).ordinals.prevouts, After(base, bs[..j]).ordinals.prevouts;
            Stored(u, v) && u.Keys <= v.Keys + OutputsFrom(bs, j)
    decreases |bs|
  {
    hide LogOf, WriteAll, UndoTokens, UndoOrdinals, OverwritesAll, Stored, WellFormed, OutputsIn;
    if j == |bs| {
      assert bs[..j] == bs;
      SelfStored(After(base, bs).ordinals.prevouts);
    } else {
      var n := |bs| - 1;
      var init := bs[..n];
      var at := After(base, init);
      var r1 := RestoreBlock(After(base, bs), bs[n].height, LastLog(base, bs));
      forall i | j <= i < n ensures OverwritesAll(After(base, init[..i]), init[i].data) {
        PrefixOfInit(bs, i);
      }
      InitWellFormed(base, bs, j);
      LastCovers(base, bs, j);
      RestoredStored(r1, at, base, init, j, OutputsIn(bs[n].data));
      WindowCovers(base, init, j);
      assert init[..j] == bs[..j];
      StoredChain(Restored(r1, base, init, j).ordinals.prevouts, Restored(at, base, init, j).ordinals.prevouts, After(base, bs[..j]).ordinals.prevouts);
    }
  }

  /** The block at height index `j` is the last one the restore to `j` undoes. */
  lemma {:induction false} RestoredStep(r: Rows, base: Rows, bs: seq<Block>, j: nat)
    requires j < |bs|
    ensures Restored(r, base, bs, j) ==
            RestoreBlock(Restored(r, base, bs, j + 1), bs[j].height, LogOf(After(base, bs[..j]), bs[j].data))
    decreases |bs|
  {
    hide RestoreBlock, LogOf, WriteAll;
    var n := |bs| - 1;
    var r1 := RestoreBlock(r, bs[n].height, LastLog(base, bs));
    if j < n {
      RestoredStep(r1, base, bs[..n], j);
      PrefixOfInit(bs, j);
    } else {
      assert Restored(r1, base, bs[..n], n) == r1;
    }
  }

  ghost predicate CoversAt(base: Rows, bs: seq<Block>, j: nat)
    requires j <= |bs|
  {
    Stored(Restored(After(base, bs), base, bs, j).ordinals.prevouts, After(base, bs[..j]).ordinals.prevouts)
  }

  lemma OverwriteShows(base: Rows, bs: seq<Block>, i: nat)
    requires i < |bs| && WellFormed(base, bs, i) && CoversAt(base, bs, i) && CoversAt(base, bs, i + 1)
    ensures OverwritesAll(After(base, bs[..i]), bs[i].data)
  {
    hide LogOf, WriteAll, UndoTokens, UndoOrdinals, OverwritesAll, Restored, Once, AllWritable;
    var at, ds := After(base, bs[..i]), bs[i].data;
    var w := WriteAll(at, ds);
    assert bs[..i + 1][..i] == bs[..i];
    assert w == After(base, bs[..i + 1]);
    var u := Restored(After(base, bs), base, bs, i + 1);
    RestoredStep(After(base, bs), base, bs, i);
    BlockCovers(at, ds);
    UndoStored(u.ordinals, w.ordinals, LogOf(at, ds).ordinalsHistory, u.ordinals.prevouts.Keys);
  }

  /** Every height of the window gets all its unspent outputs back if and only if no block of it wrote
      over a stored output with another value. */
  lemma WindowCoversExactly(base: Rows, bs: seq<Block>, m: nat)
    requires m <= |bs| && WellFormed(base, bs, m)
    ensures (forall j :: m <= j <= |bs| ==> CoversAt(base, bs, j))
            <==> (forall i :: m <= i < |bs| ==> OverwritesAll(After(base, bs[..i]), bs[i].data))
  {
    hide CoversAt, OverwritesAll, After, WellFormed;
    if forall i :: m <= i < |bs| ==> OverwritesAll(After(base, bs[..i]), bs[i].data) {
      forall j | m <= j <= |bs| ensures CoversAt(base, bs, j) {
        LaterWellFormed(base, bs, m, j);
        WindowCoversAt(base, bs, j);
      }
    }
    if forall j :: m <= j <= |bs| ==> CoversAt(base, bs, j) {
      forall i | m <= i < |bs| ensures OverwritesAll(After(base, bs[..i]), bs[i].data) {
        LaterWellFormed(base, bs, m, i);
        OverwriteShows(base, bs, i);
      }
    }
  }

  lemma LaterWellFormed(base: Rows, bs: seq<Block>, m: nat, j: nat)
    requires m <= j && WellFormed(base, bs, m)
    ensures WellFormed(base, bs, j)
  {
  }

  lemma WindowCoversAt(base: Rows, bs: seq<Block>, j: nat)
    requires j <= |bs| && WellFormed(base, bs, j)
    requires forall i :: j <= i < |bs| ==> OverwritesAll(After(base, bs[..i]), bs[i].data)
    ensures CoversAt(base, bs, j)
  {
    hide After, OverwritesAll, WellFormed, Restored, Stored;
    WindowCovers(base, bs, j);
  }

  lemma LastCovers(base: Rows, bs: seq<Block>, j: nat)
    requires j < |bs| && WellFormed(base, bs, j) && OverwritesAll(After(base, bs[..|bs| - 1]), bs[|bs| - 1].data)
    ensures var n := |bs| - 1;
            var u := RestoreBlock(After(base, bs), bs[n].height, LastLog(base, bs)).ordinals.prevouts;
            var v := After(base, bs[..n]).ordinals.prevouts;
            Stored(u, v) && u.Keys <= v.Keys + OutputsIn(bs[n].data)
  {
    hide LogOf, WriteAll, UndoTokens, UndoOrdinals, OverwritesAll, Stored, OutputsIn, Once, AllWritable;
    var n := |bs| - 1;
    BlockCovers(After(base, bs[..n]), bs[n].data);
  }

  lemma SelfStored<K, V>(m: map<K, V>)
    ensures Stored(m, m)
  {
  }

  lemma StoredChain<K, V>(a: map<K, V>, b: map<K, V>, c: map<K, V>)
    requires Stored(a, b) && Stored(b, c)
    ensures Stored(a, c)
  {
  }

  // ---- block info and the last block ----

  ghost predicate Numbered(bs: seq<Block>, j: nat)
  {
    forall i, n :: j <= i < |bs| && 0 <= n < |bs[i].data| && bs[i].data[n].InfoData? ==> bs[i].data[n].height == bs[i].height
  }

  lemma {:induction false} InfoWritten(r: Rows, ds: seq<ProcessedData>, h: nat)
    requires forall n :: 0 <= n < |ds| && ds[n].InfoData? ==> ds[n].height == h
    ensures WriteAll(r, ds).blockInfo - {h} == r.blockInfo - {h}
    decreases |ds|
  {
    hide WriteTokens, WriteOrdinals;
    if ds != [] {
      InfoWritten(r, ds[..|ds| - 1], h);
    }
  }

  lemma {:induction false} RestoredInfo(r: Rows, s: Rows, base: Rows, bs: seq<Block>, j: nat)
    requires j <= |bs| && r.blockInfo == s.blockInfo
    ensures Restored(r, base, bs, j).blockInfo == Restored(s, base, bs, j).blockInfo
    ensures j < |bs| && bs[j].height > 0 ==> Restored(r, base, bs, j).lastBlock == Some(bs[j].height - 1)
    decreases |bs|
  {
    hide LastLog, UndoTokens, UndoOrdinals;
    if j < |bs| {
      var n := |bs| - 1;
      RestoredInfo(RestoreBlock(r, bs[n].height, LastLog(base, bs)), RestoreBlock(s, bs[n].height, LastLog(base, bs)), base, bs[..n], j);
    }
  }

  /** Block infos come back, and the last block is the one below the lowest undone block, whenever
      the undone heights had not been indexed before. */
  lemma {:induction false} InfoRestored(base: Rows, bs: seq<Block>, j: nat)
    requires j <= |bs| && Numbered(bs, j)
    requires forall i :: j <= i < |bs| ==> bs[i].height > 0 && bs[i].height !in After(base, bs[..i]).blockInfo
    ensures Restored(After(base, bs), base, bs, j).blockInfo == After(base, bs[..j]).blockInfo
    ensures j < |bs| ==> Restored(After(base, bs), base, bs, j).lastBlock == Some(bs[j].height - 1)
    decreases |bs|
  {
    hide LastLog, UndoTokens, UndoOrdinals, WriteAll;
    if j == |bs| {
      assert bs[..j] == bs;
    } else {
      var n := |bs| - 1;
      var init := bs[..n];
      var at := After(base, init);
      var r1 := RestoreBlock(After(base, bs), bs[n].height, LastLog(base, bs));
      InfoWritten(at, bs[n].data, bs[n].height);
      assert r1.blockInfo == at.blockInfo;
      forall i | j <= i < n ensures bs[i].height !in After(base, init[..i]).blockInfo {
        PrefixOfInit(bs, i);
      }
      RestoredInfo(After(base, bs), After(base, bs), base, bs, j);
      RestoredInfo(r1, at, base, init, j);
      InfoRestored(base, init, j);
      assert init[..j] == bs[..j];
    }
  }

  // ---- what undo does not give back ----

  /** An event filed under an output that already had one: undoing it leaves the output without any. */
  lemma EventLost(t: TokenTables, height: nat, last: nat, key: AddressTokenId, event: Event)
    requires EventOutPoint(event) in t.outpointToEvent
    ensures var d := HistoryData(height, last, [(key, HistoryValue(height, event))]);
            EventOutPoint(event) !in UndoTokens(WriteTokens(t, d), TokenEntries(t, d)).outpointToEvent
  {
    var d := HistoryData(height, last, [(key, HistoryValue(height, event))]);
    UndoTokenEntries(WriteTokens(t, d), t, d);
    assert OutPointItems(d.history)[0].0 == EventOutPoint(event);
    assert EventOutPoint(event) in Firsts(OutPointItems(d.history));
  }
}
