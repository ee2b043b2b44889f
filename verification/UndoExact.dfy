/** Undoing a block gives each table back exactly when the block's writes met its freshness. */
module UndoExact {
  import opened Base
  import opened Ledger
  import opened CacheRefinement
  import opened BlockParser
  import opened HistoryIds
  import opened UndoLog

  // ---- batches of pairs ----

  lemma {:induction false} ExtendOutside<K, V>(m: map<K, V>, items: seq<(K, V)>)
    ensures Extend(m, items).Keys == m.Keys + Firsts(items)
    ensures forall k :: k in m && k !in Firsts(items) ==> Extend(m, items)[k] == m[k]
    decreases |items|
  {
    if items != [] {
      var n := |items| - 1;
      ExtendOutside(m, items[..n]);
      assert Firsts(items) == Firsts(items[..n]) + {items[n].0};
    }
  }

  /** Removing what was added gives the table back exactly when all of it was new. */
  lemma AddedExactly<K, V>(m: map<K, V>, items: seq<(K, V)>)
    ensures Extend(m, items) - Firsts(items) == m <==> m.Keys !! Firsts(items)
  {
    hide Extend, Firsts;
    ExtendOutside(m, items);
    var u := Extend(m, items) - Firsts(items);
    if k :| k in m && k in Firsts(items) {
      assert k !in u;
    } else {
      assert u == m;
    }
  }

  /** Putting back what was replaced always gives the table back. */
  lemma ReplacedExactly<K, V>(m: map<K, V>, written: map<K, V>)
    ensures ((m + written) + Only(m, written.Keys)) - (written.Keys - m.Keys) == m
    ensures ((m + written) - (written.Keys - m.Keys)) + Only(m, written.Keys) == m
  {
  }

  /** Putting back what was removed gives the table back exactly when it had been stored and every
      written key was new or removed. */
  lemma SwappedExactly<K, V>(m: map<K, V>, removed: map<K, V>, written: map<K, V>)
    ensures (((m - removed.Keys) + written) - written.Keys) + removed == m
            <==> Stored(m, removed) && FreshKeys(m, removed.Keys, written.Keys)
  {
    var u := (((m - removed.Keys) + written) - written.Keys) + removed;
    if Stored(m, removed) && FreshKeys(m, removed.Keys, written.Keys) {
      assert u.Keys == m.Keys;
      assert u == m;
    }
    if u == m {
      forall k | k in removed ensures k in m && m[k] == removed[k] {
        assert k in u && u[k] == removed[k];
      }
      forall k | k in written && k in m ensures k in removed {
        assert k in u;
      }
    }
  }

  // ---- one write and its entries ----

  function UndoneTokens(t: TokenTables, before: TokenTables, d: ProcessedData): TokenTables
  {
    match d
    case HistoryData(height, _, history) =>
      t.(lastHistoryId := Some(before.LastHistoryId()), blockEvents := t.blockEvents - {height},
         history := t.history - Firsts(history), outpointToEvent := t.outpointToEvent - Firsts(OutPointItems(history)),
         tokenIdToEvent := t.tokenIdToEvent - Firsts(TokenIdItems(history)))
    case TokensData(metas, balances, toWrite, toRemove) =>
      t.(transfers := (t.transfers - toWrite.Keys) + Only(before.transfers, toRemove),
         balances := (t.balances - (balances.Keys - before.balances.Keys)) + Only(before.balances, balances.Keys),
         metas := (t.metas + Only(before.metas, metas.Keys)) - (metas.Keys - before.metas.Keys))
    case _ => t
  }

  lemma {:induction false} UndoTokensAppend(t: TokenTables, xs: seq<TokenHistoryEntry>, ys: seq<TokenHistoryEntry>)
    ensures UndoTokens(t, xs + ys) == UndoTokens(UndoTokens(t, ys), xs)
    decreases |ys|
  {
    hide UndoToken;
    if ys == [] {
      assert xs + ys == xs;
    } else {
      var n := |ys| - 1;
      assert (xs + ys)[..|xs + ys| - 1] == xs + ys[..n];
      UndoTokensAppend(UndoToken(t, ys[n]), xs, ys[..n]);
    }
  }

  lemma {:induction false} UndoOrdinalsAppend(o: OrdinalTables, xs: seq<OrdinalsEntry>, ys: seq<OrdinalsEntry>)
    ensures UndoOrdinals(o, xs + ys) == UndoOrdinals(UndoOrdinals(o, ys), xs)
    decreases |ys|
  {
    hide UndoOrdinal;
    if ys == [] {
      assert xs + ys == xs;
    } else {
      var n := |ys| - 1;
      assert (xs + ys)[..|xs + ys| - 1] == xs + ys[..n];
      UndoOrdinalsAppend(UndoOrdinal(o, ys[n]), xs, ys[..n]);
    }
  }

  lemma UndoOneToken(t: TokenTables, e: TokenHistoryEntry)
    ensures UndoTokens(t, [e]) == UndoToken(t, e)
  {
    hide UndoToken;
    assert [e][..0] == [];
  }

  lemma UndoTokenPair(t: TokenTables, a: TokenHistoryEntry, b: TokenHistoryEntry)
    ensures UndoTokens(t, [a, b]) == UndoToken(UndoToken(t, b), a)
  {
    hide UndoToken;
    assert [a, b][..1] == [a];
    UndoOneToken(UndoToken(t, b), a);
  }

  lemma UndoTokensData(t: TokenTables, before: TokenTables, d: ProcessedData)
    requires d.TokensData?
    ensures UndoTokens(t, TokenEntries(before, d)) == UndoneTokens(t, before, d)
  {
    var es := TokenEntries(before, d);
    assert es == [es[0], es[1]] + ([es[2], es[3]] + [es[4], es[5]]);
    hide UndoTokens, Only;
    UndoTokensAppend(t, [es[0], es[1]], [es[2], es[3]] + [es[4], es[5]]);
    UndoTokensAppend(t, [es[2], es[3]], [es[4], es[5]]);
    UndoTokenPair(t, es[4], es[5]);
    var t1 := UndoTokens(t, [es[4], es[5]]);
    UndoTokenPair(t1, es[2], es[3]);
    UndoTokenPair(UndoTokens(t1, [es[2], es[3]]), es[0], es[1]);
  }

  lemma UndoTokenEntries(t: TokenTables, before: TokenTables, d: ProcessedData)
    ensures UndoTokens(t, TokenEntries(before, d)) == UndoneTokens(t, before, d)
  {
    hide UndoTokens;
    var es := TokenEntries(before, d);
    match d {
      case HistoryData(_, _, _) =>
        UndoOneToken(t, es[0]);
      case TokensData(_, _, _, _) =>
        UndoTokensData(t, before, d);
      case _ =>
        assert UndoTokens(t, []) == t by { UndoNothing(t); }
    }
  }

  lemma UndoNothing(t: TokenTables)
    ensures UndoTokens(t, []) == t
  {
  }

  function UndoneOrdinals(o: OrdinalTables, before: OrdinalTables, d: ProcessedData): OrdinalTables
  {
    match d
    case PrevoutsData(outputs, inputs) => o.(prevouts := o.prevouts + SpentBefore(before.prevouts, outputs, inputs))
    case PartialsData(removed, written) => o.(partials := (o.partials - written.Keys) + removed)
    case OffsetsData(removed, written) => o.(offsets := (o.offsets - written.Keys) + removed)
    case _ => o
  }

  lemma UndoOrdinalEntries(o: OrdinalTables, before: OrdinalTables, d: ProcessedData)
    ensures UndoOrdinals(o, OrdinalEntries(before, d)) == UndoneOrdinals(o, before, d)
  {
    var es := OrdinalEntries(before, d);
    if |es| == 2 {
      assert es[..1] == [es[0]];
      UndoOneOrdinal(UndoOrdinal(o, es[1]), es[0]);
    } else if |es| == 1 {
      UndoOneOrdinal(o, es[0]);
    }
  }

  lemma UndoOneOrdinal(o: OrdinalTables, e: OrdinalsEntry)
    ensures UndoOrdinals(o, [e]) == UndoOrdinal(o, e)
  {
    hide UndoOrdinal;
    assert [e][..0] == [];
  }

  // ---- table by table ----

  lemma WriteElsewhere(r: Rows, d: ProcessedData, k: Table)
    requires !Touches(d, k)
    ensures Part(Write(r, d), k) == Part(r, k)
  {
  }

  lemma UndoElsewhere(t: TokenTables, o: OrdinalTables, r: Rows, d: ProcessedData, k: Table)
    requires !Touches(d, k)
    ensures ContentOf(UndoneTokens(t, r.tokens, d), UndoneOrdinals(o, r.ordinals, d), k) == ContentOf(t, o, k)
  {
  }

  /** One write: table by table, undo gives back what was there exactly when the write was fresh. */
  lemma WriteExactly(r: Rows, d: ProcessedData, k: Table)
    requires Writable(r, d) && Touches(d, k)
    ensures var w := Write(r, d);
            ContentOf(UndoneTokens(w.tokens, r.tokens, d), UndoneOrdinals(w.ordinals, r.ordinals, d), k) == Part(r, k)
            <==> Fresh(r, d, k)
  {
    match d
    case HistoryData(_, _, _) => HistoryExactly(r.tokens, d, k);
    case TokensData(_, _, _, _) => TokensExactly(r.tokens, d, k);
    case PrevoutsData(outputs, inputs) => PrevoutsExactly(r.ordinals.prevouts, outputs, inputs);
    case PartialsData(before, after) => SwappedExactly(r.ordinals.partials, before, after);
    case OffsetsData(before, after) => SwappedExactly(r.ordinals.offsets, before, after);
  }

  /** Outputs are never taken back: spent ones return, unspent ones of the block stay. */
  lemma PrevoutsExactly(p: map<OutPoint, TxPrevout>, outputs: map<OutPoint, TxPrevout>, inputs: set<OutPoint>)
    requires inputs <= p.Keys + outputs.Keys
    ensures var u := ((p + outputs) - inputs) + SpentBefore(p, outputs, inputs);
            && u.Keys == p.Keys + outputs.Keys
            && (Stored(u, p) <==> OverwritesSame(p, outputs, inputs))
            && (u == p <==> outputs.Keys <= p.Keys && OverwritesSame(p, outputs, inputs))
  {
    var u := ((p + outputs) - inputs) + SpentBefore(p, outputs, inputs);
    assert u.Keys == p.Keys + outputs.Keys;
    if Stored(u, p) {
      forall o | o in outputs && o in p && o !in inputs ensures outputs[o] == p[o] {
        assert u[o] == outputs[o];
      }
    }
    if Stored(u, p) && outputs.Keys <= p.Keys {
      assert p.Keys + outputs.Keys == p.Keys;
      assert u == p;
    }
  }

  lemma HistoryExactly(t: TokenTables, d: ProcessedData, k: Table)
    requires d.HistoryData? && Touches(d, k)
    ensures var u := UndoneTokens(WriteTokens(t, d), t, d);
            if k.History? then
              (u.LastHistoryId() == t.LastHistoryId() && u.blockEvents == t.blockEvents && u.history == t.history && u.tokenIdToEvent == t.tokenIdToEvent
               <==> d.height !in t.blockEvents && t.history.Keys !! Firsts(d.history) && t.tokenIdToEvent.Keys !! Firsts(TokenIdItems(d.history)))
            else u.outpointToEvent == t.outpointToEvent <==> t.outpointToEvent.Keys !! Firsts(OutPointItems(d.history))
  {
    hide Extend, Firsts, TokenIdItems, OutPointItems, SortKeys;
    AddedExactly(t.history, d.history);
    AddedExactly(t.tokenIdToEvent, TokenIdItems(d.history));
    AddedExactly(t.outpointToEvent, OutPointItems(d.history));
    var events := t.blockEvents[d.height := SortKeys(d.history)] - {d.height};
    if d.height !in t.blockEvents {
      assert events == t.blockEvents;
    }
  }

  lemma TokensExactly(t: TokenTables, d: ProcessedData, k: Table)
    requires d.TokensData? && d.transfersToRemove <= t.transfers.Keys && Touches(d, k)
    ensures var u := UndoneTokens(WriteTokens(t, d), t, d);
            && u.metas == t.metas && u.balances == t.balances
            && (u.transfers == t.transfers <==> FreshKeys(t.transfers, d.transfersToRemove, d.transfersToWrite.Keys))
  {
    hide Only;
    ReplacedExactly(t.metas, d.metas);
    ReplacedExactly(t.balances, d.balances);
    assert Only(t.transfers, d.transfersToRemove).Keys == d.transfersToRemove && Stored(t.transfers, Only(t.transfers, d.transfersToRemove)) by {
      OnlyStored(t.transfers, d.transfersToRemove);
    }
    SwappedExactly(t.transfers, Only(t.transfers, d.transfersToRemove), d.transfersToWrite);
  }

  lemma OnlyStored<K, V>(m: map<K, V>, keys: set<K>)
    requires keys <= m.Keys
    ensures Only(m, keys).Keys == keys && Stored(m, Only(m, keys))
  {
  }

  // ---- a whole block ----

  /** No two writes of a block are of the same kind. */
  ghost predicate Once(ds: seq<ProcessedData>)
  {
    forall i, j, k: Table :: 0 <= i < j < |ds| && Touches(ds[i], k) ==> !Touches(ds[j], k)
  }

  ghost predicate AllWritable(r: Rows, ds: seq<ProcessedData>)
  {
    forall i :: 0 <= i < |ds| ==> Writable(WriteAll(r, ds[..i]), ds[i])
  }

  ghost predicate FreshAll(r: Rows, ds: seq<ProcessedData>, k: Table)
  {
    forall i :: 0 <= i < |ds| ==> Fresh(r, ds[i], k)
  }

  /** Undoing the log of a block on any tables. */
  function UndoLogOn(t: TokenTables, o: OrdinalTables, log: HistoryBlock, k: Table): Content
  {
    ContentOf(UndoTokens(t, log.tokenHistory), UndoOrdinals(o, log.ordinalsHistory), k)
  }

  lemma UndoLast(t: TokenTables, o: OrdinalTables, r: Rows, ds: seq<ProcessedData>, k: Table)
    requires ds != []
    ensures var n := |ds| - 1;
            var at := WriteAll(r, ds[..n]);
            UndoLogOn(t, o, LogOf(r, ds), k) ==
            UndoLogOn(UndoneTokens(t, at.tokens, ds[n]), UndoneOrdinals(o, at.ordinals, ds[n]), LogOf(r, ds[..n]), k)
  {
    hide TokenEntries, OrdinalEntries, WriteAll, UndoneTokens, UndoneOrdinals, UndoTokens, UndoOrdinals;
    var n := |ds| - 1;
    var at := WriteAll(r, ds[..n]);
    var log := LogOf(r, ds[..n]);
    UndoTokensAppend(t, log.tokenHistory, TokenEntries(at.tokens, ds[n]));
    UndoTokenEntries(t, at.tokens, ds[n]);
    UndoOrdinalsAppend(o, log.ordinalsHistory, OrdinalEntries(at.ordinals, ds[n]));
    UndoOrdinalEntries(o, at.ordinals, ds[n]);
  }

  /** Undo reads nothing of a table but that table. */
  lemma UndoneAlike(t1: TokenTables, o1: OrdinalTables, t2: TokenTables, o2: OrdinalTables, at: Rows, d: ProcessedData, k: Table)
    requires ContentOf(t1, o1, k) == ContentOf(t2, o2, k)
    ensures ContentOf(UndoneTokens(t1, at.tokens, d), UndoneOrdinals(o1, at.ordinals, d), k) ==
            ContentOf(UndoneTokens(t2, at.tokens, d), UndoneOrdinals(o2, at.ordinals, d), k)
  {
  }

  lemma {:induction false} UndoAlike(t1: TokenTables, o1: OrdinalTables, t2: TokenTables, o2: OrdinalTables, r: Rows, ds: seq<ProcessedData>, k: Table)
    requires ContentOf(t1, o1, k) == ContentOf(t2, o2, k)
    ensures UndoLogOn(t1, o1, LogOf(r, ds), k) == UndoLogOn(t2, o2, LogOf(r, ds), k)
    decreases |ds|
  {
    if ds != [] {
      hide UndoneTokens, UndoneOrdinals, LogOf, UndoLogOn, ContentOf;
      var n := |ds| - 1;
      var at := WriteAll(r, ds[..n]);
      UndoLast(t1, o1, r, ds, k);
      UndoLast(t2, o2, r, ds, k);
      UndoneAlike(t1, o1, t2, o2, at, ds[n], k);
      UndoAlike(UndoneTokens(t1, at.tokens, ds[n]), UndoneOrdinals(o1, at.ordinals, ds[n]),
                UndoneTokens(t2, at.tokens, ds[n]), UndoneOrdinals(o2, at.ordinals, ds[n]), r, ds[..n], k);
    }
  }

  lemma {:induction false} BlockElsewhere(t: TokenTables, o: OrdinalTables, r: Rows, ds: seq<ProcessedData>, k: Table)
    requires forall i :: 0 <= i < |ds| ==> !Touches(ds[i], k)
    ensures Part(WriteAll(r, ds), k) == Part(r, k)
    ensures UndoLogOn(t, o, LogOf(r, ds), k) == ContentOf(t, o, k)
    decreases |ds|
  {
    if ds != [] {
      hide UndoneTokens, UndoneOrdinals, LogOf, UndoLogOn, ContentOf, Write, Touches, Part;
      var n := |ds| - 1;
      var at := WriteAll(r, ds[..n]);
      WriteElsewhere(at, ds[n], k);
      UndoLast(t, o, r, ds, k);
      UndoElsewhere(t, o, at, ds[n], k);
      BlockElsewhere(UndoneTokens(t, at.tokens, ds[n]), UndoneOrdinals(o, at.ordinals, ds[n]), r, ds[..n], k);
    }
  }

  lemma FreshAlike(r: Rows, s: Rows, d: ProcessedData, k: Table)
    requires Part(r, k) == Part(s, k)
    ensures Fresh(r, d, k) == Fresh(s, d, k)
    ensures !Touches(d, k) ==> Fresh(r, d, k)
  {
  }

  function UndoneAfter(r: Rows, ds: seq<ProcessedData>, k: Table): Content
  {
    UndoLogOn(WriteAll(r, ds).tokens, WriteAll(r, ds).ordinals, LogOf(r, ds), k)
  }

  lemma LastTouches(r: Rows, ds: seq<ProcessedData>, k: Table)
    requires ds != [] && Writable(WriteAll(r, ds[..|ds| - 1]), ds[|ds| - 1]) && Touches(ds[|ds| - 1], k)
    requires forall i :: 0 <= i < |ds| - 1 ==> !Touches(ds[i], k)
    ensures UndoneAfter(r, ds, k) == Part(r, k) <==> Fresh(r, ds[|ds| - 1], k)
  {
    hide UndoneTokens, UndoneOrdinals, LogOf, UndoLogOn, ContentOf, Write, Touches, Fresh, Writable;
    var d := ds[|ds| - 1];
    var init := ds[..|ds| - 1];
    var at := WriteAll(r, init);
    var w := Write(at, d);
    assert w == WriteAll(r, ds);
    hide WriteAll;
    var t1, o1 := UndoneTokens(w.tokens, at.tokens, d), UndoneOrdinals(w.ordinals, at.ordinals, d);
    UndoLast(w.tokens, w.ordinals, r, ds, k);
    BlockElsewhere(t1, o1, r, init, k);
    WriteExactly(at, d, k);
    FreshAlike(r, at, d, k);
  }

  lemma LastElsewhere(r: Rows, ds: seq<ProcessedData>, k: Table)
    requires ds != [] && !Touches(ds[|ds| - 1], k)
    ensures UndoneAfter(r, ds, k) == UndoneAfter(r, ds[..|ds| - 1], k)
  {
    hide UndoneTokens, UndoneOrdinals, LogOf, UndoLogOn, ContentOf, Write, Touches, Fresh, Writable;
    var d := ds[|ds| - 1];
    var init := ds[..|ds| - 1];
    var at := WriteAll(r, init);
    var w := Write(at, d);
    assert w == WriteAll(r, ds);
    hide WriteAll;
    UndoLast(w.tokens, w.ordinals, r, ds, k);
    WriteElsewhere(at, d, k);
    UndoElsewhere(w.tokens, w.ordinals, at, d, k);
    UndoAlike(UndoneTokens(w.tokens, at.tokens, d), UndoneOrdinals(w.ordinals, at.ordinals, d), at.tokens, at.ordinals, r, init, k);
  }

  /** A block's writes undone: table by table, everything is back exactly when each write was fresh
      for the tables as they stood before the block. */
  lemma {:induction false} BlockExactly(r: Rows, ds: seq<ProcessedData>, k: Table)
    requires Once(ds) && AllWritable(r, ds)
    ensures UndoneAfter(r, ds, k) == Part(r, k) <==> FreshAll(r, ds, k)
    decreases |ds|
  {
    hide UndoneAfter, Part, Touches, Fresh, Writable, WriteAll;
    if ds == [] {
      NothingUndone(r, k);
    } else {
      var n := |ds| - 1;
      forall i | 0 <= i < n ensures !Touches(ds[i], k) ==> Fresh(r, ds[i], k) {
        FreshAlike(r, r, ds[i], k);
      }
      if Touches(ds[n], k) {
        LastTouches(r, ds, k);
      } else {
        LastElsewhere(r, ds, k);
        FreshAlike(r, r, ds[n], k);
        forall i | 0 <= i < n ensures Writable(WriteAll(r, ds[..n][..i]), ds[..n][i]) {
          assert ds[..n][..i] == ds[..i];
        }
        BlockExactly(r, ds[..n], k);
        assert FreshAll(r, ds, k) <==> FreshAll(r, ds[..n], k);
      }
    }
  }

  lemma NothingUndone(r: Rows, k: Table)
    ensures UndoneAfter(r, [], k) == Part(r, k)
  {
  }
}
