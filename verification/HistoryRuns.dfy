/** History ids block by block: the stored history numbers its entries 1, 2, ... without gaps, and the
    blocks' event lists tile that range. */
module HistoryRuns {
  import opened Base
  import opened Ledger
  import opened HistoryIds
  import opened UndoLog
  import opened UndoExact
  import opened ReorgStore
  import opened Consumer
  import opened ReorgRuns

  const EMPTY := Rows(TokenTables(map[], map[], map[], None, map[], map[], map[], map[]), OrdinalTables(map[], map[], map[]), None, map[], map[], map[])

  type HistoryTable = map<AddressTokenId, HistoryValue>
  type EventTable = map<nat, seq<AddressTokenId>>
  type IdTable = map<TokenId, AddressTokenId>

  ghost predicate HasId(history: HistoryTable, id: nat)
  {
    exists x :: x in history && x.id == id
  }

  /** The ids in the history are exactly 1 to `last`, each once. */
  ghost predicate GapFree(last: nat, history: HistoryTable)
  {
    && (forall x :: x in history ==> 1 <= x.id <= last)
    && (forall x, y :: x in history && y in history && x.id == y.id ==> x == y)
    && (forall id: nat :: 1 <= id <= last ==> HasId(history, id))
  }

  /** Each block's list holds exactly the history of its height, in strictly increasing order. */
  ghost predicate Listed(events: EventTable, history: HistoryTable)
  {
    && (forall h :: h in events ==> Ascending(events[h]))
    && (forall h, x :: h in events && x in events[h] ==> x in history && history[x].height == h)
    && (forall x :: x in history ==> history[x].height in events && x in events[history[x].height])
  }

  /** Later blocks carry later ids. */
  ghost predicate Tiled(events: EventTable)
  {
    forall h, g, x, y :: h in events && g in events && h < g && x in events[h] && y in events[g] ==> x.id < y.id
  }

  ghost predicate Indexed(ids: IdTable, history: HistoryTable)
  {
    && (forall x :: x in history ==> TokenId(x.token, x.id) in ids && ids[TokenId(x.token, x.id)] == x)
    && (forall t :: t in ids ==> ids[t] in history && t == TokenId(ids[t].token, ids[t].id))
  }

  ghost predicate IdsOk(c: Content)
    requires c.HistoryContent?
  {
    GapFree(c.last, c.history) && Listed(c.blockEvents, c.history) && Tiled(c.blockEvents) && Indexed(c.ids, c.history)
  }

  /** The history a block files, computed on tables whose last id is `last`. */
  ghost predicate Filed(last: nat, b: Block)
  {
    forall i :: 0 <= i < |b.data| && b.data[i].HistoryData? ==> FiledAs(last, b.height, b.data[i])
  }

  ghost predicate FiledAs(last: nat, height: nat, d: ProcessedData)
    requires d.HistoryData?
  {
    exists actions :: d == HistoryData(height, LastId(last, actions), Assigned(last, height, actions))
  }

  // ---- one block's history written ----

  lemma {:induction false} ExtendIn<K, V>(m: map<K, V>, items: seq<(K, V)>, i: nat)
    requires i < |items| && forall j, j' :: 0 <= j < j' < |items| ==> items[j].0 != items[j'].0
    ensures items[i].0 in Extend(m, items) && Extend(m, items)[items[i].0] == items[i].1
    decreases |items|
  {
    var n := |items| - 1;
    if i < n {
      ExtendIn(m, items[..n], i);
    }
  }

  /** The history after new entries: the old keys as they were, the new ones with their values. */
  ghost predicate Grown(before: HistoryTable, es: seq<Entry>, after: HistoryTable)
  {
    && (forall x :: x in after <==> x in before || exists i :: 0 <= i < |es| && es[i].0 == x)
    && (forall x :: x in before ==> after[x] == before[x])
    && (forall i :: 0 <= i < |es| ==> after[es[i].0] == es[i].1)
  }

  lemma HistoryGrows(last: nat, last': nat, history: HistoryTable, es: seq<Entry>)
    requires GapFree(last, history) && Numbers(es, last, last')
    ensures history.Keys !! Firsts(es) && Grown(history, es, Extend(history, es))
  {
    hide Extend;
    ExtendOutside(history, es);
    forall x | x in history ensures x !in Firsts(es) {
    }
    forall i | 0 <= i < |es| ensures Extend(history, es)[es[i].0] == es[i].1 {
      ExtendIn(history, es, i);
    }
    forall x ensures x in Extend(history, es) <==> x in history || exists i :: 0 <= i < |es| && es[i].0 == x {
    }
  }

  lemma GapFreeGrows(last: nat, last': nat, history: HistoryTable, es: seq<Entry>, history': HistoryTable)
    requires GapFree(last, history) && Numbers(es, last, last') && Grown(history, es, history')
    ensures GapFree(last', history')
  {
    forall id: nat | 1 <= id <= last' ensures HasId(history', id) {
      if id <= last {
        assert HasId(history, id);
        var x :| x in history && x.id == id;
        assert x in history';
      } else {
        assert Carries(es, id);
        var i :| 0 <= i < |es| && es[i].0.id == id;
        assert es[i].0 in history';
      }
    }
  }

  /** The list filed for a block. */
  ghost predicate ListOf(keys: seq<AddressTokenId>, es: seq<Entry>)
  {
    Ascending(keys) && forall x :: x in keys <==> exists i :: 0 <= i < |es| && es[i].0 == x
  }

  lemma ListFiled(es: seq<Entry>, lo: nat, hi: nat)
    requires Numbers(es, lo, hi)
    ensures ListOf(SortKeys(es), es)
  {
    hide SortKeys, Ascending;
    SortedStrictly(es);
  }

  lemma ListedGrows(last: nat, last': nat, height: nat, history: HistoryTable, es: seq<Entry>, history': HistoryTable, events: EventTable, keys: seq<AddressTokenId>)
    requires GapFree(last, history) && Numbers(es, last, last') && Grown(history, es, history') && ListOf(keys, es)
    requires forall i :: 0 <= i < |es| ==> es[i].1.height == height
    requires Listed(events, history) && height !in events
    ensures Listed(events[height := keys], history')
  {
    hide GapFree, Numbers, Ascending;
    var events' := events[height := keys];
    forall x | x in keys ensures x in history' && history'[x].height == height {
      var i :| 0 <= i < |es| && es[i].0 == x;
    }
    forall x | x in history' ensures history'[x].height in events' && x in events'[history'[x].height] {
      if x !in history {
        var i :| 0 <= i < |es| && es[i].0 == x;
        assert x in keys;
      }
    }
  }

  lemma TiledGrows(last: nat, last': nat, height: nat, history: HistoryTable, es: seq<Entry>, events: EventTable, keys: seq<AddressTokenId>)
    requires GapFree(last, history) && Numbers(es, last, last') && Listed(events, history) && Tiled(events) && ListOf(keys, es)
    requires forall h :: h in events ==> h < height
    ensures Tiled(events[height := keys])
  {
    hide Carries, HasId, Ascending;
    forall y | y in keys ensures last < y.id {
      var i :| 0 <= i < |es| && es[i].0 == y;
    }
    forall h, x | h in events && x in events[h] ensures x.id <= last {
      assert x in history;
    }
  }

  /** The ids after new entries. */
  ghost predicate IdsGrown(ids: IdTable, es: seq<Entry>, ids': IdTable)
  {
    && (forall t :: t in ids' <==> t in ids || exists i :: 0 <= i < |es| && IdItem(es[i]).0 == t)
    && (forall t :: t in ids ==> ids'[t] == ids[t])
    && (forall i :: 0 <= i < |es| ==> ids'[IdItem(es[i]).0] == es[i].0)
  }

  lemma IdsGrow(last: nat, last': nat, history: HistoryTable, es: seq<Entry>, ids: IdTable)
    requires GapFree(last, history) && Numbers(es, last, last') && Indexed(ids, history)
    ensures ids.Keys !! Firsts(TokenIdItems(es)) && IdsGrown(ids, es, Extend(ids, TokenIdItems(es)))
  {
    hide Extend, Carries, HasId;
    var items := TokenIdItems(es);
    ExtendOutside(ids, items);
    forall t ensures t in Firsts(items) <==> exists i :: 0 <= i < |es| && IdItem(es[i]).0 == t {
      if t in Firsts(items) {
        var i :| 0 <= i < |items| && items[i].0 == t;
        assert IdItem(es[i]).0 == t;
      }
      if i :| 0 <= i < |es| && IdItem(es[i]).0 == t {
        assert items[i].0 == t;
      }
    }
    forall t | t in Firsts(items) ensures t !in ids {
      var i :| 0 <= i < |es| && IdItem(es[i]).0 == t;
    }
    forall i | 0 <= i < |es| ensures Extend(ids, items)[IdItem(es[i]).0] == es[i].0 && IdItem(es[i]).0 in Extend(ids, items) {
      forall j, j' | 0 <= j < j' < |items| ensures items[j].0 != items[j'].0 {
        assert items[j] == IdItem(es[j]) && items[j'] == IdItem(es[j']);
      }
      ExtendIn(ids, items, i);
      assert items[i] == IdItem(es[i]);
    }
  }

  lemma IndexedGrows(history: HistoryTable, es: seq<Entry>, history': HistoryTable, ids: IdTable, ids': IdTable)
    requires Grown(history, es, history') && Indexed(ids, history) && IdsGrown(ids, es, ids')
    ensures Indexed(ids', history')
  {
    forall x | x in history' ensures TokenId(x.token, x.id) in ids' && ids'[TokenId(x.token, x.id)] == x {
      if x !in history {
        var i :| 0 <= i < |es| && es[i].0 == x;
        assert IdItem(es[i]).0 == TokenId(x.token, x.id);
      }
    }
    forall t | t in ids' ensures ids'[t] in history' && t == TokenId(ids'[t].token, ids'[t].id) {
      if t !in ids {
        var i :| 0 <= i < |es| && IdItem(es[i]).0 == t;
      }
    }
  }

  /** Filing a block's history keeps the ids gap-free, and its writes are fresh, so that undo is exact. */
  lemma FilingKeeps(r: Rows, height: nat, d: ProcessedData)
    requires d.HistoryData? && FiledAs(r.tokens.LastHistoryId(), height, d) && IdsOk(Part(r, History))
    requires forall h :: h in r.tokens.blockEvents ==> h < height
    ensures Fresh(r, d, History) && IdsOk(Part(UndoLog.Write(r, d), History))
    ensures UndoLog.Write(r, d).tokens.blockEvents.Keys == r.tokens.blockEvents.Keys + {height}
  {
    hide GapFree, Listed, Tiled, Indexed, Extend, SortKeys, TokenIdItems, OutPointItems, Numbers, Assigned, Grown, Firsts;
    var last := r.tokens.LastHistoryId();
    var actions :| d == HistoryData(height, LastId(last, actions), Assigned(last, height, actions));
    var last', es := d.lastHistoryId, d.history;
    IdsAreGapFree(last, height, actions);
    HistoryGrows(last, last', r.tokens.history, es);
    var history' := Extend(r.tokens.history, es);
    GapFreeGrows(last, last', r.tokens.history, es, history');
    ListFiled(es, last, last');
    ListedGrows(last, last', height, r.tokens.history, es, history', r.tokens.blockEvents, SortKeys(es));
    TiledGrows(last, last', height, r.tokens.history, es, r.tokens.blockEvents, SortKeys(es));
    IdsGrow(last, last', r.tokens.history, es, r.tokens.tokenIdToEvent);
    IndexedGrows(r.tokens.history, es, history', r.tokens.tokenIdToEvent, Extend(r.tokens.tokenIdToEvent, TokenIdItems(es)));
  }

  // ---- blocks, chains, runs ----

  ghost predicate HistoryOk(r: Rows)
  {
    IdsOk(Part(r, History))
  }

  /** The heights with an event list are below `height`. */
  ghost predicate EventsBelow(r: Rows, height: nat)
  {
    forall h :: h in r.tokens.blockEvents ==> h < height
  }

  lemma {:induction false} BlockKeepsIds(r: Rows, b: Block)
    requires Once(b.data) && Filed(r.tokens.LastHistoryId(), b) && HistoryOk(r) && EventsBelow(r, b.height)
    ensures FreshAll(r, b.data, History) && HistoryOk(WriteAll(r, b.data))
    ensures EventsBelow(WriteAll(r, b.data), b.height + 1)
    decreases |b.data|
  {
    hide FiledAs, IdsOk, Fresh, UndoLog.Write;
    if b.data != [] {
      var n := |b.data| - 1;
      var init := b.data[..n];
      var d := b.data[n];
      var at := WriteAll(r, init);
      if d.HistoryData? {
        assert Touches(d, History);
        BlockElsewhere(r.tokens, r.ordinals, r, init, History);
        FilingKeeps(at, b.height, d);
        FreshAlike(r, at, d, History);
        forall i | 0 <= i < n ensures Fresh(r, b.data[i], History) {
          FreshAlike(r, r, b.data[i], History);
        }
      } else {
        BlockKeepsIds(r, Block(b.height, init));
        WriteElsewhere(at, d, History);
        FreshAlike(r, r, d, History);
      }
    }
  }

  lemma EmptyIds()
    ensures HistoryOk(EMPTY) && forall h :: EventsBelow(EMPTY, h)
  {
  }

  const START := Node(EMPTY, map[], None)

  lemma StartTracks(k: Table)
    ensures Tracks(START, EMPTY, [], 0, k)
  {
  }
}
