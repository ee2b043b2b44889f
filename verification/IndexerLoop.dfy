/** The indexer's event loop: roll back, check the height, handle the block, write its data. */
module IndexerLoop {
  import opened Base
  import opened Ledger
  import opened HolderIndex
  import opened HoldersStore
  import opened Routing
  import opened BlockParser
  import opened OwnRecords
  import opened Pipeline
  import opened UndoLog
  import opened UndoExact
  import opened ReorgStore
  import opened Consumer
  import opened ReorgRuns
  import opened ReorgOutputs
  import opened HistoryRuns
  import opened Handler
  import opened HandledBlocks
  import opened HandledChain
  import opened HandledReorgs
  import opened Restarts
  import opened BlockStreams
  import StaleHolders

  /** How an event ends: the error about its height, the error about a missing output, a panic, or done. */
  datatype Ending = WrongHeight | MissingOutput | Died | Indexed

  class Indexer {
    const db: Database
    const cache: ReorgCache
    const holders: Holders
    const startHeight: nat
    var prevHeight: Option<nat>

    function State(): Node
      reads this, db, cache
    {
      Node(db.Tables(), cache.blocks, prevHeight)
    }

    /** A starting server: the holder index built from the stored balances, nothing cached. */
    constructor (db: Database, startHeight: nat)
      ensures this.db == db && this.startHeight == startHeight && fresh(cache) && fresh(holders)
      ensures State() == Node(db.Tables(), map[], None) && Agree(holders.Contents(), db.tokens.balances)
    {
      this.db, this.startHeight, prevHeight := db, startHeight, None;
      cache := new ReorgCache();
      holders := new Holders(db.tokens.balances);
    }

    /** The write pass of one block. */
    method Write(height: nat, data: seq<ProcessedData>, handleReorgs: bool)
      requires AllWritable(db.Tables(), data) && Follows(cache.blocks, height)
      modifies db, cache
      ensures db.Tables() == WriteAll(old(db.Tables()), data)
      ensures cache.blocks == if handleReorgs then Opened(old(cache.blocks), height)[height := LogOf(old(db.Tables()), data)] else old(cache.blocks)
    {
      if handleReorgs {
        cache.NewBlock(height);
        NewIsLast(old(cache.blocks), height);
      }
      ghost var start := cache.blocks;
      for i := 0 to |data|
        invariant db.Tables() == WriteAll(old(db.Tables()), data[..i])
        invariant cache.blocks == if handleReorgs then start[height := LogOf(old(db.Tables()), data[..i])] else start
      {
        hide WriteAll, LogOf, UndoLog.Write, Writable;
        OneMore(old(db.Tables()), data, i);
        if handleReorgs {
          LogExtends(start, height, LogOf(old(db.Tables()), data[..i]), TokenEntries(db.tokens, data[i]), OrdinalEntries(db.ordinals, data[i]));
          cache.Write(data[i], db);
        } else {
          db.Store(data[i]);
        }
      }
      assert data[..|data|] == data;
    }

    /** Clears or keeps the cache, restores, checks the height. */
    method Roll(e: ChainEvent) returns (ok: bool)
      requires REORG_CACHE_MAX_LEN <= e.tip
      modifies db, cache
      ensures (db.Tables(), cache.blocks) == Rolled(old(State()), WithData(e, []))
      ensures ok <==> Follows(cache.blocks, e.block.height)
    {
      hide Popped;
      if cache.blocks != map[] && e.block.height <= e.tip - REORG_CACHE_MAX_LEN {
        cache.blocks := map[];
      }
      if e.reorgLen > 0 {
        cache.Restore(db, RestoreHeight(prevHeight, e.reorgLen));
      }
      if cache.blocks != map[] {
        LastExists(cache.blocks.Keys);
        var k: nat :| IsLast(cache.blocks.Keys, k);
        return k + 1 == e.block.height;
      }
      return true;
    }

    /** One block handled and written, all its inputs being found. */
    method Handle(e: ChainEvent, handleReorgs: bool, ghost w: World, ghost val: Values) returns (ending: Ending, ghost b: Handled)
      requires Handleable(w, db.Tables(), holders.Contents(), e.block, startHeight) && BlockOk(w, Resolved(e.block, val))
      requires LookedUp(db.Tables(), e.block) == Some(TrueInputs(e.block, val)) && Follows(cache.blocks, e.block.height)
      modifies db, cache, holders
      ensures ending.Died? || ending.Indexed?
      ensures ending.Died? ==> db.Tables() == old(db.Tables()) && cache.blocks == old(cache.blocks)
      ensures ending.Died? <==>
                && startHeight <= e.block.height && |e.block.txs| != 1
                && var env := Resolved(e.block, val);
                   Balanced(env.txs, env.prevouts) && Drained(old(db.Tables()), old(holders.Contents()), env).Panic?
      ensures ending.Indexed? ==>
                && WorkedOut(old(db.Tables()), old(holders.Contents()), b) && b.start == startHeight && b.env == Resolved(e.block, val)
                && db.Tables() == WriteAll(old(db.Tables()), DataOf(old(db.Tables()), b)) && holders.Contents() == b.after
                && cache.blocks == (if handleReorgs then Opened(old(cache.blocks), e.block.height)[e.block.height := LogOf(old(db.Tables()), DataOf(old(db.Tables()), b))]
                                    else old(cache.blocks))
    {
      hide Handleable, WorkedOut, Drained, BlockOk, AllWritable, LookedUp, TrueInputs, Balanced, Follows, DataOf, LogOf, WriteAll, Opened;
      ghost var r, h := db.Tables(), holders.Contents();
      var answer;
      answer, b := HandleBlock(db, holders, e.block, startHeight, e.addresses, e.info, e.proof, w);
      match answer
      case Missing => ending := MissingOutput;
      case Panicked => ending := Died;
      case Processed(data) =>
        WorkWritable(w, r, h, e.block, b, val);
        Write(e.block.height, data, handleReorgs);
        ending := Indexed;
    }

    /** One event on a moment of a run: `b` is the work done for its block. Its inputs are always found. */
    method OnEvent(e: ChainEvent, ghost m: Moment, ghost val: Values) returns (ending: Ending, ghost b: Handled)
      requires REORG_CACHE_MAX_LEN <= e.tip && m.node == State() && m.holders == holders.Contents()
      requires StandsOn(m, val) && Valid(Left(m.chain, m.cached, e), e.block, val)
      modifies this, db, cache, holders
      ensures ending.WrongHeight? <==> !Follows(Rolled(m.node, WithData(e, [])).1, e.block.height)
      ensures !ending.MissingOutput?
      ensures ending.Died? <==> Dies(m, e, startHeight, val)
      ensures ending.Indexed? ==>
                && Accepts(m, e, b) && b.start == startHeight
                && State() == Advanced(m, e, b).node && holders.Contents() == b.after
      ensures !ending.Indexed? ==> (db.Tables(), cache.blocks) == Rolled(m.node, WithData(e, []))
    {
      hide Rolled, StandsOn, Valid, Handleable, WorkedOut, Drained, WorldOk, BlockOk, LookedUp, TrueInputs, Balanced, Follows, DataOf, LogOf, WriteAll, Opened, Accepts, Advanced, Actual, Left;
      b := NoWork(e.block, startHeight, holders.Contents());
      var ok := Roll(e);
      if !ok {
        return WrongHeight, b;
      }
      EventHandleable(m, e, startHeight, val);
      ending, b := Handle(e, e.block.height > e.tip - REORG_CACHE_MAX_LEN, Actual(Left(m.chain, m.cached, e), RolledRows(m, e), m.holders), val);
      if ending.Indexed? {
        prevHeight := Some(e.block.height);
        Arrived(m, e, b, val);
      }
    }

    /** The event loop over a valid continuation of what the indexer stands on. However it ends, `n` events
        were indexed, as the run `ms` with the work `bs`, and of the next one no more than the rollback was
        done. Every output is found, an event is refused exactly when it is out of order, and the loop dies
        exactly when a block's drain panics, which on a holder index that agrees with the balances takes a
        rollback first. */
    method Index(events: seq<ChainEvent>, ghost m0: Moment, ghost past: seq<ChainEvent>, ghost val: Values)
      returns (ending: Ending, n: nat, ghost ms: seq<Moment>, ghost bs: seq<Handled>)
      requires MayRun(m0, past, events, startHeight, val) && m0.node == State() && m0.holders == holders.Contents()
      modifies this, db, cache, holders
      ensures n <= |events| && Ran(m0, ms, bs, past, events[..n], startHeight, val) && !ending.MissingOutput?
      ensures ending.Indexed? <==> n == |events|
      ensures ending.Indexed? ==> ms[n].node == State() && ms[n].holders == holders.Contents()
      ensures !ending.Indexed? ==> RolledFor(ms[n], events[n], db.Tables(), cache.blocks)
      ensures ending.WrongHeight? <==> OutOfOrder(past, events, n)
      ensures ending.Died? <==> n < |events| && Dies(ms[n], events[n], startHeight, val)
      ensures ending.Died? && Agree(m0.holders, m0.node.rows.tokens.balances) ==> RolledBefore(events, n + 1)
    {
      hide StandsOn, ValidAt, Accepts, Advanced, Rolled, Drained, Balanced, RolledRows, InOrder, Surviving, Follows, SameBlocks, Valid, Left, Agree, Resolved, IndexedTo, Dies, RunStep;
      ghost var es := past + events;
      ms, bs, n, ending := [m0], [], 0, Indexed;
      assert past + events[..0] == past;
      NothingRan(m0, past, startHeight, val);
      while n < |events|
        invariant n <= |events| && ending.Indexed? && Ran(m0, ms, bs, past, events[..n], startHeight, val)
        invariant ms[n].node == State() && ms[n].holders == holders.Contents()
        invariant Agree(m0.holders, m0.node.rows.tokens.balances) ==> RolledBefore(events, n) || Agree(ms[n].holders, ms[n].node.rows.tokens.balances)
      {
        RanNow(m0, ms, bs, past, events[..n], startHeight, val);
        ghost var m := ms[n];
        PastAnd(past, events, n);
        StreamStands(m, es, |past| + n, val);
        ghost var b: Handled;
        ending, b := OnEvent(events[n], m, val);
        if ending.Died? && Agree(m.holders, m.node.rows.tokens.balances) {
          DeathIsStale(m, es, |past| + n, startHeight, val);
        }
        if !ending.Indexed? {
          return;
        }
        EventIndexed(m, es, |past| + n, b, startHeight, val);
        if events[n].reorgLen == 0 && Agree(m.holders, m.node.rows.tokens.balances) {
          EventAgrees(m, events[n], b, val);
        }
        MoreRan(m0, ms, bs, past, events, n, b, Advanced(m, events[n], b), startHeight, val);
        ms, bs, n := ms + [Advanced(m, events[n], b)], bs + [b], n + 1;
      }
      assert past + events[..|events|] == es && events[..|events|] == events;
    }

    /** The loop, and when it ends everything cached undone; a panic skips that. However it ends, a new
        indexer may start from the tables: on the chain below the cache, or after a panic on the one the
        last event left standing. */
    method Run(events: seq<ChainEvent>, ghost m0: Moment, ghost past: seq<ChainEvent>, ghost val: Values)
      returns (ending: Ending, n: nat, ghost ms: seq<Moment>, ghost bs: seq<Handled>)
      requires MayRun(m0, past, events, startHeight, val) && m0.node == State() && m0.holders == holders.Contents()
      modifies this, db, cache, holders
      ensures n <= |events| && Ran(m0, ms, bs, past, events[..n], startHeight, val) && !ending.MissingOutput?
      ensures ending.Indexed? <==> n == |events|
      ensures ending.WrongHeight? <==> OutOfOrder(past, events, n)
      ensures Startable(db.Tables(), EndsOn(ms[n], ending, events, n), val)
    {
      hide StandsOn, Rolled, Popped, MayRun, OutOfOrder, Startable, EndsOn, Surviving, SameBlocks, RunStep, Dies;
      ending, n, ms, bs := Index(events, m0, past, val);
      ghost var r, blocks := db.Tables(), cache.blocks;
      RanNow(m0, ms, bs, past, events[..n], startHeight, val);
      if ending.Indexed? {
        IndexedStartable(ms[n], past + events[..n], events, n, val);
      } else {
        StoppedStartable(ms[n], ending, past, events, n, r, blocks, val);
      }
      if !ending.Died? {
        cache.RestoreAll(db);
      }
    }
  }

  // ---- the loop's proof ----

  /** `m` stands on the blocks that survive the events, each well handled. */
  ghost predicate IndexedTo(m: Moment, es: seq<ChainEvent>, val: Values)
  {
    TipsOk(es) && StandsOn(m, val) && SameBlocks(m.chain, Surviving(es).blocks) && m.cached == Surviving(es).cached
  }

  /** The events `es` after `past` were indexed from `m0` on, as the run `ms` with the work `bs`, which stands
      on the surviving blocks after each. */
  ghost predicate Ran(m0: Moment, ms: seq<Moment>, bs: seq<Handled>, past: seq<ChainEvent>, es: seq<ChainEvent>, start: nat, val: Values)
  {
    && RunsOn(ms, es, bs, val) && ms[0] == m0
    && (forall i :: 0 <= i < |ms| ==> IndexedTo(ms[i], past + es[..i], val))
    && (forall i :: 0 <= i < |bs| ==> bs[i].start == start)
  }

  lemma NothingRan(m: Moment, past: seq<ChainEvent>, start: nat, val: Values)
    requires IndexedTo(m, past, val)
    ensures Ran(m, [m], [], past, [], start, val)
  {
    hide StandsOn, Surviving, SameBlocks;
    assert past + [] == past;
  }

  lemma MoreRan(m0: Moment, ms: seq<Moment>, bs: seq<Handled>, past: seq<ChainEvent>, events: seq<ChainEvent>, n: nat, b: Handled, next: Moment, start: nat, val: Values)
    requires n < |events| && Ran(m0, ms, bs, past, events[..n], start, val)
    requires RunStep(ms[n], events[n], b, val, next) && b.start == start && IndexedTo(next, past + events[..n + 1], val)
    ensures Ran(m0, ms + [next], bs + [b], past, events[..n + 1], start, val)
  {
    hide RunStep, IndexedTo, StandsOn;
    RunGrows(ms, events, bs, n, b, next, val);
    forall i | 0 <= i < |ms + [next]| ensures IndexedTo((ms + [next])[i], past + events[..n + 1][..i], val) {
      if i <= n {
        assert events[..n + 1][..i] == events[..n][..i];
      } else {
        assert events[..n + 1][..i] == events[..n + 1];
      }
    }
  }

  /** What ran, ran up to any event of it. */
  lemma RanBefore(m0: Moment, ms: seq<Moment>, bs: seq<Handled>, past: seq<ChainEvent>, es: seq<ChainEvent>, k: nat, start: nat, val: Values)
    requires Ran(m0, ms, bs, past, es, start, val) && k <= |es|
    ensures Ran(m0, ms[..k + 1], bs[..k], past, es[..k], start, val)
  {
    hide RunStep, IndexedTo, StandsOn;
    forall i | 0 <= i < k + 1 ensures IndexedTo(ms[..k + 1][i], past + es[..k][..i], val) {
      assert es[..k][..i] == es[..i];
    }
    forall i | 0 <= i < k ensures RunStep(ms[..k + 1][i], es[..k][i], bs[..k][i], val, ms[..k + 1][i + 1]) {
      assert RunStep(ms[i], es[i], bs[i], val, ms[i + 1]);
    }
  }

  lemma RanNow(m0: Moment, ms: seq<Moment>, bs: seq<Handled>, past: seq<ChainEvent>, es: seq<ChainEvent>, start: nat, val: Values)
    requires Ran(m0, ms, bs, past, es, start, val)
    ensures |ms| == |es| + 1 && |bs| == |es| && IndexedTo(ms[|es|], past + es, val)
  {
    hide RunStep, IndexedTo, StandsOn;
    assert es[..|es|] == es;
  }

  /** Draining the event's block on the rolled-back tables panics. */
  ghost predicate Dies(m: Moment, e: ChainEvent, start: nat, val: Values)
  {
    && REORG_CACHE_MAX_LEN <= e.tip && Follows(Rolled(m.node, WithData(e, [])).1, e.block.height) && start <= e.block.height && |e.block.txs| != 1
    && var env := Resolved(e.block, val);
       Balanced(env.txs, env.prevouts) && Drained(RolledRows(m, e), m.holders, env).Panic?
  }

  /** The events continue what `m` stands on, and no block of theirs pushes transfers at odds on one
      location. */
  ghost predicate MayRun(m: Moment, past: seq<ChainEvent>, events: seq<ChainEvent>, start: nat, val: Values)
  {
    && IndexedTo(m, past, val) && ValidAfter(past, events, val)
    && forall k: nat, at: Moment :: k < |events| && IndexedTo(at, past + events[..k], val) ==> ApartFor(at, events[k], start, val)
  }

  ghost predicate ApartFor(m: Moment, e: ChainEvent, start: nat, val: Values)
  {
    REORG_CACHE_MAX_LEN <= e.tip ==> Apart(m, e, start, val)
  }

  /** Tables and cache are as the event's rollback left them. */
  ghost predicate RolledFor(m: Moment, e: ChainEvent, rows: Rows, blocks: Blocks)
  {
    REORG_CACHE_MAX_LEN <= e.tip && (rows, blocks) == Rolled(m.node, WithData(e, []))
  }

  /** Event `n` does not follow the blocks that survive before it. */
  ghost predicate OutOfOrder(past: seq<ChainEvent>, events: seq<ChainEvent>, n: nat)
  {
    && n < |events| && TipsOk(past + events[..n]) && REORG_CACHE_MAX_LEN <= events[n].tip
    && !InOrder(Surviving(past + events[..n]), events[n])
  }

  /** The chain the tables stand for when the loop has ended. */
  ghost function EndsOn(m: Moment, ending: Ending, events: seq<ChainEvent>, n: nat): seq<Handled>
  {
    if ending.Died? && n < |events| && REORG_CACHE_MAX_LEN <= events[n].tip then Left(m.chain, m.cached, events[n]) else BelowCache(m)
  }

  ghost predicate RolledBefore(es: seq<ChainEvent>, n: nat)
  {
    exists i :: 0 <= i < n && i < |es| && es[i].reorgLen > 0
  }

  lemma PastAnd(past: seq<ChainEvent>, events: seq<ChainEvent>, n: nat)
    requires n < |events|
    ensures (past + events)[|past| + n] == events[n] && (past + events)[..|past| + n] == past + events[..n]
    ensures (past + events)[..|past| + n + 1] == past + events[..n + 1]
  {
  }

  lemma StartIndexed(h: Index, val: Values)
    ensures IndexedTo(Moment(START, h, [], 0), [], val)
  {
    hide StandsOn;
    StartStands(h, val);
  }

  lemma StreamStands(m: Moment, es: seq<ChainEvent>, n: nat, val: Values)
    requires TipsOk(es) && n < |es| && ValidAt(es, n, val) && IndexedTo(m, es[..n], val)
    ensures StandsOn(m, val) && Valid(Left(m.chain, m.cached, es[n]), es[n].block, val)
    ensures Follows(Rolled(m.node, WithData(es[n], [])).1, es[n].block.height) <==> InOrder(Surviving(es[..n]), es[n])
  {
    hide StandsOn, ValidOn, Rolled, InOrder, Surviving, Follows, SameBlocks, Valid, Left;
    var s := Surviving(es[..n]);
    StreamValid(m.chain, s.blocks, s.cached, es[n], val);
    RefusedExactly(m, s, es[n], val);
  }

  lemma NothingRolled(m: Moment, e: ChainEvent)
    requires REORG_CACHE_MAX_LEN <= e.tip && e.reorgLen == 0
    ensures RolledRows(m, e) == m.node.rows
  {
  }

  /** On a holder index that agrees with the balances, only an event with a rollback can panic. */
  lemma DeathIsStale(m: Moment, es: seq<ChainEvent>, n: nat, start: nat, val: Values)
    requires TipsOk(es) && n < |es| && ValidAt(es, n, val) && IndexedTo(m, es[..n], val) && Dies(m, es[n], start, val)
    requires Apart(m, es[n], start, val) && Agree(m.holders, m.node.rows.tokens.balances)
    ensures es[n].reorgLen > 0
  {
    hide StandsOn, Rolled, InOrder, Surviving, SameBlocks, Valid, Left, WorldOk, BlockOk, ParsedOn, Drained, SameTransfers, RolledRows, LookedUp, LedgerOf, WorldOf, Agree, Balanced, StaleHolders.Sticks, Extends, HoldersOk;
    var e := es[n];
    StreamStands(m, es, n, val);
    if e.reorgLen == 0 {
      NothingRolled(m, e);
      EventHandleable(m, e, start, val);
      PanicsOnlyStale(Actual(Left(m.chain, m.cached, e), RolledRows(m, e), m.holders), RolledRows(m, e), m.holders, Resolved(e.block, val));
    }
  }

  lemma AcceptsResolved(m: Moment, e: ChainEvent, b: Handled, val: Values)
    requires StandsOn(m, val) && Accepts(m, e, b) && Valid(Left(m.chain, m.cached, e), e.block, val)
    ensures b.env == Resolved(e.block, val)
    ensures Full(b) ==> Balanced(b.env.txs, b.env.prevouts) && b.p == ParsedOn(RolledRows(m, e), b.env)
  {
    hide StandsOn, Rolled, Valid, Left, WorldOk, BlockOk, ParsedOn, Drained, RolledRows, LookedUp, WorldOf, Balanced, Follows;
    EventHandleable(m, e, 0, val);
    SameLookUp(RolledRows(m, e), e.block, b.env);
  }

  lemma ApartOnEvent(m: Moment, es: seq<ChainEvent>, n: nat, b: Handled, start: nat, val: Values)
    requires TipsOk(es) && n < |es| && ValidAt(es, n, val) && IndexedTo(m, es[..n], val) && Accepts(m, es[n], b) && b.start == start
    requires Apart(m, es[n], start, val)
    ensures Valid(Left(m.chain, m.cached, es[n]), es[n].block, val) && (Full(b) ==> SameTransfers(b.p.actions))
  {
    hide StandsOn, Rolled, InOrder, Surviving, SameBlocks, Valid, Left, ParsedOn, SameTransfers, RolledRows, Balanced, Extends, WorkedOut, Follows;
    StreamStands(m, es, n, val);
    AcceptsResolved(m, es[n], b, val);
  }

  lemma EventIndexed(m: Moment, es: seq<ChainEvent>, n: nat, b: Handled, start: nat, val: Values)
    requires TipsOk(es) && n < |es| && ValidAt(es, n, val) && IndexedTo(m, es[..n], val) && Accepts(m, es[n], b) && b.start == start
    requires Apart(m, es[n], start, val)
    ensures IndexedTo(Advanced(m, es[n], b), es[..n + 1], val) && Advanced(m, es[n], b).holders == b.after
    ensures RunStep(m, es[n], b, val, Advanced(m, es[n], b))
  {
    hide StandsOn, Rolled, InOrder, SameBlocks, Valid, Left, SameTransfers, RolledRows, WorkedOut, Follows, ValidAt, Next, DataOf, Extended, Apart;
    var e := es[n];
    ApartOnEvent(m, es, n, b, start, val);
    EventStands(m, e, b, val);
    assert es[..n + 1][..n] == es[..n];
    SurvivorsFollow(m, Surviving(es[..n]), e, b);
  }

  /** Without a rollback an agreeing holder index stays one. */
  lemma EventAgrees(m: Moment, e: ChainEvent, b: Handled, val: Values)
    requires Accepts(m, e, b) && StandsOn(m, val) && RunStep(m, e, b, val, Advanced(m, e, b)) && e.reorgLen == 0 && Agree(m.holders, m.node.rows.tokens.balances)
    ensures Agree(b.after, Advanced(m, e, b).node.rows.tokens.balances)
  {
    hide StandsOn, Rolled, Valid, Left, SameTransfers, RolledRows, Agree, WorkedOut, Follows, Advanced;
    NothingRolled(m, e);
    HoldersFollow(m, e, b, val);
  }

  lemma SurvivorsFollow(m: Moment, s: Survivors, e: ChainEvent, b: Handled)
    requires Accepts(m, e, b) && SameBlocks(m.chain, s.blocks) && m.cached == s.cached
    ensures SameBlocks(Advanced(m, e, b).chain, Left(s.blocks, s.cached, e) + [e.block]) && Advanced(m, e, b).cached == CachedAfter(s.cached, e)
  {
    hide Rolled, Left, RolledRows, WorkedOut, Follows, Next, BlocksOf, DataOf;
    LeftSame(m.chain, s.blocks, s.cached, e);
    assert SameBlock(b, e.block);
  }

  /** The indexer's state after an accepted event. */
  lemma Arrived(m: Moment, e: ChainEvent, b: Handled, val: Values)
    requires REORG_CACHE_MAX_LEN <= e.tip && StandsOn(m, val) && Follows(Rolled(m.node, WithData(e, [])).1, e.block.height)
    requires WorkedOut(RolledRows(m, e), m.holders, b) && b.env == Resolved(e.block, val)
    ensures Accepts(m, e, b)
    ensures var (r, blocks) := Rolled(m.node, WithData(e, []));
            var data := DataOf(r, b);
            Advanced(m, e, b).node ==
            Node(WriteAll(r, data),
                 if e.block.height > e.tip - REORG_CACHE_MAX_LEN then Opened(blocks, e.block.height)[e.block.height := LogOf(r, data)] else blocks,
                 Some(e.block.height))
  {
    hide Rolled, Next, WorkedOut, Follows, DataOf, LogOf, WriteAll, Opened, Tracks, TracksOutputs, WellHandled, Extended, Left;
    NextIs(m.node, e, DataOf(RolledRows(m, e), b));
  }

  ghost function NoWork(block: Env, start: nat, h: Index): Handled
  {
    Handled(block, start, h, Progress(map[], map[], map[], 0, [], map[]), map[], State(map[], map[], map[], map[]), h, [], map[], BlockInfo(0, 0), 0)
  }

  lemma WorkWritable(w: World, r: Rows, h: Index, block: Env, b: Handled, val: Values)
    requires Handleable(w, r, h, block, b.start) && BlockOk(w, Resolved(block, val)) && WorkedOut(r, h, b)
    requires LookedUp(r, block) == Some(TrueInputs(block, val)) && b.env == block.(prevouts := b.env.prevouts)
    ensures b.env == Resolved(block, val) && AllWritable(r, DataOf(r, b))
  {
    hide WorldOk, BlockOk, AllWritable, DataOf;
    SameLookUp(r, block, b.env);
    HandledWritable(w, r, b);
  }

  lemma NextIs(n: Node, e: ChainEvent, data: seq<ProcessedData>)
    requires REORG_CACHE_MAX_LEN <= e.tip && Follows(Rolled(n, WithData(e, [])).1, e.block.height)
    ensures var (r, blocks) := Rolled(n, WithData(e, []));
            Next(n, WithData(e, data)) ==
            Some(Node(WriteAll(r, data),
                      if e.block.height > e.tip - REORG_CACHE_MAX_LEN then Opened(blocks, e.block.height)[e.block.height := LogOf(r, data)] else blocks,
                      Some(e.block.height)))
  {
    hide Popped, WriteAll, LogOf, Opened;
  }

  // ---- stopping and starting again ----

  lemma IndexedStartable(m: Moment, es: seq<ChainEvent>, events: seq<ChainEvent>, n: nat, val: Values)
    requires IndexedTo(m, es, val)
    ensures Startable(Popped(m.node.rows, m.node.blocks, 0).0, EndsOn(m, Indexed, events, n), val)
  {
    hide StandsOn, Popped, SameBlocks, Surviving, BelowCache, Reopened;
    var rows := Popped(m.node.rows, m.node.blocks, 0).0;
    forall h: Index ensures StandsOn(Reopened(rows, h, BelowCache(m)), val) {
      RestartStands(m, h, val);
    }
  }

  lemma StoppedStartable(m: Moment, ending: Ending, past: seq<ChainEvent>, events: seq<ChainEvent>, n: nat, r: Rows, blocks: Blocks, val: Values)
    requires n < |events| && IndexedTo(m, past + events[..n], val) && RolledFor(m, events[n], r, blocks)
    requires ending.Died? || (ending.WrongHeight? && OutOfOrder(past, events, n))
    ensures Startable(if ending.Died? then r else Popped(r, blocks, 0).0, EndsOn(m, ending, events, n), val)
  {
    hide StandsOn, Popped, SameBlocks, Surviving, BelowCache, Reopened, Rolled, InOrder, Follows, Left;
    var e, rows, chain := events[n], if ending.Died? then r else Popped(r, blocks, 0).0, EndsOn(m, ending, events, n);
    forall h: Index ensures StandsOn(Reopened(rows, h, chain), val) {
      if ending.Died? {
        DiedStands(m, e, h, val);
      } else {
        RefusedExactly(m, Surviving(past + events[..n]), e, val);
        RefusedStands(m, e, h, val);
      }
    }
  }

  function EnvsOf(chain: seq<Handled>): seq<Env>
  {
    seq(|chain|, i requires 0 <= i < |chain| => chain[i].env)
  }

  /** So a new indexer on these tables may run on any valid continuation of that chain. */
  lemma StartAgain(rows: Rows, h: Index, chain: seq<Handled>, val: Values)
    requires Startable(rows, chain, val)
    ensures IndexedTo(Reopened(rows, h, chain), PastOf(EnvsOf(chain)), val)
  {
    hide StandsOn, Surviving;
    PastLeaves(EnvsOf(chain));
    forall j | 0 <= j < |chain| ensures SameBlock(chain[j], EnvsOf(chain)[j]) {
    }
  }
}
