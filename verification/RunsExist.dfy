/** Runs exist: an event in order whose block does not panic is indexed, so every valid stream without
    rollbacks has a run. */
module RunsExist {
  import opened Ledger
  import opened HolderIndex
  import opened CacheRefinement
  import opened Routing
  import opened BlockParser
  import opened OwnRecords
  import opened Pipeline
  import opened UndoLog
  import opened ReorgStore
  import opened Consumer
  import opened ReorgRuns
  import opened ReorgOutputs
  import opened HistoryRuns
  import opened Handler
  import opened HandledBlocks
  import opened HandledExists
  import opened HandledChain
  import opened HandledReorgs
  import opened BlockStreams
  import opened IndexerLoop

  /** Parsed and drained in full, the event's block neither panics nor pushes transfers at odds. */
  ghost predicate Harmless(m: Moment, e: ChainEvent, start: nat, val: Values)
    requires REORG_CACHE_MAX_LEN <= e.tip
  {
    var env := Resolved(e.block, val);
    start <= env.height && |env.txs| != 1 && Balanced(env.txs, env.prevouts) ==>
      Drained(RolledRows(m, e), m.holders, env).Done? && SameTransfers(ParsedOn(RolledRows(m, e), env).actions)
  }

  ghost predicate Does(m: Moment, e: ChainEvent, start: nat, b: Handled)
  {
    b.start == start && Accepts(m, e, b) && (Full(b) ==> SameTransfers(b.p.actions))
  }

  /** An event in order, on a valid stream, whose block does not panic, is indexed. */
  lemma EventPossible(m: Moment, es: seq<ChainEvent>, n: nat, start: nat, val: Values)
    requires TipsOk(es) && n < |es| && ValidAt(es, n, val) && IndexedTo(m, es[..n], val) && InOrder(Surviving(es[..n]), es[n])
    requires Harmless(m, es[n], start, val)
    ensures exists b: Handled :: Does(m, es[n], start, b)
  {
    hide StandsOn, Rolled, InOrder, Surviving, SameBlocks, Valid, Left, WorldOk, BlockOk, ParsedOn, Drained, SameTransfers, RolledRows, LookedUp, WorldOf, Balanced, Extends, NewTxs;
    var e := es[n];
    StreamStands(m, es, n, val);
    EventHandleable(m, e, start, val);
    var w, r, env := Actual(Left(m.chain, m.cached, e), RolledRows(m, e), m.holders), RolledRows(m, e), Resolved(e.block, val);
    assert Balanced(env.txs, env.prevouts) by { BlockBalanced(w, env); }
    SameLookUp(r, e.block, env);
    BlockPossible(w, r, env, start);
    var b: Handled :| b.env == env && b.start == start && HandledOn(w, r, b);
    StandsCached(m, val);
    assert Full(b) ==> b.p == ParsedOn(r, env);
    assert Does(m, e, start, b);
  }

  lemma StandsCached(m: Moment, val: Values)
    requires StandsOn(m, val)
    ensures m.cached <= |m.chain|
  {
    hide Tracks, TracksOutputs, WellHandled;
  }

  lemma NextIndexed(m: Moment, es: seq<ChainEvent>, n: nat, b: Handled, val: Values)
    requires TipsOk(es) && n < |es| && Accepts(m, es[n], b) && StandsOn(Advanced(m, es[n], b), val)
    requires var s := Surviving(es[..n]);
             SameBlocks(Advanced(m, es[n], b).chain, Left(s.blocks, s.cached, es[n]) + [es[n].block])
             && Advanced(m, es[n], b).cached == CachedAfter(s.cached, es[n])
    ensures IndexedTo(Advanced(m, es[n], b), es[..n + 1], val)
  {
    hide StandsOn, SameBlocks, Left, Accepts, Advanced;
    assert es[..n + 1][..n] == es[..n];
  }

  // ---- streams without rollbacks ----

  /** On an agreeing holder index, no block without transfers at odds panics. */
  lemma AgreeingHarmless(m: Moment, es: seq<ChainEvent>, n: nat, start: nat, val: Values)
    requires TipsOk(es) && n < |es| && ValidAt(es, n, val) && IndexedTo(m, es[..n], val)
    requires Apart(m, es[n], start, val) && Agree(m.holders, RolledRows(m, es[n]).tokens.balances)
    ensures Harmless(m, es[n], start, val)
  {
    hide StandsOn, Rolled, InOrder, Surviving, SameBlocks, Valid, Left, WorldOk, BlockOk, ParsedOn, Drained, SameTransfers, RolledRows, LookedUp, WorldOf, Balanced, Extends, NewTxs, Agree, LedgerOf;
    var e := es[n];
    StreamStands(m, es, n, val);
    EventHandleable(m, e, start, val);
    var env := Resolved(e.block, val);
    if start <= env.height && |env.txs| != 1 && Balanced(env.txs, env.prevouts) {
      PanicsOnlyStale(Actual(Left(m.chain, m.cached, e), RolledRows(m, e), m.holders), RolledRows(m, e), m.holders, env);
    }
  }

  /** The first `n` events: in order, without rollbacks, and no transfers at odds. */
  ghost predicate Forward(es: seq<ChainEvent>, n: nat, start: nat, val: Values)
    requires TipsOk(es)
  {
    forall i :: 0 <= i < n && i < |es| ==> ForwardAt(es, i, start, val)
  }

  ghost predicate ForwardAt(es: seq<ChainEvent>, i: nat, start: nat, val: Values)
    requires TipsOk(es) && i < |es|
  {
    && es[i].reorgLen == 0 && InOrder(Surviving(es[..i]), es[i])
    && forall m :: IndexedTo(m, es[..i], val) ==> Apart(m, es[i], start, val)
  }

  lemma ForwardWork(m: Moment, es: seq<ChainEvent>, n: nat, start: nat, val: Values) returns (b: Handled)
    requires TipsOk(es) && n < |es| && ValidAt(es, n, val) && IndexedTo(m, es[..n], val)
    requires ForwardAt(es, n, start, val) && Agree(m.holders, m.node.rows.tokens.balances)
    ensures b.start == start && Accepts(m, es[n], b) && RunStep(m, es[n], b, val, Advanced(m, es[n], b))
    ensures IndexedTo(Advanced(m, es[n], b), es[..n + 1], val)
    ensures Agree(Advanced(m, es[n], b).holders, Advanced(m, es[n], b).node.rows.tokens.balances)
  {
    hide StandsOn, Rolled, Surviving, SameBlocks, Valid, Left, RolledRows, Accepts, ValidAt, SameTransfers, InOrder, Advanced, Agree, Harmless, Apart, IndexedTo;
    NothingRolled(m, es[n]);
    AgreeingHarmless(m, es, n, start, val);
    EventPossible(m, es, n, start, val);
    b :| Does(m, es[n], start, b);
    IndexedStands(m, es[..n], val);
    StreamStands(m, es, n, val);
    EventIndexed(m, es, n, b, start, val);
    EventAgrees(m, es[n], b, val);
  }

  lemma IndexedStands(m: Moment, es: seq<ChainEvent>, val: Values)
    requires IndexedTo(m, es, val)
    ensures StandsOn(m, val)
  {
    hide StandsOn;
  }

  /** A valid stream in order has a run for as long as nothing is rolled back, from an empty holder index, and
      the index agrees with the balances all along. */
  lemma {:induction false} ForwardRuns(es: seq<ChainEvent>, n: nat, start: nat, h: Index, val: Values) returns (ms: seq<Moment>, bs: seq<Handled>)
    requires ValidStream(es, val) && n <= |es| && Forward(es, n, start, val) && Agree(h, map[])
    ensures RunsOn(ms, es[..n], bs, val) && ms[0] == Moment(START, h, [], 0) && IndexedTo(ms[n], es[..n], val)
    ensures forall i :: 0 <= i < n ==> bs[i].start == start
    ensures Agree(ms[n].holders, ms[n].node.rows.tokens.balances)
    decreases n
  {
    hide StandsOn, Rolled, ForwardAt, Surviving, SameBlocks, Valid, Left, RolledRows, Accepts, ValidAt, SameTransfers, IndexedTo, RunStep, Agree;
    if n == 0 {
      ms, bs := [Moment(START, h, [], 0)], [];
      StartIndexed(h, val);
      StartStands(h, val);
      assert es[..0] == [];
    } else {
      ms, bs := ForwardRuns(es, n - 1, start, h, val);
      assert ValidAt(es, n - 1, val) && ForwardAt(es, n - 1, start, val);
      var b := ForwardWork(ms[n - 1], es, n - 1, start, val);
      var m' := Advanced(ms[n - 1], es[n - 1], b);
      RunGrows(ms, es, bs, n - 1, b, m', val);
      ms, bs := ms + [m'], bs + [b];
    }
  }
}
