/** Blocks without token messages, and runs of them: nothing is queued, so nothing can panic. */
module QuietBlocks {
  import opened Base
  import opened Ledger
  import opened CacheRefinement
  import opened TokenCacheStore
  import opened Searcher
  import opened ScriptSig
  import opened Routing
  import opened BlockParser
  import opened OwnRecords
  import opened Pipeline
  import opened UndoLog
  import opened ReorgStore
  import opened Consumer
  import opened ReorgRuns
  import opened ReorgOutputs
  import opened HistoryRuns
  import opened Handler
  import opened HandledRuns
  import opened HandledChain
  import opened HandledReorgs
  import opened BlockStreams
  import opened IndexerLoop
  import opened RunsExist

  ghost predicate NoMessages(env: Env)
  {
    forall c, b :: env.message(c, b).None?
  }

  predicate Idle(p: Progress)
  {
    p.actions == [] && p.all == map[]
  }

  lemma {:induction false} MovesIdle(env: Env, k: nat, i: nat, xs: seq<nat>, n: nat, p: Progress)
    requires Balanced(env.txs, env.prevouts) && 1 <= k < |env.txs| && i < |env.txs[k].inputs| && n <= |xs| && Idle(p)
    ensures Idle(Moves(env, k, i, xs, n, p))
    decreases n
  {
    if n > 0 {
      hide Balanced, Insert, File, FeesBefore;
      MovesIdle(env, k, i, xs, n - 1, p);
      LocateIs(env.txs[k].outputs, StartOf(env.txs[k], env.prevouts, i) + xs[n - 1]);
    }
  }

  lemma CreateIdle(env: Env, k: nat, i: nat, p: Progress)
    requires Balanced(env.txs, env.prevouts) && 1 <= k < |env.txs| && i < |env.txs[k].inputs| && Idle(p) && NoMessages(env)
    ensures Idle(CreateOne(env, k, i, p))
  {
    hide Reads, Insert, File, FeesBefore;
    LocateIs(env.txs[k].outputs, StartOf(env.txs[k], env.prevouts, i));
  }

  lemma {:induction false} InputsIdle(env: Env, k: nat, n: nat, p: Progress)
    requires Balanced(env.txs, env.prevouts) && 1 <= k < |env.txs| && n <= |env.txs[k].inputs| && Idle(p) && NoMessages(env)
    ensures Idle(Inputs(env, k, n, p))
    decreases n
  {
    hide CreateOne, Moves, Balanced, NoMessages;
    if n > 0 {
      InputsIdle(env, k, n - 1, p);
      var q := Inputs(env, k, n - 1, p);
      var o := env.txs[k].inputs[n - 1].outpoint;
      if o in q.offsets {
        var xs := env.order(o, q.offsets[o]);
        MovesIdle(env, k, n - 1, xs, |xs|, q.(offsets := q.offsets - {o}));
      }
      CreateIdle(env, k, n - 1, MoveInput(env, k, n - 1, q));
    }
  }

  lemma {:induction false} TxsIdle(env: Env, n: nat, p: Progress)
    requires Balanced(env.txs, env.prevouts) && 1 <= n <= |env.txs| && Idle(p) && NoMessages(env)
    ensures Idle(Txs(env, n, p))
    decreases n
  {
    hide Inputs, Balanced, NoMessages;
    if n > 1 {
      TxsIdle(env, n - 1, p);
      InputsIdle(env, n - 1, |env.txs[n - 1].inputs|, Txs(env, n - 1, p));
    }
  }

  /** On tables without outstanding transfers such a block queues nothing and cannot panic. */
  lemma QuietDrained(r: Rows, h: Index, env: Env)
    requires Balanced(env.txs, env.prevouts) && NoMessages(env) && r.tokens.transfers == map[]
    ensures ParsedOn(r, env).actions == [] && Drained(r, h, env).Done?
  {
    assert |env.txs| >= 1;
    hide Txs, Balanced, NoMessages, LoadedCache;
    assert LoadTransfers(r.tokens.transfers, env.prevouts) == map[];
    TxsIdle(env, |env.txs|, StartOn(r, env));
  }

  lemma QuietHarmless(m: Moment, e: ChainEvent, start: nat, val: Values)
    requires REORG_CACHE_MAX_LEN <= e.tip && NoMessages(e.block) && RolledRows(m, e).tokens.transfers == map[]
    ensures Harmless(m, e, start, val)
  {
    hide Rolled, ParsedOn, Drained, RolledRows, Balanced, NoMessages;
    var env := Resolved(e.block, val);
    if Balanced(env.txs, env.prevouts) {
      assert NoMessages(env) by { SameMessages(e.block, val); }
      QuietDrained(RolledRows(m, e), m.holders, env);
    }
  }

  lemma SameMessages(block: Env, val: Values)
    ensures NoMessages(Resolved(block, val)) == NoMessages(block)
  {
  }

  // ---- a run exists ----

  lemma QuietTop(chain: seq<Handled>, b: Handled, val: Values)
    requires Top(chain, b, val) && NoMessages(b.env) && RowsOf(chain).tokens.transfers == map[]
    ensures RowsAfter(RowsOf(chain), b).tokens.transfers == map[]
  {
    hide WorldOk, BlockOk, ParsedOn, LookedUp, OffsetsLeft, SameTransfers, HigherThan, OutputsAgree, Balanced, RowsOf, WorldOf, RowsAfter, NoMessages, LoadTransfers, TransferKeys, TransferRows;
    var r := RowsOf(chain);
    if Full(b) {
      QuietDrained(r, b.before, b.env);
      TokensAfter(r, b);
      QuietState(r, b);
    } else {
      ShortRows(r, b);
    }
  }

  lemma QuietState(r: Rows, b: Handled)
    requires Balanced(b.env.txs, b.env.prevouts) && b.p == ParsedOn(r, b.env) && b.p.actions == [] && r.tokens.transfers == map[]
    requires Drained(r, b.before, b.env) == Done(b.state, b.after, b.log)
    ensures (r.tokens.transfers - TransferKeys(LoadTransfers(r.tokens.transfers, b.env.prevouts))) + TransferRows(b.state.valid) == map[]
  {
    hide ParsedOn, Balanced;
    assert LoadTransfers(r.tokens.transfers, b.env.prevouts) == map[];
    assert b.state.valid == map[];
    assert TransferKeys(map[]) == {} && TransferRows(map[]) == map[];
  }

  lemma {:induction false} QuietChain(chain: seq<Handled>, val: Values)
    requires WellHandled(chain, val) && forall j :: 0 <= j < |chain| ==> NoMessages(chain[j].env)
    ensures RowsOf(chain).tokens.transfers == map[]
    decreases |chain|
  {
    hide Top, RowsAfter, NoMessages;
    if chain != [] {
      QuietChain(chain[..|chain| - 1], val);
      QuietTop(chain[..|chain| - 1], chain[|chain| - 1], val);
    }
  }

  lemma ChainQuiet(chain: seq<Handled>, blocks: seq<Env>, j: nat)
    requires SameBlocks(chain, blocks) && j < |chain| && NoMessages(blocks[j])
    ensures NoMessages(chain[j].env)
  {
    assert SameBlock(chain[j], blocks[j]);
  }

  ghost predicate QuietStream(es: seq<ChainEvent>)
    requires TipsOk(es)
  {
    && (forall i :: 0 <= i < |es| ==> NoMessages(es[i].block) && InOrder(Surviving(es[..i]), es[i]))
    && (forall i :: 0 <= i <= |es| ==> forall j :: 0 <= j < |Surviving(es[..i]).blocks| ==> NoMessages(Surviving(es[..i]).blocks[j]))
  }

  /** On such a stream the tables rolled back to hold no outstanding transfer. */
  lemma QuietRolled(m: Moment, es: seq<ChainEvent>, n: nat, val: Values)
    requires TipsOk(es) && QuietStream(es) && n < |es| && IndexedTo(m, es[..n], val)
    ensures RolledRows(m, es[n]).tokens.transfers == map[]
  {
    hide Tracks, TracksOutputs, RolledRows, Surviving, Over, NoMessages, WellHandled, Part, InOrder;
    var blocks := Surviving(es[..n]).blocks;
    var left := Left(m.chain, m.cached, es[n]);
    forall j | 0 <= j < |m.chain| ensures NoMessages(m.chain[j].env) {
      ChainQuiet(m.chain, blocks, j);
    }
    WellLeft(m.chain, m.cached, es[n], val);
    QuietChain(left, val);
    RolledBack(m, es[n], val);
    assert Restorable(Transfers);
    SameTransferRows(RolledRows(m, es[n]), RowsOf(left));
  }

  lemma SameTransferRows(r: Rows, s: Rows)
    requires Part(r, Transfers) == Part(s, Transfers)
    ensures r.tokens.transfers == s.tokens.transfers
  {
  }

  /** A quiet valid stream in order, rollbacks included, has a run: the whole-run theorem is about
      something. */
  lemma {:induction false} RunExists(es: seq<ChainEvent>, n: nat, start: nat, h: Index, val: Values) returns (ms: seq<Moment>, bs: seq<Handled>)
    requires ValidStream(es, val) && QuietStream(es) && n <= |es|
    ensures RunsOn(ms, es[..n], bs, val) && ms[0] == Moment(START, h, [], 0) && IndexedTo(ms[n], es[..n], val)
    ensures forall i :: 0 <= i < n ==> bs[i].start == start
    decreases n
  {
    hide StandsOn, Rolled, InOrder, Surviving, SameBlocks, Valid, Left, RolledRows, NoMessages, Accepts, ValidAt, SameTransfers, IndexedTo, QuietStream, RunStep;
    if n == 0 {
      ms, bs := [Moment(START, h, [], 0)], [];
      StartIndexed(h, val);
      StartStands(h, val);
      assert es[..0] == [];
    } else {
      ms, bs := RunExists(es, n - 1, start, h, val);
      var b := NextWork(ms[n - 1], es, n - 1, start, val);
      var m' := Advanced(ms[n - 1], es[n - 1], b);
      RunGrows(ms, es, bs, n - 1, b, m', val);
      ms, bs := ms + [m'], bs + [b];
    }
  }

  lemma NextWork(m: Moment, es: seq<ChainEvent>, n: nat, start: nat, val: Values) returns (b: Handled)
    requires ValidStream(es, val) && QuietStream(es) && n < |es| && IndexedTo(m, es[..n], val)
    ensures b.start == start && Accepts(m, es[n], b) && RunStep(m, es[n], b, val, Advanced(m, es[n], b))
    ensures IndexedTo(Advanced(m, es[n], b), es[..n + 1], val)
  {
    hide StandsOn, Rolled, Surviving, SameBlocks, Valid, Left, RolledRows, NoMessages, Accepts, ValidAt, SameTransfers, InOrder, Advanced;
    QuietRolled(m, es, n, val);
    assert ValidAt(es, n, val);
    QuietHarmless(m, es[n], start, val);
    EventPossible(m, es, n, start, val);
    b :| Does(m, es[n], start, b);
    StreamStands(m, es, n, val);
    EventStands(m, es[n], b, val);
    SurvivorsFollow(m, Surviving(es[..n]), es[n], b);
    assert es[..n + 1][..n] == es[..n];
    NextIndexed(m, es, n, b, val);
  }
}
