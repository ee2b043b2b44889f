/** Blocks can be handled: every valid one on good tables unless it panics, a coinbase alone as well by the
    shortcut as in full, and a first one on the empty database. */
module HandledExists {
  import opened Base
  import opened Ledger
  import opened Leaked
  import opened Routing
  import opened BlockParser
  import opened OwnRecords
  import opened Pipeline
  import opened UndoLog
  import opened HistoryRuns
  import opened Handler
  import opened HandledBlocks
  import opened HandledRuns
  import CacheRefinement
  import Lifecycle
  import Positions
  import Prevouts

  // ---- the positions a block leaves exist ----

  ghost function LeakedLocations(env: Env, p: Progress): set<Location>
    requires Balanced(env.txs, env.prevouts)
  {
    set key | key in p.leaked && CoinbaseLocation(env.txs[0], Reward(env.txs, env.prevouts), key).Some?
      :: CoinbaseLocation(env.txs[0], Reward(env.txs, env.prevouts), key).value
  }

  ghost function OffsetsOn(locations: set<Location>, o: OutPoint): set<nat>
  {
    set l | l in locations && l.outpoint == o :: l.offset
  }

  ghost function OutPointsOf(locations: set<Location>): set<OutPoint>
  {
    set l | l in locations :: l.outpoint
  }

  ghost function WithLeaked(env: Env, p: Progress): Offsets
    requires Balanced(env.txs, env.prevouts)
  {
    var leaked := LeakedLocations(env, p);
    map o | o in p.offsets.Keys + OutPointsOf(leaked) :: Get(p.offsets, o, {}) + OffsetsOn(leaked, o)
  }

  lemma LeakedLocationsAre(env: Env, p: Progress, l: Location)
    requires Balanced(env.txs, env.prevouts)
    ensures l in LeakedLocations(env, p) <==> LeakedAt(env, p.leaked, l)
  {
    if LeakedAt(env, p.leaked, l) {
      var key :| key in p.leaked && CoinbaseLocation(env.txs[0], Reward(env.txs, env.prevouts), key) == Some(l);
      assert CoinbaseLocation(env.txs[0], Reward(env.txs, env.prevouts), key).value == l;
    }
  }

  lemma WithLeakedLeft(env: Env, p: Progress)
    requires Balanced(env.txs, env.prevouts)
    ensures OffsetsLeft(env, p, WithLeaked(env, p))
  {
    hide Balanced, LeakedLocations, LeakedAt;
    var offsets := WithLeaked(env, p);
    var leaked := LeakedLocations(env, p);
    forall l ensures At(offsets, l) <==> At(p.offsets, l) || LeakedAt(env, p.leaked, l) {
      LeakedLocationsAre(env, p, l);
      if l in leaked {
        assert l.outpoint in OutPointsOf(leaked) && l.offset in OffsetsOn(leaked, l.outpoint);
      }
    }
    forall o | o in offsets && o !in p.offsets ensures exists x :: At(offsets, Location(o, x)) {
      var l :| l in leaked && l.outpoint == o;
      assert l.offset in OffsetsOn(leaked, o);
      assert At(offsets, Location(o, l.offset));
    }
  }

  /** On good tables every acceptable block whose inputs are found can be handled, unless it panics. */
  lemma BlockPossible(w: World, r: Rows, env: Env, start: nat)
    requires Reflects(w, r, w.holders) && WorldOk(w) && BlockOk(w, env) && Balanced(env.txs, env.prevouts)
    requires LookedUp(r, env) == Some(env.prevouts)
    requires start <= env.height && |env.txs| != 1 ==> Drained(r, w.holders, env).Done?
    ensures exists b: Handled :: b.env == env && b.start == start && HandledOn(w, r, b)
  {
    hide WorldOk, BlockOk, Balanced, LookedUp, OffsetsLeft, ParsedOn, Drained;
    WithLeakedLeft(env, ParsedOn(r, env));
    var full := start <= env.height && |env.txs| != 1;
    var o := if full then Drained(r, w.holders, env) else Done(State(map[], map[], map[], map[]), w.holders, []);
    var b := Handled(env, start, w.holders, ParsedOn(r, env), WithLeaked(env, ParsedOn(r, env)), o.state, o.index, o.log, map[], BlockInfo(0, 0), 0);
    assert HandledOn(w, r, b);
  }

  /** With an agreeing holder index and own records nothing panics. */
  lemma BlockHandled(w: World, r: Rows, env: Env, start: nat)
    requires Reflects(w, r, w.holders) && WorldOk(w) && BlockOk(w, env) && Balanced(env.txs, env.prevouts)
    requires LookedUp(r, env) == Some(env.prevouts) && HoldersOk(w) && SameTransfers(ParsedOn(r, env).actions)
    ensures exists b: Handled :: b.env == env && b.start == start && HandledOn(w, r, b)
  {
    hide WorldOk, BlockOk, Balanced, LookedUp, ParsedOn, Drained, SameTransfers, HandledOn;
    PanicsOnlyStale(w, r, w.holders, env);
    BlockPossible(w, r, env, start);
  }

  // ---- the coinbase shortcut ----

  lemma NothingSpent(w: World, env: Env)
    requires BlockOk(w, env) && |env.txs| == 1
    ensures env.prevouts == map[]
  {
    hide Positions.Ok, NewTxs, Positions.Spends;
    assert env.prevouts.Keys == {};
  }

  /** A block of a coinbase alone parses to nothing. */
  lemma NothingParsed(w: World, env: Env, partials: map<OutPoint, Partials>)
    requires Balanced(env.txs, env.prevouts) && |env.txs| == 1 && env.prevouts == map[]
    ensures var p := Parsed(env, LoadedWith(w, env, partials));
            p.actions == [] && p.all == map[] && forall l :: !Positions.Occupied(env, p, l)
  {
    assert CacheRefinement.LoadTransfers(w.ledger.transfers, map[]) == map[];
  }

  lemma NothingCached(g: CacheRefinement.Tables)
    ensures var c := CacheRefinement.LoadedCache(g, map[], map[], []);
            c.valid == map[] && c.all == map[] && c.accounts == map[]
            && CacheRefinement.LoadTransfers(g.transfers, map[]) == map[] && forall k :: k in c.tokens ==> k in g.metas && c.tokens[k] == g.metas[k]
  {
    assert CacheRefinement.LoadTransfers(g.transfers, map[]) == map[];
  }

  lemma NothingDrained(g: CacheRefinement.Tables, h: Index)
    ensures var valid := CacheRefinement.LoadTransfers(g.transfers, map[]);
            var c := CacheRefinement.LoadedCache(g, map[], map[], []);
            Run(c, h, []) == Done(c, h, []) && CacheRefinement.WriteBack(g, valid, c) == g
  {
    hide CacheRefinement.LoadedCache, CacheRefinement.LoadTransfers;
    NothingCached(g);
    var c := CacheRefinement.LoadedCache(g, map[], map[], []);
    assert g.metas + c.tokens == g.metas;
    assert CacheRefinement.TransferKeys(map[]) == {} && CacheRefinement.TransferRows(map[]) == map[];
  }

  /** Skipping a block of a coinbase alone is exactly what parsing and draining it would do, up to how
      the empty rows of the offset table are kept. */
  lemma ShortcutIsFull(w: World, env: Env, partials: map<OutPoint, Partials>, w': World)
    requires BlockOk(w, env) && Balanced(env.txs, env.prevouts) && |env.txs| == 1
    requires forall l :: At(w'.offsets, l) <==> At(w.offsets, l)
    ensures BlockEffect(w, env, partials, w') <==> SkipEffect(w, env, w'.(offsets := w.offsets))
  {
    hide BlockOk, Balanced, SpendEffect, InBlock, Run, CacheRefinement.LoadedCache, CacheRefinement.WriteBack, CacheRefinement.LoadTransfers, Positions.Occupied, At, Parsed;
    NothingSpent(w, env);
    NothingParsed(w, env, partials);
    NothingDrained(w.ledger, w.holders);
    assert w.log + [] == w.log;
  }

  // ---- a first block ----

  ghost function {:induction false} Listing(s: set<nat>): (xs: seq<nat>)
    ensures Lists(xs, s)
    decreases |s|
  {
    if s == {} then []
    else
      var x :| x in s;
      var rest := Listing(s - {x});
      [x] + rest
  }

  /** A block that holds just a coinbase. */
  ghost function FirstEnv(coinbase: Tx): Env
  {
    Env([coinbase], map[], false, false, 0, 0, (o: OutPoint, s: set<nat>) => Listing(s), (c, b) => None)
  }

  lemma FirstEnvOk(coinbase: Tx)
    requires coinbase.coinbase
    ensures var env := FirstEnv(coinbase); Balanced(env.txs, env.prevouts) && Positions.Ok(env) && Lifecycle.DistinctStarts(env)
  {
  }

  lemma FirstLookedUp(coinbase: Tx)
    requires coinbase.coinbase
    ensures LookedUp(EMPTY, FirstEnv(coinbase)) == Some(FirstEnv(coinbase).prevouts)
  {
    hide Prevouts.Batch, Prevouts.Written, Prevouts.Spent;
    CoinbaseSpendsNothing(coinbase);
  }

  /** The empty database accepts a block that holds just a coinbase, whatever it pays. */
  lemma FirstBlockOk(coinbase: Tx)
    requires coinbase.coinbase
    ensures var env := FirstEnv(coinbase);
            BlockOk(GENESIS, env) && Balanced(env.txs, env.prevouts) && LookedUp(EMPTY, env) == Some(env.prevouts)
    ensures Reflects(GENESIS, EMPTY, GENESIS.holders) && WorldOk(GENESIS) && RowsOk(GENESIS, EMPTY)
  {
    hide WorldOk, LookedUp, Lifecycle.DistinctStarts, Positions.Ok, Balanced;
    GenesisOk();
    FirstEnvOk(coinbase);
    FirstLookedUp(coinbase);
  }

  lemma CoinbaseSpendsNothing(coinbase: Tx)
    requires coinbase.coinbase
    ensures Prevouts.Spent([coinbase]) == {}
    ensures forall own :: Prevouts.Batch(map[], own, {}) == Some(map[])
  {
    assert [coinbase][..0] == [];
    forall own ensures Prevouts.Batch(map[], own, {}) == Some(map[]) {
      assert Prevouts.Batch(map[], own, {}).value == map[];
    }
  }
}
