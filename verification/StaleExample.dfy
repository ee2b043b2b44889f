/** A valid stream on which the indexer dies: a block that burns a token's last holding is rolled back and
    mined again, and the holder index, which no rollback restores, stands at zero. */
module StaleExample {
  import opened Base
  import opened Ledger
  import opened HolderIndex
  import opened StaleHolders
  import opened CacheRefinement
  import opened TokenCacheStore
  import opened Routing
  import opened BlockParser
  import opened OwnRecords
  import opened Pipeline
  import opened UndoLog
  import opened ReorgStore
  import opened Consumer
  import opened ReorgRuns
  import opened ReorgOutputs
  import opened HistoryRuns
  import opened Handler
  import opened HandledBlocks
  import opened HandledRuns
  import opened HandledChain
  import opened HandledReorgs
  import opened BlockStreams
  import opened IndexerLoop
  import opened StaleBlocks

  const NO_HOLDERS: Index := Index(map[], map[])

  lemma NoHolders()
    ensures Agree(NO_HOLDERS, map[])
  {
  }

  // ---- the ledger ----

  function Record(s: Scene): TransferProto
  {
    TransferProto(s.tick, s.amt.units, 32)
  }

  function Holding(s: Scene): AddressToken
  {
    AddressToken(s.owner, s.tick)
  }

  /** All of the token is locked in the one outstanding transfer. */
  ghost predicate Locked(s: Scene, tokens: map<LowerTick, TokenMeta>, accounts: map<AddressToken, TokenBalance>, valid: map<Location, ValidTransfer>)
  {
    && Spot(s, 2) in valid && valid[Spot(s, 2)] == ValidTransfer(s.owner, Record(s))
    && TotalOf(accounts, Holding(s)) == s.amt.units
    && s.tick.lower in tokens && tokens[s.tick.lower].proto.tick == s.tick
  }

  ghost predicate CountIs(h: Index, t: Tick, n: nat)
  {
    t in h.stats && h.stats[t] == n
  }

  lemma DeployRuns(s: Scene, st: State, a: TokenAction)
    requires a.Deploy? && a.proto.tick == s.tick && a.proto.dec == MAX_DEC && a.proto.max == a.proto.lim == s.amt.units && a.proto.supply == 0
    requires st.tokens == map[] && st.accounts == map[] && st.valid == map[]
    ensures var o := Step(st, NO_HOLDERS, a);
            && o.Done? && o.index == NO_HOLDERS && o.state.accounts == map[] && o.state.valid == map[] && o.state.all == st.all
            && o.state.tokens == map[s.tick.lower := TokenMeta(a.genesis, a.proto)]
  {
  }

  lemma MintRuns(s: Scene, st: State, p: DeployProto, genesis: OutPoint)
    requires SceneOk(s) && p.tick == s.tick && p.dec == MAX_DEC && p.max == p.lim == s.amt.units && p.supply == 0
    requires st.tokens == map[s.tick.lower := TokenMeta(genesis, p)] && st.accounts == map[] && st.valid == map[]
    ensures var o := Step(st, NO_HOLDERS, Mint(s.owner, s.tick, s.amt, 3, 1));
            && o.Done? && CountIs(o.index, s.tick, 1) && o.state.valid == map[] && o.state.all == st.all
            && s.tick.lower in o.state.tokens && o.state.tokens[s.tick.lower].proto.tick == s.tick && o.state.tokens[s.tick.lower].proto.dec == MAX_DEC
            && Holding(s) in o.state.accounts && o.state.accounts[Holding(s)].balance == s.amt.units && o.state.accounts[Holding(s)].transferable == 0
  {
  }

  lemma LockRuns(s: Scene, st: State, h: Index)
    requires SceneOk(s) && st.all == map[Spot(s, 2) := Record(s)] && st.valid == map[]
    requires s.tick.lower in st.tokens && st.tokens[s.tick.lower].proto.tick == s.tick && st.tokens[s.tick.lower].proto.dec == MAX_DEC
    requires Holding(s) in st.accounts && st.accounts[Holding(s)].balance == s.amt.units && st.accounts[Holding(s)].transferable == 0
    ensures var o := Step(st, h, Transfer(Spot(s, 2), s.owner, s.tick, s.amt, 3, 2));
            && o.Done? && o.index == h && o.state.all == map[] && o.state.valid.Keys == {Spot(s, 2)}
            && Locked(s, o.state.tokens, o.state.accounts, o.state.valid)
  {
  }

  /** From the empty ledger: one token, one account, all of it in one outstanding transfer, one holder. */
  lemma BatchRuns(s: Scene, actions: seq<TokenAction>)
    requires SceneOk(s) && Batch(s, actions)
    ensures var o := Run(State(map[], map[], map[Spot(s, 2) := Record(s)], map[]), NO_HOLDERS, actions);
            && o.Done? && CountIs(o.index, s.tick, 1) && o.state.all == map[] && o.state.valid.Keys == {Spot(s, 2)}
            && Locked(s, o.state.tokens, o.state.accounts, o.state.valid)
  {
    hide Step, SceneOk, Locked, CountIs, Run;
    var st := State(map[], map[], map[Spot(s, 2) := Record(s)], map[]);
    DeployRuns(s, st, actions[0]);
    var a := Step(st, NO_HOLDERS, actions[0]);
    MintRuns(s, a.state, actions[0].proto, actions[0].genesis);
    var b := Step(a.state, a.index, actions[1]);
    LockRuns(s, b.state, b.index);
    RunThree(st, NO_HOLDERS, actions);
  }

  function Burnt(s: Scene): TokenAction
  {
    Transferred(Spot(s, 2), OP_RETURN_HASH, 5, 0)
  }

  /** Burning it takes the tick's count down by one. */
  lemma BurnRuns(s: Scene, st: State, h: Index)
    requires Locked(s, st.tokens, st.accounts, st.valid) && CountIs(h, s.tick, 1) && Step(st, h, Burnt(s)).Done?
    ensures CountIs(Step(st, h, Burnt(s)).index, s.tick, 0)
  {
  }

  lemma RunOne(st: State, h: Index, a: TokenAction)
    ensures Run(st, h, [a]).Done? <==> Step(st, h, a).Done?
    ensures Run(st, h, [a]).Done? ==> Run(st, h, [a]).index == Step(st, h, a).index
  {
    assert [a][1..] == [];
  }

  /** With the count at zero it panics. */
  lemma BurnSticks(s: Scene, st: State, h: Index)
    requires Locked(s, st.tokens, st.accounts, st.valid) && CountIs(h, s.tick, 0)
    ensures Sticks(st, h, [Burnt(s)])
  {
    hide Step;
    assert CountStuck(st, h, [Burnt(s)][0]);
  }

  // ---- the tables after the second block ----

  /** The transfer is outstanding, at a recorded inscription, and all of the token. */
  ghost predicate Ready(s: Scene, r: Rows)
  {
    && OneOwner(r.tokens.transfers) && Locked(s, r.tokens.metas, r.tokens.balances, ByLocation(r.tokens.transfers))
    && OutPoint(3, 2) in r.ordinals.offsets && r.ordinals.offsets[OutPoint(3, 2)] == {0} && OutPoint(3, 2) !in r.ordinals.partials
  }

  lemma BurnStart(s: Scene, w: World, r: Rows, env: Env)
    requires Reflects(w, r, w.holders) && WorldOk(w) && BlockOk(w, env) && Ready(s, r) && Burns(s, env)
    ensures var p := StartOn(r, env);
            p.offsets == map[OutPoint(3, 2) := {0}] && p.partials == map[] && p.actions == [] && Spot(s, 2) in p.all
  {
    hide WorldOk, BlockOk, LoadTransfers, ByLocation;
    LoadedIff(w, env, Spot(s, 2));
  }

  /** On such tables the burn is all the block queues. */
  lemma BurnBatch(s: Scene, w: World, r: Rows, env: Env)
    requires SceneOk(s) && Reflects(w, r, w.holders) && WorldOk(w) && BlockOk(w, env) && Ready(s, r) && Burns(s, env) && Balanced(env.txs, env.prevouts)
    ensures ParsedOn(r, env).actions == [Burnt(s)]
    ensures var st := Whole(LedgerOf(r), ParsedOn(r, env).all); Locked(s, st.tokens, st.accounts, st.valid)
  {
    hide WorldOk, BlockOk, Parsed, StartOn, Burns, Locked, Balanced, SceneOk;
    BurnStart(s, w, r, env);
    BurnParsed(s, env, StartOn(r, env));
  }

  /** Tables with nothing in them but outputs. */
  ghost predicate Bare(r: Rows)
  {
    LedgerOf(r) == CacheRefinement.Tables(map[], map[], map[]) && r.ordinals.offsets == map[] && r.ordinals.partials == map[]
  }

  lemma OpeningBare(b: Handled)
    requires !Full(b)
    ensures Bare(RowsOf([b]))
  {
    hide RowsAfter;
    assert [b][..0] == [];
    assert RowsOf([b]) == RowsAfter(RowsOf([]), b);
    ShortRows(EMPTY, b);
  }

  lemma BareStart(r: Rows, env: Env)
    requires Bare(r)
    ensures var p := StartOn(r, env);
            p.offsets == map[] && p.partials == map[] && p.leaked == map[] && p.actions == [] && p.all == map[]
    ensures OneOwner(r.tokens.transfers) && Whole(LedgerOf(r), map[]) == State(map[], map[], map[], map[])
  {
    assert LoadTransfers(map[], env.prevouts) == map[] && ByLocation(map[]) == map[];
  }

  /** The second block drained on the empty ledger. */
  lemma MakingDrained(s: Scene, w: World, r: Rows, b: Handled)
    requires SceneOk(s) && HandledOn(w, r, b) && Full(b) && Bare(r) && Makes(s, b.env) && SameTransfers(b.p.actions) && b.before == NO_HOLDERS
    ensures CountIs(b.after, s.tick, 1)
    ensures var t := RowsAfter(r, b).tokens;
            && OneOwner(t.transfers) && ByLocation(t.transfers).Keys == {Spot(s, 2)} && Locked(s, t.metas, t.balances, ByLocation(t.transfers))
  {
    hide WorldOk, BlockOk, Parsed, StartOn, Run, LoadedCache, WriteBack, LoadTransfers, RowsAfter, Balanced, SameTransfers, Makes, Batch, Locked, CountIs, OffsetsLeft, LookedUp, Sticks, Sound, LoadedWith, SceneOk, ByLocation, OneOwner, Bare;
    BareStart(r, b.env);
    MakeParsed(s, b.env, StartOn(r, b.env));
    LoadedRows(w, r, b.env);
    BlockRuns(w, b.env, Only(r.ordinals.partials, b.env.prevouts.Keys));
    BatchRuns(s, b.p.actions);
    LedgerEffectHolds(w, r, b);
  }

  lemma MakingParsed(s: Scene, w: World, r: Rows, b: Handled)
    requires SceneOk(s) && HandledOn(w, r, b) && Full(b) && Bare(r) && Makes(s, b.env)
    ensures Balanced(b.env.txs, b.env.prevouts) && OffsetsLeft(b.env, b.p, b.offsets)
    ensures b.p.offsets == MadeOffsets() && b.p.leaked == map[] && b.p.partials == map[]
  {
    hide WorldOk, BlockOk, Parsed, StartOn, Drained, Balanced, Makes, LookedUp, SceneOk, Batch, MadeOffsets, OffsetsLeft, Bare;
    BareStart(r, b.env);
    MakeParsed(s, b.env, StartOn(r, b.env));
  }

  lemma MakingOrdinals(s: Scene, w: World, r: Rows, b: Handled)
    requires SceneOk(s) && HandledOn(w, r, b) && Full(b) && Bare(r) && Makes(s, b.env)
    ensures var o := RowsAfter(r, b).ordinals;
            OutPoint(3, 2) in o.offsets && o.offsets[OutPoint(3, 2)] == {0} && o.partials == map[]
  {
    hide HandledOn, RowsAfter, Balanced, Makes, SceneOk, MadeOffsets, OffsetsLeft;
    MakingParsed(s, w, r, b);
    OrdinalsAfter(r, b);
    OffsetLeft(b.env, b.p, b.offsets);
  }

  lemma OffsetLeft(env: Env, p: Progress, offsets: Offsets)
    requires Balanced(env.txs, env.prevouts) && OffsetsLeft(env, p, offsets) && p.offsets == MadeOffsets() && p.leaked == map[]
    ensures OutPoint(3, 2) in offsets && offsets[OutPoint(3, 2)] == {0}
  {
    hide Balanced;
    var o := OutPoint(3, 2);
    assert o in p.offsets && p.offsets[o] == {0};
    hide MadeOffsets;
    forall x: nat ensures At(offsets, Location(o, x)) <==> x == 0 {
      assert !LeakedAt(env, p.leaked, Location(o, x));
    }
    assert At(offsets, Location(o, 0));
    assert offsets[o] == {0} by {
      forall x | x in offsets[o] ensures x == 0 {
        assert At(offsets, Location(o, x));
      }
    }
  }

  // ---- any run over the stream ----

  /** What a run over the first three events goes through. */
  ghost predicate Reaches(s: Scene, ms: seq<Moment>, bs: seq<Handled>)
  {
    && |ms| == 4 && |bs| == 3 && ms[3].chain == [bs[0], bs[1], bs[2]] && ms[3].cached == 3
    && ms[3].holders == bs[2].after && bs[2].before == bs[1].after && bs[1].before == NO_HOLDERS
    && !Full(bs[0]) && Full(bs[1]) && Full(bs[2])
    && bs[1].env == Env2(s) && bs[2].env == Env3(s, 4)
  }

  /** A run of the indexer over the first three events of the stream, from the empty database. */
  ghost predicate Begins(s: Scene, ms: seq<Moment>, bs: seq<Handled>)
  {
    Ran(Moment(START, NO_HOLDERS, [], 0), ms, bs, [], Stream(s)[..3], 0, TrueValues(s))
  }

  lemma StepIs(m: Moment, e: ChainEvent, b: Handled, val: Values, next: Moment)
    requires RunStep(m, e, b, val, next) && StandsOn(m, val)
    ensures b.env == Resolved(e.block, val) && b.before == m.holders && next.holders == b.after && (!Full(b) ==> b.after == m.holders)
    ensures REORG_CACHE_MAX_LEN <= e.tip && m.cached <= |m.chain| && next.chain == Left(m.chain, m.cached, e) + [b]
    ensures next.cached == CachedAfter(m.cached, e)
  {
    hide StandsOn, Rolled, Valid, SameTransfers, RolledRows, Left, Follows, DataOf, BlocksOf;
    AcceptsResolved(m, e, b, val);
    AdvancedCached(m, e, b);
  }

  lemma AdvancedCached(m: Moment, e: ChainEvent, b: Handled)
    requires Accepts(m, e, b)
    ensures Advanced(m, e, b).cached == CachedAfter(m.cached, e)
  {
    hide Rolled, RolledRows, WorkedOut, Follows, Next, BlocksOf, DataOf;
  }

  lemma StepsOf(s: Scene, ms: seq<Moment>, bs: seq<Handled>, i: nat)
    requires Begins(s, ms, bs) && i < 3
    ensures |ms| == 4 && |bs| == 3 && bs[i].start == 0
    ensures StandsOn(ms[i], TrueValues(s)) && RunStep(ms[i], Stream(s)[i], bs[i], TrueValues(s), ms[i + 1])
  {
    assert |Stream(s)[..3]| == 3 && Stream(s)[..3][i] == Stream(s)[i];
    hide StandsOn, RunStep, Stream, TrueValues, IndexedTo;
    RunStands(ms, Stream(s)[..3], bs, TrueValues(s), i);
  }

  /** What one event of the stream does to chain, cache and holder index. */
  ghost predicate Stepped(s: Scene, m: Moment, e: ChainEvent, b: Handled, next: Moment)
  {
    && b.start == 0 && b.env == Resolved(e.block, TrueValues(s)) && b.before == m.holders && next.holders == b.after
    && (!Full(b) ==> b.after == m.holders)
    && REORG_CACHE_MAX_LEN <= e.tip && m.cached <= |m.chain| && next.chain == Left(m.chain, m.cached, e) + [b]
    && next.cached == CachedAfter(m.cached, e)
  }

  lemma StepsAre(s: Scene, ms: seq<Moment>, bs: seq<Handled>, i: nat)
    requires Begins(s, ms, bs) && i < 3
    ensures |ms| == 4 && |bs| == 3 && Stepped(s, ms[i], Stream(s)[i], bs[i], ms[i + 1])
  {
    var e := Stream(s)[i];
    StepsOf(s, ms, bs, i);
    hide Begins, StandsOn, RunStep, TrueValues, Stream;
    StepIs(ms[i], e, bs[i], TrueValues(s), ms[i + 1]);
  }

  lemma BeginsAt(s: Scene, ms: seq<Moment>, bs: seq<Handled>)
    requires Begins(s, ms, bs)
    ensures |ms| > 0 && ms[0].chain == [] && ms[0].cached == 0 && ms[0].holders == NO_HOLDERS
  {
    hide StandsOn, RunStep, Stream, TrueValues;
  }

  lemma SceneBlocks(s: Scene)
    ensures Resolved(Making(s), TrueValues(s)) == Env2(s) && Resolved(Burning(s, 4), TrueValues(s)) == Env3(s, 4)
    ensures |Opening(s).txs| == 1 && |Making(s).txs| == |Burning(s, 4).txs| == 2
  {
    hide Extends, TrueValues, TxidsIn, UnspentAfter;
    MakingValid(s);
    BurningValid(s, 4);
  }

  lemma Grows(s: Scene, m: Moment, e: ChainEvent, b: Handled, next: Moment)
    requires Stepped(s, m, e, b, next) && e.tip == 60 && e.reorgLen == 0 && 30 < e.block.height && m.cached < REORG_CACHE_MAX_LEN
    ensures next.chain == m.chain + [b] && next.cached == m.cached + 1
    ensures b.start == 0 && b.env == Resolved(e.block, TrueValues(s)) && b.before == m.holders && next.holders == b.after
    ensures Full(b) <==> |e.block.txs| != 1
    ensures |e.block.txs| == 1 ==> next.holders == m.holders
  {
    hide TrueValues;
    assert m.chain[..|m.chain|] == m.chain;
  }

  lemma BeginsReaches(s: Scene, ms: seq<Moment>, bs: seq<Handled>)
    requires Begins(s, ms, bs)
    ensures Reaches(s, ms, bs)
  {
    hide Begins, TrueValues, Opening, Making, Burning, Env2, Env3, Stepped, Resolved;
    var es := Stream(s);
    StepsAre(s, ms, bs, 0);
    StepsAre(s, ms, bs, 1);
    StepsAre(s, ms, bs, 2);
    BeginsAt(s, ms, bs);
    Heights(s);
    SceneBlocks(s);
    Grows(s, ms[0], es[0], bs[0], ms[1]);
    Grows(s, ms[1], es[1], bs[1], ms[2]);
    Grows(s, ms[2], es[2], bs[2], ms[3]);
  }

  // ---- what the first three events leave ----

  lemma EnvsAre(s: Scene)
    ensures Makes(s, Env2(s)) && Burns(s, Env3(s, 4)) && Burns(s, Env3(s, 6))
  {
    hide Make, Burn;
  }

  /** On what the coinbase left, the second block leaves the transfer ready, and one holder. */
  lemma MakingLeaves(s: Scene, b0: Handled, b1: Handled, val: Values)
    requires SceneOk(s) && Top([b0], b1, val) && !Full(b0) && Full(b1) && b1.env == Env2(s) && b1.before == NO_HOLDERS
    ensures Ready(s, RowsOf([b0, b1])) && CountIs(b1.after, s.tick, 1)
  {
    hide HandledOn, SameTransfers, HigherThan, OutputsAgree, Locked, CountIs, Makes, Bare, Env2, RowsAfter, ByLocation, OneOwner, WorldOf, SceneOk;
    EnvsAre(s);
    OpeningBare(b0);
    var w, r := Under(WorldOf([b0]), b1.before), RowsOf([b0]);
    MakingDrained(s, w, r, b1);
    MakingOrdinals(s, w, r, b1);
    assert [b0, b1][..1] == [b0];
    assert RowsOf([b0, b1]) == RowsAfter(r, b1);
  }

  /** The burn takes the last holder away. */
  lemma BurningLeaves(s: Scene, left: seq<Handled>, b: Handled, val: Values)
    requires SceneOk(s) && Top(left, b, val) && Full(b) && b.env == Env3(s, 4) && CountIs(b.before, s.tick, 1) && Ready(s, RowsOf(left))
    ensures CountIs(b.after, s.tick, 0)
  {
    hide WorldOk, BlockOk, SameTransfers, HigherThan, OutputsAgree, Locked, CountIs, Burns, Env3, ByLocation, OneOwner, WorldOf, RowsOf, SceneOk, Parsed, StartOn, Run, LoadedCache, WriteBack, LoadTransfers, Sticks, Sound, LoadedWith, OffsetsLeft, LookedUp, Balanced, Ready, Step, Whole;
    EnvsAre(s);
    var w, r := Under(WorldOf(left), b.before), RowsOf(left);
    BurnBatch(s, w, r, b.env);
    LoadedRows(w, r, b.env);
    BlockRuns(w, b.env, Only(r.ordinals.partials, b.env.prevouts.Keys));
    var st := Whole(LedgerOf(r), b.p.all);
    RunOne(st, b.before, Burnt(s));
    BurnRuns(s, st, b.before);
  }

  lemma BeginsIndexed(s: Scene, ms: seq<Moment>, bs: seq<Handled>)
    requires Begins(s, ms, bs)
    ensures |ms| == 4 && IndexedTo(ms[3], Stream(s)[..3], TrueValues(s)) && StandsOn(ms[3], TrueValues(s))
  {
    hide StandsOn, RunStep, Stream, TrueValues, Surviving, SameBlocks, Ran;
    RanNow(Moment(START, NO_HOLDERS, [], 0), ms, bs, [], Stream(s)[..3], 0, TrueValues(s));
    assert [] + Stream(s)[..3] == Stream(s)[..3];
  }

  lemma ThreeLeave(s: Scene, ms: seq<Moment>, bs: seq<Handled>, val: Values)
    requires SceneOk(s) && Reaches(s, ms, bs) && WellHandled(ms[3].chain, val)
    ensures CountIs(ms[3].holders, s.tick, 0) && Ready(s, RowsOf([bs[0], bs[1]]))
  {
    hide Top, SceneOk, WellHandled, Ready, CountIs, RowsOf, Env2, Env3, Full;
    var chain := ms[3].chain;
    WellPrefix(chain, 1, val);
    WellPrefix(chain, 2, val);
    assert chain[..1] == [bs[0]] && chain[..2] == [bs[0], bs[1]];
    MakingLeaves(s, bs[0], bs[1], val);
    BurningLeaves(s, chain[..2], bs[2], val);
  }

  lemma StandsWell(m: Moment, val: Values)
    requires StandsOn(m, val)
    ensures WellHandled(m.chain, val)
  {
    hide Tracks, TracksOutputs, WellHandled;
  }

  // ---- the burn mined again ----

  lemma ReadyAgain(s: Scene, r: Rows, t: Rows)
    requires Ready(s, t) && forall k :: Restorable(k) ==> Part(r, k) == Part(t, k)
    ensures Ready(s, r)
  {
    hide Locked, OneOwner, ByLocation, Part, Restorable;
    SameTables(r, t);
  }

  lemma OneApart(a: TokenAction)
    requires a.Transferred?
    ensures SameTransfers([a])
  {
  }

  /** On good tables where the transfer is ready, under an index whose count for the tick is zero, draining
      the burn panics. */
  lemma BurnPanics(s: Scene, w: World, r: Rows, h: Index, env: Env)
    requires SceneOk(s) && Reflects(w, r, h) && WorldOk(w) && BlockOk(w, env) && Ready(s, r) && Burns(s, env) && CountIs(h, s.tick, 0)
    ensures Balanced(env.txs, env.prevouts) && Drained(r, h, env).Panic?
  {
    hide WorldOk, BlockOk, ParsedOn, Drained, Burns, Ready, Locked, Balanced, SceneOk, CountIs, SameTransfers, Sticks, Agree, Whole;
    BlockBalanced(w, env);
    BurnBatch(s, w, r, env);
    OneApart(Burnt(s));
    PanicsOnlyStale(w, r, h, env);
    BurnSticks(s, Whole(LedgerOf(r), ParsedOn(r, env).all), h);
  }

  lemma LastLeaves(s: Scene, m: Moment, bs: seq<Handled>)
    requires |bs| == 3 && m.chain == [bs[0], bs[1], bs[2]] && m.cached == 3
    ensures Stream(s)[3].tip == 60 && Left(m.chain, m.cached, Stream(s)[3]) == [bs[0], bs[1]]
  {
  }

  lemma LastEnv(s: Scene)
    ensures var e := Stream(s)[3]; Resolved(e.block, TrueValues(s)) == Env3(s, 6) && e.block.height == 33 && |e.block.txs| == 2
  {
    hide Extends, TrueValues, TxidsIn, UnspentAfter, Opening, Making;
    BurningValid(s, 6);
  }

  lemma LastFollows(s: Scene, m: Moment)
    requires IndexedTo(m, Stream(s)[..3], TrueValues(s))
    ensures Stream(s)[3].tip == 60 && Follows(Rolled(m.node, WithData(Stream(s)[3], [])).1, Stream(s)[3].block.height)
    ensures Valid(Left(m.chain, m.cached, Stream(s)[3]), Stream(s)[3].block, TrueValues(s))
  {
    assert Stream(s)[3].tip == 60;
    hide Stream, TrueValues, StandsOn, IndexedTo, InOrder, ValidAt, Surviving, Rolled, Follows, Valid, Left;
    RemineStreamValid(s);
    StreamInOrder(s);
    var es := Stream(s);
    assert ValidAt(es, 3, TrueValues(s)) && InOrder(Surviving(es[..3]), es[3]);
    StreamStands(m, es, 3, TrueValues(s));
  }

  /** In every run over the first three events, from the empty database and an empty holder index, the
      fourth, which mines the burn again, kills the indexer. */
  lemma RemineDies(s: Scene, ms: seq<Moment>, bs: seq<Handled>)
    requires SceneOk(s) && Begins(s, ms, bs)
    ensures |ms| == 4 && Dies(ms[3], Stream(s)[3], 0, TrueValues(s))
  {
    hide Begins, Stream, TrueValues, StandsOn, IndexedTo, Rolled, Follows, Valid, Left, Resolved, Env2, Env3, Makes, Burns, Ready, CountIs, SceneOk, WorldOk, BlockOk, RolledRows, Drained, Balanced, WellHandled, RowsOf, LookedUp, Restorable, Part, Over, WorldOf, Full;
    var val, e := TrueValues(s), Stream(s)[3];
    BeginsIndexed(s, ms, bs);
    BeginsReaches(s, ms, bs);
    var m := ms[3];
    LastLeaves(s, m, bs);
    LastFollows(s, m);
    LastEnv(s);
    EnvsAre(s);
    StandsWell(m, val);
    ThreeLeave(s, ms, bs, val);
    RolledBack(m, e, val);
    ReadyAgain(s, RolledRows(m, e), RowsOf([bs[0], bs[1]]));
    EventHandleable(m, e, 0, val);
    BurnPanics(s, Actual([bs[0], bs[1]], RolledRows(m, e), m.holders), RolledRows(m, e), m.holders, Env3(s, 6));
  }

  // ---- the indexer on the stream ----

  ghost function Empty(): Moment
  {
    Moment(START, NO_HOLDERS, [], 0)
  }

  lemma StreamTip(s: Scene, k: nat)
    requires k < 4
    ensures Stream(s)[k].tip == 60 && (k < 3 ==> Stream(s)[k].reorgLen == 0)
  {
  }

  lemma ApartAlong(s: Scene, k: nat, m: Moment)
    requires SceneOk(s) && k < 4 && IndexedTo(m, Stream(s)[..k], TrueValues(s))
    ensures Stream(s)[k].tip == 60 && Apart(m, Stream(s)[k], 0, TrueValues(s))
  {
    hide Stream, TrueValues, StandsOn, IndexedTo, ValidAt, Surviving, Rolled, Follows, Valid, Left, SceneOk, Apart;
    StreamTip(s, k);
    RemineStreamValid(s);
    StreamStands(m, Stream(s), k, TrueValues(s));
    StreamApart(s, k, m, 0);
  }

  lemma StreamMayRun(s: Scene)
    requires SceneOk(s)
    ensures MayRun(Empty(), [], Stream(s), 0, TrueValues(s))
  {
    hide Stream, TrueValues, StandsOn, IndexedTo, ValidAt, Surviving, SceneOk, Apart, Empty;
    RemineStreamValid(s);
    StartIndexed(NO_HOLDERS, TrueValues(s));
    EmptyIs();
    assert [] + Stream(s) == Stream(s);
    forall k: nat, m: Moment | k < |Stream(s)| && IndexedTo(m, [] + Stream(s)[..k], TrueValues(s)) ensures ApartFor(m, Stream(s)[k], 0, TrueValues(s)) {
      assert [] + Stream(s)[..k] == Stream(s)[..k];
      ApartAlong(s, k, m);
    }
  }

  lemma EmptyIs()
    ensures Empty() == Moment(START, NO_HOLDERS, [], 0) && Agree(Empty().holders, Empty().node.rows.tokens.balances)
  {
  }

  lemma NoneOutOfOrder(s: Scene, n: nat)
    ensures !OutOfOrder([], Stream(s), n)
  {
    hide Stream, InOrder, Surviving;
    StreamInOrder(s);
    if n < |Stream(s)| {
      assert [] + Stream(s)[..n] == Stream(s)[..n];
    }
  }

  /** An indexed event did not die. */
  lemma DoneNotDead(m: Moment, e: ChainEvent, b: Handled, val: Values, next: Moment)
    requires StandsOn(m, val) && RunStep(m, e, b, val, next) && b.start == 0
    ensures !Dies(m, e, 0, val)
  {
    hide StandsOn, Rolled, Valid, Left, RolledRows, LookedUp, Drained, Balanced, Follows;
    AcceptsResolved(m, e, b, val);
  }

  /** The event loop on this valid stream indexes three events and dies of the fourth. */
  method Remine(indexer: Indexer, events: seq<ChainEvent>, ghost s: Scene) returns (ending: Ending, n: nat)
    requires SceneOk(s) && events == Stream(s) && indexer.startHeight == 0
    requires indexer.State() == START && indexer.holders.Contents() == NO_HOLDERS
    modifies indexer, indexer.db, indexer.cache, indexer.holders
    ensures ending.Died? && n == 3
  {
    hide Stream, TrueValues, StandsOn, IndexedTo, SceneOk, MayRun, Ran, Dies, OutOfOrder, Agree, Begins, RolledFor;
    StreamMayRun(s);
    EmptyIs();
    ghost var ms, bs;
    ending, n, ms, bs := indexer.Index(events, Empty(), [], TrueValues(s));
    NoneOutOfOrder(s, n);
    RanNow(Empty(), ms, bs, [], events[..n], 0, TrueValues(s));
    StreamEnds(s, ending, n, ms, bs);
  }

  lemma StreamEnds(s: Scene, ending: Ending, n: nat, ms: seq<Moment>, bs: seq<Handled>)
    requires SceneOk(s) && n <= 4 && Ran(Empty(), ms, bs, [], Stream(s)[..n], 0, TrueValues(s))
    requires (ending.Indexed? <==> n == 4) && !ending.MissingOutput? && !ending.WrongHeight?
    requires ending.Died? ==> RolledBefore(Stream(s), n + 1)
    requires |ms| == n + 1 && (ending.Died? <==> n < 4 && Dies(ms[n], Stream(s)[n], 0, TrueValues(s)))
    ensures ending.Died? && n == 3
  {
    hide Stream, TrueValues, StandsOn, IndexedTo, SceneOk, Ran, Dies, Begins;
    StreamTip(s, 0);
    StreamTip(s, 1);
    StreamTip(s, 2);
    if n == 4 {
      RanNow(Empty(), ms, bs, [], Stream(s)[..4], 0, TrueValues(s));
      RanBefore(Empty(), ms, bs, [], Stream(s)[..4], 3, 0, TrueValues(s));
      assert Stream(s)[..4][..3] == Stream(s)[..3];
      BeginsIs(s, ms[..4], bs[..3]);
      RemineDies(s, ms[..4], bs[..3]);
      LastStep(s, ms, bs);
    }
  }

  lemma BeginsIs(s: Scene, ms: seq<Moment>, bs: seq<Handled>)
    ensures Begins(s, ms, bs) <==> Ran(Empty(), ms, bs, [], Stream(s)[..3], 0, TrueValues(s))
  {
    hide Ran, Stream, TrueValues;
  }

  lemma LastStep(s: Scene, ms: seq<Moment>, bs: seq<Handled>)
    requires Ran(Empty(), ms, bs, [], Stream(s)[..4], 0, TrueValues(s))
    ensures |ms| == 5 && !Dies(ms[3], Stream(s)[3], 0, TrueValues(s))
  {
    hide Stream, TrueValues, StandsOn, RunStep, Dies, Empty, IndexedTo;
    RunStands(ms, Stream(s)[..4], bs, TrueValues(s), 3);
    assert RunStep(ms[3], Stream(s)[..4][3], bs[3], TrueValues(s), ms[4]);
    DoneNotDead(ms[3], Stream(s)[3], bs[3], TrueValues(s), ms[4]);
  }
}
