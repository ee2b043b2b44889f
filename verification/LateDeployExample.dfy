/** A deploy finished in a later block is logged on an output that is already indexed: two inscriptions of
    one transaction, of which the second is completed later, name the same genesis. */
module LateDeployExample {
  import opened Base
  import opened Ledger
  import opened TokenCacheStore
  import opened Searcher
  import opened ScriptSig
  import opened Routing
  import opened BlockParser
  import opened Positions
  import opened Pipeline
  import opened UndoLog
  import opened ReorgOutputs
  import opened HandledExists
  import opened HandledChain
  import opened HandledReorgs
  import opened BlockStreams
  import opened ExampleBlocks
  import opened SharedStarts
  import opened EventIndex
  import opened EventReorgs
  import MultiPart
  import Prevouts

  // ---- an inscription in two scriptSigs ----

  function HalfPushes(x: Byte): (ps: seq<MultiPart.Push>)
    ensures MultiPart.AllWf(ps)
  {
    assert |PROTOCOL_ID| == 3;
    [MultiPart.Direct(PROTOCOL_ID), MultiPart.OpN(2), MultiPart.Op0, MultiPart.OpN(1), MultiPart.Direct([x])]
  }

  function RestPushes(y: Byte): (ps: seq<MultiPart.Push>)
    ensures MultiPart.AllWf(ps)
  {
    [MultiPart.Op0, MultiPart.Direct([y])]
  }

  function Half(x: Byte): Bytes
  {
    MultiPart.EncodeAll(HalfPushes(x))
  }

  function Rest(y: Byte): Bytes
  {
    MultiPart.EncodeAll(RestPushes(y))
  }

  lemma Numbers()
    ensures Number(MultiPart.Payload(MultiPart.OpN(1))) == Some(1) && Number(MultiPart.Payload(MultiPart.OpN(2))) == Some(2)
    ensures Number(MultiPart.Payload(MultiPart.Op0)) == Some(0)
  {
    var one, two, none := MultiPart.Payload(MultiPart.OpN(1)), MultiPart.Payload(MultiPart.OpN(2)), MultiPart.Payload(MultiPart.Op0);
    assert one[1..] == [] && two[1..] == [] && Value(one[1..]) == 0 && none == [];
  }

  function HalfPart(x: Byte): MultiPart.Part
  {
    MultiPart.Part([MultiPart.Piece(MultiPart.OpN(1), MultiPart.Direct([x]))], [])
  }

  lemma HalfFits(x: Byte)
    ensures MultiPart.Pushes(HalfPart(x)) == [MultiPart.OpN(1), MultiPart.Direct([x])]
    ensures MultiPart.Fits(HalfPart(x), 2) && MultiPart.Chunks(HalfPart(x).pieces) == [x] && |HalfPart(x).pieces| == 1
  {
    hide Number;
    var part := HalfPart(x);
    assert part.pieces[1..] == [];
    assert MultiPart.PiecePushes(part.pieces) == [MultiPart.OpN(1), MultiPart.Direct([x])];
    Numbers();
  }

  lemma HalfReads(x: Byte, y: Byte)
    ensures Verdict(Reads([Half(x)])) == Partial && Verdict(Reads([Half(x), Rest(y)])) == Single([], [x, y])
  {
    hide MultiPart.EncodeAll, MultiPart.Fits, MultiPart.Chunks, MultiPart.Pushes, Begin, Number, Advance;
    HalfFits(x);
    PartFits(y);
    Numbers();
    assert HalfPushes(x) == [MultiPart.Direct(PROTOCOL_ID), MultiPart.OpN(2), MultiPart.Op0] + MultiPart.Pushes(HalfPart(x));
    MultiPart.FirstPart(MultiPart.Direct(PROTOCOL_ID), MultiPart.OpN(2), MultiPart.Op0, HalfPart(x), 2);
    MultiPart.NextPart(SoloPart(y), 1, [], [x]);
    var parts := [Half(x), Rest(y)];
    assert parts[..1] == [Half(x)] && [x] + [y] == [x, y];
  }

  // ---- one input ----

  /** The deploy an input completes: a transaction's first inscription and any finished later both carry
      number 0. */
  function DeployOf(env: Env, k: nat, i: nat, p: Progress, owner: FullHash, tick: Tick, max: nat): TokenAction
    requires k < |env.txs| && i < |env.txs[k].inputs|
  {
    var genesis := Continued(env, k, i, p).genesisTxid;
    Deploy(OutPoint(genesis, if genesis == env.txs[k].txid then p.index else 0),
           DeployProto(tick, max, max, 0, 0, 0, 0, env.height, env.created, owner, 1), owner)
  }

  lemma DeployPushed(env: Env, k: nat, i: nat, p: Progress, l: Location, body: Bytes, tick: Tick, max: nat)
    requires Balanced(env.txs, env.prevouts) && env.jubilee && 1 <= k < |env.txs| && i < |env.txs[k].inputs|
    requires l.outpoint.txid == env.txs[k].txid && l.outpoint.vout < |env.txs[k].outputs|
    requires Locate(env.txs[k].outputs, Unit(env, k, i, 0)) == Some((l.outpoint.vout, l.offset))
    requires !env.txs[k].outputs[l.outpoint.vout].opReturn && env.txs[k].outputs[l.outpoint.vout].scriptHash != OP_RETURN_HASH
    requires Verdict(Reads(Continued(env, k, i, p).parts)) == Single([], body)
    requires env.message([], body) == Some(DeployMessage(tick, max, None, 0)) && 0 < max <= MAX_AMOUNT
    ensures var q := CreateOne(env, k, i, p);
            && q.actions == p.actions + [DeployOf(env, k, i, p, env.txs[k].outputs[l.outpoint.vout].scriptHash, tick, max)]
            && q.offsets == Insert(p.offsets, l.outpoint, l.offset) && q.partials == p.partials - {env.txs[k].inputs[i].outpoint}
            && q.index == if Continued(env, k, i, p).genesisTxid == env.txs[k].txid then p.index + 1 else p.index
  {
    hide Reads, Insert;
    LocateIs(env.txs[k].outputs, Unit(env, k, i, 0));
  }

  lemma PartialKept(env: Env, k: nat, i: nat, p: Progress)
    requires Balanced(env.txs, env.prevouts) && env.jubilee && 1 <= k < |env.txs| && i < |env.txs[k].inputs| && i < |env.txs[k].outputs|
    requires Verdict(Reads(Continued(env, k, i, p).parts)) == Partial && Continued(env, k, i, p).genesisTxid == env.txs[k].txid
    ensures var q := CreateOne(env, k, i, p);
            && q.actions == p.actions && q.offsets == p.offsets
            && q.partials == (p.partials - {env.txs[k].inputs[i].outpoint})[OutPoint(env.txs[k].txid, i) := Continued(env, k, i, p).(inscriptionIndex := p.index)]
  {
    hide Reads;
  }

  // ---- the two blocks' parses ----

  /** Transaction `txid` begins two inscriptions: a deploy completed in its first input and half of another
      in its second. */
  ghost predicate Begins(env: Env, p: Progress, first: Tick, max: nat)
    requires Balanced(env.txs, env.prevouts)
  {
    && env.jubilee && |env.txs| == 2 && |env.txs[1].inputs| == 2 && |env.txs[1].outputs| == 2
    && env.txs[1].inputs[0].scriptSig == Solo(5) && env.txs[1].inputs[1].scriptSig == Half(6)
    && Locate(env.txs[1].outputs, Unit(env, 1, 0, 0)) == Some((0, 0))
    && !env.txs[1].outputs[0].opReturn && env.txs[1].outputs[0].scriptHash != OP_RETURN_HASH
    && env.message([], [5]) == Some(DeployMessage(first, max, None, 0)) && 0 < max <= MAX_AMOUNT
    && p.actions == [] && p.partials == map[] && p.offsets == map[] && env.txs[1].inputs[1].outpoint.txid != env.txs[1].txid
  }

  lemma BeginsFirst(env: Env, p: Progress, first: Tick, max: nat)
    requires Balanced(env.txs, env.prevouts) && Begins(env, p, first, max)
    ensures var t := env.txs[1];
            var q := CreateOne(env, 1, 0, p.(index := 0));
            && |q.actions| == 1 && q.actions[0].Deploy? && q.actions[0].genesis == OutPoint(t.txid, 0) && q.actions[0].proto.tick == first
            && q.partials == map[] && q.index == 1 && q.offsets.Keys == {OutPoint(t.txid, 0)}
  {
    var t := env.txs[1];
    var p0 := p.(index := 0);
    assert [] + [t.inputs[0].scriptSig] == [Solo(5)];
    assert Continued(env, 1, 0, p0) == Partials(0, t.txid, [Solo(5)]);
    SoloReads(5);
    hide Solo, Half, Reads, Balanced, CreateOne, Insert, Verdict, Locate;
    DeployPushed(env, 1, 0, p0, Location(OutPoint(t.txid, 0), 0), [5], first, max);
    InsertOne(p0.offsets, OutPoint(t.txid, 0), 0);
    assert p0.partials - {t.inputs[0].outpoint} == map[];
  }

  lemma BeginsSecond(env: Env, p: Progress, first: Tick, max: nat, p1: Progress)
    requires Balanced(env.txs, env.prevouts) && Begins(env, p, first, max) && p1.partials == map[] && p1.index == 1
    ensures var t := env.txs[1];
            var q := CreateOne(env, 1, 1, p1);
            q.actions == p1.actions && q.partials == map[OutPoint(t.txid, 1) := Partials(1, t.txid, [Half(6)])]
  {
    var t := env.txs[1];
    assert [] + [t.inputs[1].scriptSig] == [Half(6)];
    assert Continued(env, 1, 1, p1) == Partials(0, t.txid, [Half(6)]);
    HalfReads(6, 7);
    hide Solo, Half, Reads, Balanced, CreateOne, Verdict, Locate;
    PartialKept(env, 1, 1, p1);
    assert p1.partials - {t.inputs[1].outpoint} == map[];
  }

  lemma BeginsParsed(env: Env, p: Progress, first: Tick, max: nat)
    requires Balanced(env.txs, env.prevouts) && Begins(env, p, first, max)
    ensures var t := env.txs[1];
            var q := Parsed(env, p);
            && |q.actions| == 1 && q.actions[0].Deploy? && q.actions[0].genesis == OutPoint(t.txid, 0) && q.actions[0].proto.tick == first
            && q.partials == map[OutPoint(t.txid, 1) := Partials(1, t.txid, [Half(6)])]
  {
    hide Solo, Half, Balanced, CreateOne, Moves, Locate;
    var p0 := p.(index := 0);
    var p1 := CreateOne(env, 1, 0, p0);
    BeginsFirst(env, p, first, max);
    BeginsSecond(env, p, first, max, p1);
    assert Inputs(env, 1, 0, p) == p0 && Inputs(env, 1, 1, p) == p1 && Inputs(env, 1, 2, p) == CreateOne(env, 1, 1, p1);
    assert Txs(env, 1, p) == p;
  }

  /** A later transaction spends the second output and completes the other half as a deploy. */
  ghost predicate Ends(env: Env, p: Progress, txid: nat, second: Tick, max: nat)
    requires Balanced(env.txs, env.prevouts)
  {
    && env.jubilee && |env.txs| == 2 && |env.txs[1].inputs| == 1 && |env.txs[1].outputs| == 1 && env.txs[1].txid != txid
    && env.txs[1].inputs[0] == TxIn(OutPoint(txid, 1), Rest(7))
    && Locate(env.txs[1].outputs, Unit(env, 1, 0, 0)) == Some((0, 0))
    && !env.txs[1].outputs[0].opReturn && env.txs[1].outputs[0].scriptHash != OP_RETURN_HASH
    && env.message([], [6, 7]) == Some(DeployMessage(second, max, None, 0)) && 0 < max <= MAX_AMOUNT
    && p.actions == [] && p.partials == map[OutPoint(txid, 1) := Partials(1, txid, [Half(6)])] && p.offsets == map[]
  }

  /** Its deploy names the genesis of the first one. */
  lemma EndsParsed(env: Env, p: Progress, txid: nat, second: Tick, max: nat)
    requires Balanced(env.txs, env.prevouts) && Ends(env, p, txid, second, max)
    ensures var q := Parsed(env, p);
            |q.actions| == 1 && q.actions[0].Deploy? && q.actions[0].genesis == OutPoint(txid, 0) && q.actions[0].proto.tick == second
  {
    var t := env.txs[1];
    var p0 := p.(index := 0);
    assert [Half(6)] + [t.inputs[0].scriptSig] == [Half(6), Rest(7)];
    assert Continued(env, 1, 0, p0) == Partials(1, txid, [Half(6), Rest(7)]);
    HalfReads(6, 7);
    hide Half, Rest, Reads, Balanced, CreateOne, Moves, Insert, Verdict;
    DeployPushed(env, 1, 0, p0, Location(OutPoint(t.txid, 0), 0), [6, 7], second, max);
    assert Inputs(env, 1, 0, p) == p0 && Inputs(env, 1, 1, p) == CreateOne(env, 1, 0, p0);
    assert Txs(env, 1, p) == p;
  }

  // ---- what the ledger logs ----

  lemma DeployLogged(s: State, h: Index, actions: seq<TokenAction>)
    requires |actions| == 1 && actions[0].Deploy? && actions[0].proto.tick.lower !in s.tokens
    ensures var o := Run(s, h, actions);
            o.Done? && |o.log| == 1 && o.log[0].DeployEvent? && OutputOf(o.log[0]) == actions[0].genesis
  {
    assert actions[1..] == [];
  }

  /** Both deploys are logged on one output, the first of the transaction that began them; so the second
      block finds it indexed if the first one's events are. */
  lemma LateDeployCollides(env: Env, p: Progress, env': Env, p': Progress, first: Tick, second: Tick, max: nat, s: State, h: Index, s': State, h': Index)
    requires Balanced(env.txs, env.prevouts) && Balanced(env'.txs, env'.prevouts)
    requires Begins(env, p, first, max) && Ends(env', p', env.txs[1].txid, second, max)
    requires first.lower !in s.tokens && second.lower !in s'.tokens
    ensures var o, o' := Run(s, h, Parsed(env, p).actions), Run(s', h', Parsed(env', p').actions);
            && o.Done? && o'.Done? && |o.log| == |o'.log| == 1 && OutputOf(o.log[0]) == OutputOf(o'.log[0])
            && forall r: Rows :: OutputOf(o.log[0]) in r.tokens.outpointToEvent ==> !DeploysApart(r, o'.log)
  {
    assert |env.txs| == 2;
    hide Parsed, Begins, Ends, Run, Balanced;
    BeginsParsed(env, p, first, max);
    EndsParsed(env', p', env.txs[1].txid, second, max);
    DeployLogged(s, h, Parsed(env, p).actions);
    DeployLogged(s', h', Parsed(env', p').actions);
    var o, o' := Run(s, h, Parsed(env, p).actions), Run(s', h', Parsed(env', p').actions);
    forall r: Rows | OutputOf(o.log[0]) in r.tokens.outpointToEvent ensures !DeploysApart(r, o'.log) {
      assert o'.log[0].DeployEvent? && OutputOf(o'.log[0]) in r.tokens.outpointToEvent;
    }
  }

  // ---- such blocks on a valid chain ----

  function Coin(owner: FullHash, v: nat): Tx
  {
    Tx(1, true, [], [TxOut(v, owner, false, false), TxOut(v, owner, false, false)])
  }

  function Start(owner: FullHash, v: nat): Tx
  {
    Tx(3, false, [TxIn(OutPoint(1, 0), Solo(5)), TxIn(OutPoint(1, 1), Half(6))], [TxOut(v, owner, false, false), TxOut(v, owner, false, false)])
  }

  function End(owner: FullHash, v: nat): Tx
  {
    Tx(5, false, [TxIn(OutPoint(3, 1), Rest(7))], [TxOut(v, owner, false, false)])
  }

  ghost function DeployBlock(claim: Tx, t: Tx, height: nat, first: Tick, second: Tick, max: nat): Env
  {
    BlockAt([claim, t], height).(jubilee := true,
      message := (c: Bytes, b: Bytes) => Some(DeployMessage(if b == [5] then first else second, max, None, 0)))
  }

  ghost function DeployValues(owner: FullHash, v: nat): Values
  {
    ValuesOf([Coin(owner, v), Claim(2), Start(owner, v), Claim(4), End(owner, v)])
  }

  lemma StartTotals(owner: FullHash, v: nat, prevouts: map<OutPoint, TxPrevout>)
    requires prevouts == map[OutPoint(1, 0) := TxPrevout(owner, v), OutPoint(1, 1) := TxPrevout(owner, v)]
    ensures var t := Start(owner, v);
            Funded(t, prevouts) && OutTotal(t.outputs) == InTotal(t, prevouts) && StartOf(t, prevouts, 0) == 0
  {
    hide Solo, Half;
    var t := Start(owner, v);
    PairTotal(v, v);
    assert InValues(t, prevouts) == [v, v] && OutValues(t.outputs) == [v, v];
    assert InValues(t, prevouts)[..0] == [];
  }

  lemma EndTotals(owner: FullHash, v: nat, prevouts: map<OutPoint, TxPrevout>)
    requires prevouts == map[OutPoint(3, 1) := TxPrevout(owner, v)]
    ensures var t := End(owner, v);
            Funded(t, prevouts) && OutTotal(t.outputs) == InTotal(t, prevouts) && StartOf(t, prevouts, 0) == 0
  {
    hide Rest;
    var t := End(owner, v);
    PairTotal(v, v);
    assert InValues(t, prevouts) == [v] && OutValues(t.outputs) == [v];
    assert InValues(t, prevouts)[..0] == [];
  }

  ghost predicate AllAgree(owner: FullHash, v: nat, b0: Env, b1: Env, b2: Env)
  {
    OutputsAgree(DeployValues(owner, v), b0) && OutputsAgree(DeployValues(owner, v), b1) && OutputsAgree(DeployValues(owner, v), b2)
  }

  lemma DeployAgrees(owner: FullHash, v: nat, first: Tick, second: Tick, max: nat)
    ensures AllAgree(owner, v, BlockAt([Coin(owner, v)], 31), DeployBlock(Claim(2), Start(owner, v), 32, first, second, max),
                     DeployBlock(Claim(4), End(owner, v), 33, first, second, max))
  {
    hide Solo, Half, Rest, ValuesOf, OutputsAgree;
    var all := [Coin(owner, v), Claim(2), Start(owner, v), Claim(4), End(owner, v)];
    ValuesAgree(all, [Coin(owner, v)], 31);
    ValuesAgree(all, [Claim(2), Start(owner, v)], 32);
    ValuesAgree(all, [Claim(4), End(owner, v)], 33);
    SameOutputsAgree(ValuesOf(all), BlockAt([Claim(2), Start(owner, v)], 32), DeployBlock(Claim(2), Start(owner, v), 32, first, second, max));
    SameOutputsAgree(ValuesOf(all), BlockAt([Claim(4), End(owner, v)], 33), DeployBlock(Claim(4), End(owner, v), 33, first, second, max));
  }

  lemma StartBegins(owner: FullHash, v: nat, first: Tick, second: Tick, max: nat, p: Progress, env: Env)
    requires v > 0 && owner != OP_RETURN_HASH && 0 < max <= MAX_AMOUNT && Balanced(env.txs, env.prevouts)
    requires p.actions == [] && p.partials == map[] && p.offsets == map[]
    requires env == DeployBlock(Claim(2), Start(owner, v), 32, first, second, max).(
                      prevouts := map[OutPoint(1, 0) := TxPrevout(owner, v), OutPoint(1, 1) := TxPrevout(owner, v)])
    ensures Begins(env, p, first, max)
  {
    StartTotals(owner, v, env.prevouts);
    hide Solo, Half, Balanced, OutTotal, InTotal, StartOf;
    assert Locate(env.txs[1].outputs, 0) == Some((0, 0));
  }

  /** The block that begins both inscriptions is valid on the coinbase, and parses as described. */
  lemma StartValid(owner: FullHash, v: nat, first: Tick, second: Tick, max: nat, p: Progress)
    requires v > 0 && owner != OP_RETURN_HASH && 0 < max <= MAX_AMOUNT && p.actions == [] && p.partials == map[] && p.offsets == map[]
    ensures var b0, b1 := BlockAt([Coin(owner, v)], 31), DeployBlock(Claim(2), Start(owner, v), 32, first, second, max);
            var env := Resolved(b1, DeployValues(owner, v));
            && Extends(TxidsIn([b0]), UnspentAfter([b0]), b1, DeployValues(owner, v))
            && Balanced(env.txs, env.prevouts) && Begins(env, p, first, max)
  {
    hide Solo, Half, DeployValues, OutputsAgree, Prevouts.Spent, TxidsIn, UnspentAfter, OutTotal, InTotal, StartOf, Begins;
    var b0, b1 := BlockAt([Coin(owner, v)], 31), DeployBlock(Claim(2), Start(owner, v), 32, first, second, max);
    var val := DeployValues(owner, v);
    DeployAgrees(owner, v, first, second, max);
    ValueAt(val, b0, 0, 0);
    ValueAt(val, b0, 0, 1);
    CoinbaseSpendsNothing(Coin(owner, v));
    NothingBefore();
    UnspentNew([], b0, 0, 0);
    UnspentNew([], b0, 0, 1);
    assert [] + [b0] == [b0];
    var keys := Prevouts.FirstInputs(Start(owner, v).inputs, 2);
    assert Start(owner, v).inputs[0].outpoint in keys && Start(owner, v).inputs[1].outpoint in keys;
    assert keys == {OutPoint(1, 0), OutPoint(1, 1)};
    assert (map o | o in keys :: val(o)) == map[OutPoint(1, 0) := TxPrevout(owner, v), OutPoint(1, 1) := TxPrevout(owner, v)];
    StartTotals(owner, v, map o | o in keys :: val(o));
    SpendExtends(TxidsIn([b0]), UnspentAfter([b0]), b1, val, keys);
    StartBegins(owner, v, first, second, max, p, Resolved(b1, val));
  }

  /** So is the block that completes the second one, on those two. */
  lemma EndValid(owner: FullHash, v: nat, first: Tick, second: Tick, max: nat, p: Progress)
    requires v > 0 && owner != OP_RETURN_HASH && 0 < max <= MAX_AMOUNT
    requires p.actions == [] && p.partials == map[OutPoint(3, 1) := Partials(1, 3, [Half(6)])] && p.offsets == map[]
    ensures var b0, b1 := BlockAt([Coin(owner, v)], 31), DeployBlock(Claim(2), Start(owner, v), 32, first, second, max);
            var b2 := DeployBlock(Claim(4), End(owner, v), 33, first, second, max);
            var env := Resolved(b2, DeployValues(owner, v));
            && Extends(TxidsIn([b0, b1]), UnspentAfter([b0, b1]), b2, DeployValues(owner, v))
            && Balanced(env.txs, env.prevouts) && Ends(env, p, 3, second, max)
  {
    hide Solo, Half, Rest, DeployValues, OutputsAgree, Prevouts.Spent, TxidsIn, UnspentAfter, OutTotal, InTotal, StartOf, Ends;
    var b0, b1 := BlockAt([Coin(owner, v)], 31), DeployBlock(Claim(2), Start(owner, v), 32, first, second, max);
    var b2 := DeployBlock(Claim(4), End(owner, v), 33, first, second, max);
    var val := DeployValues(owner, v);
    DeployAgrees(owner, v, first, second, max);
    ValueAt(val, b1, 1, 1);
    StartSpends(owner, v, first, second, max);
    UnspentNew([b0], b1, 1, 1);
    CoinbaseTables(Coin(owner, v), 31);
    assert [b0] + [b1] == [b0, b1];
    var keys := Prevouts.FirstInputs(End(owner, v).inputs, 1);
    assert End(owner, v).inputs[0].outpoint in keys;
    assert keys == {OutPoint(3, 1)};
    assert (map o | o in keys :: val(o)) == map[OutPoint(3, 1) := TxPrevout(owner, v)];
    EndTotals(owner, v, map o | o in keys :: val(o));
    SpendExtends(TxidsIn([b0, b1]), UnspentAfter([b0, b1]), b2, val, keys);
    EndEnds(owner, v, first, second, max, p, Resolved(b2, val));
  }

  lemma EndEnds(owner: FullHash, v: nat, first: Tick, second: Tick, max: nat, p: Progress, env: Env)
    requires v > 0 && owner != OP_RETURN_HASH && 0 < max <= MAX_AMOUNT && Balanced(env.txs, env.prevouts)
    requires p.actions == [] && p.partials == map[OutPoint(3, 1) := Partials(1, 3, [Half(6)])] && p.offsets == map[]
    requires env == DeployBlock(Claim(4), End(owner, v), 33, first, second, max).(prevouts := map[OutPoint(3, 1) := TxPrevout(owner, v)])
    ensures Ends(env, p, 3, second, max)
  {
    EndTotals(owner, v, env.prevouts);
    hide Half, Rest, Balanced, OutTotal, InTotal, StartOf;
    var body: Bytes := [6, 7];
    assert |body| == 2 && env.message([], body) == Some(DeployMessage(second, max, None, 0));
    assert Locate(env.txs[1].outputs, 0) == Some((0, 0));
  }

  lemma StartSpends(owner: FullHash, v: nat, first: Tick, second: Tick, max: nat)
    ensures Prevouts.Spent(DeployBlock(Claim(2), Start(owner, v), 32, first, second, max).txs) == {OutPoint(1, 0), OutPoint(1, 1)}
  {
    hide Solo, Half;
    var c, t := Claim(2), Start(owner, v);
    CoinbaseSpendsNothing(c);
    assert [c, t][..1] == [c];
    var keys := Prevouts.FirstInputs(t.inputs, 2);
    assert t.inputs[0].outpoint in keys && t.inputs[1].outpoint in keys;
    assert Prevouts.InputsOf(t) == {OutPoint(1, 0), OutPoint(1, 1)};
  }
}
