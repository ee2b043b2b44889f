/** Blocks that deploy a token, mint all of it, lock all of it in a transfer, and burn that transfer. */
module StaleBlocks {
  import opened Base
  import opened Ledger
  import opened TokenCacheStore
  import opened Searcher
  import opened ScriptSig
  import opened Routing
  import opened BlockParser
  import opened Positions
  import opened Pipeline
  import opened UndoLog
  import opened ReorgOutputs
  import opened Handler
  import opened HandledExists
  import opened HandledChain
  import opened HandledReorgs
  import opened BlockStreams
  import opened ExampleBlocks
  import opened SharedStarts
  import Lifecycle
  import Prevouts

  /** Who holds the token, what each output is worth, and the token. */
  datatype Scene = Scene(owner: FullHash, v: nat, tick: Tick, amt: Amount)

  predicate SceneOk(s: Scene)
  {
    s.v > 0 && s.owner != OP_RETURN_HASH && 0 < s.amt.units <= MAX_AMOUNT && s.amt.scale <= MAX_DEC
  }

  function Held(s: Scene): TxOut
  {
    TxOut(s.v, s.owner, false, false)
  }

  /** A coinbase with three outputs. */
  function Coin(s: Scene): Tx
  {
    Tx(1, true, [], [Held(s), Held(s), Held(s)])
  }

  /** Spends all three, with an inscription in each input. */
  function Make(s: Scene): Tx
  {
    Tx(3, false, [TxIn(OutPoint(1, 0), Solo(5)), TxIn(OutPoint(1, 1), Solo(6)), TxIn(OutPoint(1, 2), Solo(7))], [Held(s), Held(s), Held(s)])
  }

  /** Spends the output with the transfer into an output nobody can spend. */
  function Burn(s: Scene): Tx
  {
    Tx(5, false, [TxIn(OutPoint(3, 2), [])], [TxOut(s.v, OP_RETURN_HASH, true, true)])
  }

  /** What the inscriptions say. */
  function Message(s: Scene, body: Bytes): Brc4
  {
    if body == [5] then DeployMessage(s.tick, s.amt.units, None, MAX_DEC)
    else if body == [6] then MintMessage(s.tick, s.amt)
    else TransferMessage(s.tick, s.amt)
  }

  ghost function TokenBlock(s: Scene, txs: seq<Tx>, height: nat): Env
  {
    BlockAt(txs, height).(jubilee := true, message := (c: Bytes, b: Bytes) => Some(Message(s, b)))
  }

  ghost function TrueValues(s: Scene): Values
  {
    ValuesOf([Coin(s), Claim(2), Make(s), Claim(4), Burn(s), Claim(6)])
  }

  ghost function Opening(s: Scene): Env
  {
    BlockAt([Coin(s)], 31)
  }

  ghost function Making(s: Scene): Env
  {
    TokenBlock(s, [Claim(2), Make(s)], 32)
  }

  /** The burn, mined behind a coinbase of any id. */
  ghost function Burning(s: Scene, coinbase: nat): Env
  {
    TokenBlock(s, [Claim(coinbase), Burn(s)], 33)
  }

  // ---- the blocks are valid ----

  ghost predicate AllAgree(s: Scene)
  {
    && OutputsAgree(TrueValues(s), Opening(s)) && OutputsAgree(TrueValues(s), Making(s))
    && OutputsAgree(TrueValues(s), Burning(s, 4)) && OutputsAgree(TrueValues(s), Burning(s, 6))
  }

  lemma ScenesAgree(s: Scene)
    ensures AllAgree(s)
  {
    hide Solo, ValuesOf, OutputsAgree;
    var all := [Coin(s), Claim(2), Make(s), Claim(4), Burn(s), Claim(6)];
    ValuesAgree(all, [Coin(s)], 31);
    ValuesAgree(all, [Claim(2), Make(s)], 32);
    ValuesAgree(all, [Claim(4), Burn(s)], 33);
    ValuesAgree(all, [Claim(6), Burn(s)], 33);
    SameOutputsAgree(ValuesOf(all), BlockAt([Claim(2), Make(s)], 32), Making(s));
    SameOutputsAgree(ValuesOf(all), BlockAt([Claim(4), Burn(s)], 33), Burning(s, 4));
    SameOutputsAgree(ValuesOf(all), BlockAt([Claim(6), Burn(s)], 33), Burning(s, 6));
  }

  lemma TripleTotal(v: nat)
    ensures Total([v, v, v]) == 3 * v && Total([v, v]) == 2 * v && Total([v]) == v && Total([]) == 0
  {
    PairTotal(v, v);
    var two, three: seq<nat> := [v, v], [v, v, v];
    assert three[..2] == two;
    assert Total(two) == 2 * v;
  }

  ghost function MakeInputs(s: Scene): map<OutPoint, TxPrevout>
  {
    map[OutPoint(1, 0) := TxPrevout(s.owner, s.v), OutPoint(1, 1) := TxPrevout(s.owner, s.v), OutPoint(1, 2) := TxPrevout(s.owner, s.v)]
  }

  ghost function BurnInputs(s: Scene): map<OutPoint, TxPrevout>
  {
    map[OutPoint(3, 2) := TxPrevout(s.owner, s.v)]
  }

  lemma MakeTotals(s: Scene)
    ensures var t := Make(s);
            Funded(t, MakeInputs(s)) && OutTotal(t.outputs) == InTotal(t, MakeInputs(s))
            && StartOf(t, MakeInputs(s), 0) == 0 && StartOf(t, MakeInputs(s), 1) == s.v && StartOf(t, MakeInputs(s), 2) == 2 * s.v
  {
    hide Solo;
    var t := Make(s);
    TripleTotal(s.v);
    var ins, outs: seq<nat> := [s.v, s.v, s.v], [s.v, s.v, s.v];
    assert InValues(t, MakeInputs(s)) == ins && OutValues(t.outputs) == outs;
    assert ins[..0] == [] && ins[..1] == [s.v] && ins[..2] == [s.v, s.v];
  }

  lemma BurnTotals(s: Scene)
    ensures var t := Burn(s);
            Funded(t, BurnInputs(s)) && OutTotal(t.outputs) == InTotal(t, BurnInputs(s)) && StartOf(t, BurnInputs(s), 0) == 0
  {
    var t := Burn(s);
    PairTotal(s.v, s.v);
    var ins: seq<nat> := [s.v];
    assert InValues(t, BurnInputs(s)) == ins && OutValues(t.outputs) == ins;
    assert ins[..0] == [];
  }

  lemma OpeningMakes(s: Scene)
    ensures TxidsIn([Opening(s)]) == {1}
    ensures OutPoint(1, 0) in UnspentAfter([Opening(s)]) && OutPoint(1, 1) in UnspentAfter([Opening(s)]) && OutPoint(1, 2) in UnspentAfter([Opening(s)])
  {
    hide UnspentAfter, TxidsIn, Prevouts.Spent;
    CoinbaseTables(Coin(s), 31);
    NothingBefore();
    UnspentNew([], Opening(s), 0, 0);
    UnspentNew([], Opening(s), 0, 1);
    UnspentNew([], Opening(s), 0, 2);
    assert [] + [Opening(s)] == [Opening(s)];
  }

  lemma MakingValid(s: Scene)
    ensures Extends(TxidsIn([Opening(s)]), UnspentAfter([Opening(s)]), Making(s), TrueValues(s))
    ensures Resolved(Making(s), TrueValues(s)) == Making(s).(prevouts := MakeInputs(s))
  {
    hide Solo, TrueValues, OutputsAgree, Prevouts.Spent, TxidsIn, UnspentAfter, OutTotal, InTotal, StartOf;
    var val := TrueValues(s);
    ScenesAgree(s);
    ValueAt(val, Opening(s), 0, 0);
    ValueAt(val, Opening(s), 0, 1);
    ValueAt(val, Opening(s), 0, 2);
    OpeningMakes(s);
    var keys := Prevouts.FirstInputs(Make(s).inputs, 3);
    assert Make(s).inputs[0].outpoint in keys && Make(s).inputs[1].outpoint in keys && Make(s).inputs[2].outpoint in keys;
    assert keys == {OutPoint(1, 0), OutPoint(1, 1), OutPoint(1, 2)};
    assert (map o | o in keys :: val(o)) == MakeInputs(s);
    MakeTotals(s);
    SpendExtends(TxidsIn([Opening(s)]), UnspentAfter([Opening(s)]), Making(s), val, keys);
  }

  lemma MakingSpends(s: Scene)
    ensures Prevouts.Spent(Making(s).txs) == {OutPoint(1, 0), OutPoint(1, 1), OutPoint(1, 2)}
  {
    hide Solo;
    var c, t := Claim(2), Make(s);
    CoinbaseSpendsNothing(c);
    assert [c, t][..1] == [c];
    var keys := Prevouts.FirstInputs(t.inputs, 3);
    assert t.inputs[0].outpoint in keys && t.inputs[1].outpoint in keys && t.inputs[2].outpoint in keys;
    assert Prevouts.InputsOf(t) == {OutPoint(1, 0), OutPoint(1, 1), OutPoint(1, 2)};
  }

  lemma BurningValid(s: Scene, coinbase: nat)
    requires coinbase == 4 || coinbase == 6
    ensures var below := [Opening(s), Making(s)];
            Extends(TxidsIn(below), UnspentAfter(below), Burning(s, coinbase), TrueValues(s))
    ensures Resolved(Burning(s, coinbase), TrueValues(s)) == Burning(s, coinbase).(prevouts := BurnInputs(s))
  {
    hide Solo, TrueValues, OutputsAgree, Prevouts.Spent, TxidsIn, UnspentAfter, OutTotal, InTotal, StartOf;
    var val := TrueValues(s);
    var below := [Opening(s), Making(s)];
    ScenesAgree(s);
    ValueAt(val, Making(s), 1, 2);
    OpeningMakes(s);
    MakingSpends(s);
    UnspentNew([Opening(s)], Making(s), 1, 2);
    assert [Opening(s)] + [Making(s)] == below;
    var keys := Prevouts.FirstInputs(Burn(s).inputs, 1);
    assert Burn(s).inputs[0].outpoint in keys;
    assert keys == {OutPoint(3, 2)};
    assert (map o | o in keys :: val(o)) == BurnInputs(s);
    BurnTotals(s);
    SpendExtends(TxidsIn(below), UnspentAfter(below), Burning(s, coinbase), val, keys);
  }

  // ---- the stream ----

  ghost function Sent(block: Env, reorgLen: nat): ChainEvent
  {
    ChainEvent(block, 60, reorgLen, map[], BlockInfo(0, 0), 0)
  }

  /** The burn is mined, rolled back, and mined again behind another coinbase. */
  ghost function Stream(s: Scene): (es: seq<ChainEvent>)
    ensures |es| == 4
  {
    [Sent(Opening(s), 0), Sent(Making(s), 0), Sent(Burning(s, 4), 0), Sent(Burning(s, 6), 1)]
  }

  lemma Heights(s: Scene)
    ensures Opening(s).height == 31 && Making(s).height == 32 && Burning(s, 4).height == Burning(s, 6).height == 33
  {
  }

  lemma StreamLeaves(s: Scene)
    ensures var es := Stream(s);
            && TipsOk(es) && Surviving(es[..0]) == Survivors([], 0) && Surviving(es[..1]) == Survivors([Opening(s)], 1)
            && Surviving(es[..2]) == Survivors([Opening(s), Making(s)], 2)
            && Surviving(es[..3]) == Survivors([Opening(s), Making(s), Burning(s, 4)], 3)
  {
    Heights(s);
    hide Opening, Making, Burning;
    var es := Stream(s);
    assert es[..1][..0] == [] && es[..2][..1] == es[..1] && es[..3][..2] == es[..2];
  }

  lemma StreamLeft(s: Scene)
    ensures var es := Stream(s);
            && Left<Env>([], 0, es[0]) == [] && Left([Opening(s)], 1, es[1]) == [Opening(s)]
            && Left([Opening(s), Making(s)], 2, es[2]) == [Opening(s), Making(s)]
            && Left([Opening(s), Making(s), Burning(s, 4)], 3, es[3]) == [Opening(s), Making(s)]
  {
  }

  lemma RemineStreamValid(s: Scene)
    ensures ValidStream(Stream(s), TrueValues(s))
  {
    var es := Stream(s);
    StreamLeaves(s);
    StreamLeft(s);
    NothingBefore();
    ScenesAgree(s);
    hide Surviving, Extends, TrueValues, Opening, Making, Burning, TxidsIn, UnspentAfter, Left, OutputsAgree;
    OpeningValid(s);
    MakingValid(s);
    BurningValid(s, 4);
    BurningValid(s, 6);
    Heights(s);
    forall i | 0 <= i < |es| ensures ValidAt(es, i, TrueValues(s)) {
    }
  }

  lemma OpeningValid(s: Scene)
    requires OutputsAgree(TrueValues(s), Opening(s))
    ensures Extends({}, map[], Opening(s), TrueValues(s))
  {
    hide TrueValues, OutputsAgree;
    FirstExtends(Coin(s), 31, TrueValues(s));
  }

  lemma StreamInOrder(s: Scene)
    ensures var es := Stream(s);
            TipsOk(es) && forall i :: 0 <= i < |es| ==> InOrder(Surviving(es[..i]), es[i])
  {
    var es := Stream(s);
    StreamLeaves(s);
    StreamLeft(s);
    Heights(s);
    hide Surviving, Opening, Making, Burning, Left;
    forall i | 0 <= i < |es| ensures InOrder(Surviving(es[..i]), es[i]) {
    }
  }

  // ---- what they parse to ----

  function Spot(s: Scene, vout: nat): Location
  {
    Location(OutPoint(3, vout), 0)
  }

  ghost function Env2(s: Scene): Env
  {
    Making(s).(prevouts := MakeInputs(s))
  }

  ghost function Env3(s: Scene, coinbase: nat): Env
  {
    Burning(s, coinbase).(prevouts := BurnInputs(s))
  }

  lemma MakingBalanced(s: Scene)
    ensures Balanced(Env2(s).txs, Env2(s).prevouts) && Ok(Env2(s))
  {
    hide Solo, OutTotal, InTotal, Funded, Extends, TrueValues, TxidsIn, UnspentAfter;
    MakingValid(s);
    ExtendsOk(TxidsIn([Opening(s)]), UnspentAfter([Opening(s)]), Making(s), TrueValues(s));
  }

  lemma BurningBalanced(s: Scene, coinbase: nat)
    requires coinbase == 4 || coinbase == 6
    ensures Balanced(Env3(s, coinbase).txs, Env3(s, coinbase).prevouts) && Ok(Env3(s, coinbase))
  {
    hide OutTotal, InTotal, Funded, Extends, TrueValues, TxidsIn, UnspentAfter, Opening, Making;
    BurningValid(s, coinbase);
    ExtendsOk(TxidsIn([Opening(s), Making(s)]), UnspentAfter([Opening(s), Making(s)]), Burning(s, coinbase), TrueValues(s));
  }

  lemma ExtendsOk(txids: set<nat>, unspent: Outputs, block: Env, val: Values)
    requires Extends(txids, unspent, block, val)
    ensures Ok(Resolved(block, val)) && Balanced(Resolved(block, val).txs, Resolved(block, val).prevouts)
  {
  }

  function BodyOf(i: nat): Byte
  {
    if i == 0 then 5 else if i == 1 then 6 else 7
  }

  lemma MakePlaced(s: Scene, i: nat)
    requires s.v > 0 && i < 3
    ensures Locate(Make(s).outputs, if i == 0 then 0 else if i == 1 then s.v else 2 * s.v) == Some((i, 0))
  {
    hide Solo;
    var outs := Make(s).outputs;
    TripleTotal(s.v);
    var values: seq<nat> := [s.v, s.v, s.v];
    assert OutValues(outs) == values && values[..0] == [] && values[..1] == [s.v] && values[..2] == [s.v, s.v];
    var u := if i == 0 then 0 else if i == 1 then s.v else 2 * s.v;
    LocateIs(outs, u);
    assert FallsInto(outs, u, i, 0);
  }

  lemma MakeReads(s: Scene, i: nat)
    requires i < 3
    ensures var body: Bytes := [BodyOf(i)]; Verdict(Reads([Make(s).inputs[i].scriptSig])) == Single([], body)
  {
    SoloReads(BodyOf(i));
    hide Solo, Reads, Verdict;
    assert Make(s).inputs[i].scriptSig == Solo(BodyOf(i));
  }

  /** The second block as the parser gets it. */
  ghost predicate Makes(s: Scene, env: Env)
  {
    && env.jubilee && |env.txs| == 2 && env.txs[1] == Make(s) && env.prevouts == MakeInputs(s) && env.height == 32
    && forall body :: env.message([], body) == Some(Message(s, body))
  }

  lemma MessageOk(s: Scene, body: Bytes)
    requires SceneOk(s)
    ensures Accepted(Message(s, body))
  {
  }

  /** Each input of its transaction completes the inscription in it, on its own output. */
  lemma MakeCompletes(s: Scene, env: Env, i: nat)
    requires SceneOk(s) && i < 3 && Makes(s, env) && Balanced(env.txs, env.prevouts)
    ensures Completes(env, 1, i, Spot(s, i), Message(s, [BodyOf(i)]))
  {
    MakeTotals(s);
    MakePlaced(s, i);
    MakeReads(s, i);
    MessageOk(s, [BodyOf(i)]);
    hide Solo, OutTotal, InTotal, Funded, Balanced, Ok, Reads, Verdict, StartOf, Locate, MakeInputs, Message, Accepted;
  }

  /** The batch of the second block: deploy, mint everything, lock everything. */
  ghost predicate Batch(s: Scene, actions: seq<TokenAction>)
  {
    && |actions| == 3 && actions[0].Deploy? && actions[0].proto.tick == s.tick && actions[0].proto.dec == MAX_DEC
    && actions[0].proto.max == actions[0].proto.lim == s.amt.units && actions[0].proto.supply == 0
    && actions[1] == Mint(s.owner, s.tick, s.amt, 3, 1) && actions[2] == Transfer(Spot(s, 2), s.owner, s.tick, s.amt, 3, 2)
  }

  lemma AskedAre(s: Scene, env: Env)
    requires SceneOk(s) && Makes(s, env)
    ensures forall i :: 0 <= i < 3 ==> Asked(env, 1, Spot(s, i), i, Message(s, [BodyOf(i)])).Some?
    ensures var a, b, c := Asked(env, 1, Spot(s, 0), 0, Message(s, [BodyOf(0)])).value, Asked(env, 1, Spot(s, 1), 1, Message(s, [BodyOf(1)])).value,
              Asked(env, 1, Spot(s, 2), 2, Message(s, [BodyOf(2)])).value;
            Batch(s, [a, b, c])
  {
    hide Solo, MakeInputs;
    assert [BodyOf(1)] != [BodyOf(0)] && [BodyOf(2)] != [BodyOf(0)] && [BodyOf(2)] != [BodyOf(1)];
  }

  /** One input of the second block's transaction, with nothing stored for it. */
  lemma MakeStep(s: Scene, env: Env, i: nat, p: Progress)
    requires SceneOk(s) && i < 3 && Makes(s, env) && Balanced(env.txs, env.prevouts)
    requires OutPoint(1, i) !in p.offsets && p.partials == map[] && p.index == i
    ensures Asked(env, 1, Spot(s, i), i, Message(s, [BodyOf(i)])).Some?
    ensures var a := Asked(env, 1, Spot(s, i), i, Message(s, [BodyOf(i)])).value;
            CreateOne(env, 1, i, MoveInput(env, 1, i, p)) ==
            Progress(Insert(p.offsets, OutPoint(3, i), 0), map[], p.leaked, i + 1, p.actions + [a], Recorded(p.all, a, 32))
  {
    MakeCompletes(s, env, i);
    hide Solo, CreateOne, Completes, Insert, Balanced, Message, Asked, Accepted, Recorded, MakeInputs, Moves;
    assert env.txs[1].inputs[i].outpoint == OutPoint(1, i);
    assert MoveInput(env, 1, i, p) == p;
    CompletesPushes(env, 1, i, p, Spot(s, i), Message(s, [BodyOf(i)]));
  }

  lemma InsertedKeys(offsets: Offsets, o: OutPoint)
    requires forall k: nat :: OutPoint(1, k) !in offsets
    requires o.txid == 3
    ensures forall k: nat :: OutPoint(1, k) !in Insert(offsets, o, 0)
  {
  }

  /** Parsed on tables without rows for its inputs, the block queues the batch, records the transfer, and
      leaves an inscription at the start of each output. */
  lemma MakeParsed(s: Scene, env: Env, p: Progress)
    requires SceneOk(s) && Makes(s, env) && Balanced(env.txs, env.prevouts)
    requires p.offsets == map[] && p.partials == map[] && p.leaked == map[] && p.actions == [] && p.all == map[]
    ensures var q := Parsed(env, p);
            && Batch(s, q.actions) && q.all == map[Spot(s, 2) := TransferProto(s.tick, s.amt.units, 32)]
            && q.partials == map[] && q.leaked == map[] && q.offsets == MadeOffsets()
  {
    hide Solo, SceneOk, CreateOne, MoveInput, Completes, Insert, Balanced, Message, Asked, Accepted, Parsed, Batch, Recorded, BodyOf, MakeInputs;
    AskedAre(s, env);
    assert |env.txs| == 2 && |env.txs[1].inputs| == 3;
    var a, b := Asked(env, 1, Spot(s, 0), 0, Message(s, [BodyOf(0)])).value, Asked(env, 1, Spot(s, 1), 1, Message(s, [BodyOf(1)])).value;
    var c := Asked(env, 1, Spot(s, 2), 2, Message(s, [BodyOf(2)])).value;
    hide Makes;
    var p0 := p.(index := 0);
    var p1 := CreateOne(env, 1, 0, MoveInput(env, 1, 0, p0));
    var p2 := CreateOne(env, 1, 1, MoveInput(env, 1, 1, p1));
    var p3 := CreateOne(env, 1, 2, MoveInput(env, 1, 2, p2));
    ParsedThree(env, p);
    MakeStep(s, env, 0, p0);
    InsertedKeys(p0.offsets, OutPoint(3, 0));
    MakeStep(s, env, 1, p1);
    InsertedKeys(p1.offsets, OutPoint(3, 1));
    MakeStep(s, env, 2, p2);
    assert p3.actions == [a, b, c];
    BatchRecords(s, a, b, c);
  }

  lemma BatchRecords(s: Scene, a: TokenAction, b: TokenAction, c: TokenAction)
    requires Batch(s, [a, b, c])
    ensures Recorded(Recorded(Recorded(map[], a, 32), b, 32), c, 32) == map[Spot(s, 2) := TransferProto(s.tick, s.amt.units, 32)]
  {
  }

  function MadeOffsets(): Offsets
  {
    Insert(Insert(Insert(map[], OutPoint(3, 0), 0), OutPoint(3, 1), 0), OutPoint(3, 2), 0)
  }

  lemma ParsedThree(env: Env, p: Progress)
    requires Balanced(env.txs, env.prevouts) && |env.txs| == 2 && |env.txs[1].inputs| == 3
    ensures Parsed(env, p) ==
            CreateOne(env, 1, 2, MoveInput(env, 1, 2, CreateOne(env, 1, 1, MoveInput(env, 1, 1, CreateOne(env, 1, 0, MoveInput(env, 1, 0, p.(index := 0)))))))
  {
    hide CreateOne, MoveInput, Balanced;
    assert Txs(env, 1, p) == p;
    assert Inputs(env, 1, 0, p) == p.(index := 0);
    assert Inputs(env, 1, 1, p) == CreateOne(env, 1, 0, MoveInput(env, 1, 0, p.(index := 0)));
    assert Inputs(env, 1, 2, p) == CreateOne(env, 1, 1, MoveInput(env, 1, 1, Inputs(env, 1, 1, p)));
  }

  /** The third block as the parser gets it. */
  ghost predicate Burns(s: Scene, env: Env)
  {
    |env.txs| == 2 && env.txs[1] == Burn(s) && env.prevouts == BurnInputs(s) && OrderOk(env)
  }

  lemma EmptyReads()
    ensures Verdict(Reads([[]])) == NoInscription
  {
    var parts: seq<Bytes> := [[]];
    assert parts[..0] == [];
  }

  lemma OneListed(xs: seq<nat>, x: nat)
    requires Lists(xs, {x})
    ensures xs == [x]
  {
    assert x in xs;
    if |xs| > 1 {
      ListedIs(xs, x, 0);
      ListedIs(xs, x, 1);
    }
  }

  lemma ListedIs(xs: seq<nat>, x: nat, i: nat)
    requires Lists(xs, {x}) && i < |xs|
    ensures xs[i] == x
  {
    assert xs[i] in xs;
  }

  lemma BurnMoves(s: Scene, env: Env, p: Progress)
    requires SceneOk(s) && Burns(s, env) && Balanced(env.txs, env.prevouts)
    requires p.offsets == map[OutPoint(3, 2) := {0}] && p.actions == [] && Spot(s, 2) in p.all
    ensures var q := MoveInput(env, 1, 0, p);
            q.actions == [Transferred(Spot(s, 2), OP_RETURN_HASH, 5, 0)] && q.all == p.all && q.partials == p.partials
  {
    BurnTotals(s);
    hide OutTotal, InTotal, Funded, Balanced, StartOf, Insert, OrderOk;
    var o := OutPoint(3, 2);
    assert Lists(env.order(o, {0}), {0}) by { OrderLists(env, o, {0}); }
    OneListed(env.order(o, {0}), 0);
    var p1 := p.(offsets := p.offsets - {o});
    assert Moves(env, 1, 0, [0], 0, p1) == p1;
    assert Moves(env, 1, 0, [0], 1, p1) == MoveOne(env, 1, 0, 0, p1);
    assert Locate(env.txs[1].outputs, 0) == Some((0, 0));
  }

  lemma OrderLists(env: Env, o: OutPoint, s: set<nat>)
    requires OrderOk(env)
    ensures Lists(env.order(o, s), s)
  {
  }

  /** Parsed where the transfer's inscription and record are loaded, the block queues its burn alone. */
  lemma BurnParsed(s: Scene, env: Env, p: Progress)
    requires SceneOk(s) && Burns(s, env) && Balanced(env.txs, env.prevouts)
    requires p.offsets == map[OutPoint(3, 2) := {0}] && p.partials == map[] && p.actions == [] && Spot(s, 2) in p.all
    ensures Parsed(env, p).actions == [Transferred(Spot(s, 2), OP_RETURN_HASH, 5, 0)] && Parsed(env, p).all == p.all
  {
    var p0 := p.(index := 0);
    BurnMoves(s, env, p0);
    EmptyReads();
    var p1 := MoveInput(env, 1, 0, p0);
    assert Continued(env, 1, 0, p1).parts == [[]];
    hide Reads, Balanced, MoveInput, SceneOk;
    assert Txs(env, 1, p) == p && Inputs(env, 1, 0, p) == p0 && Inputs(env, 1, 1, p) == CreateOne(env, 1, 0, p1);
  }

  // ---- no two transfers on one location ----

  lemma MakingDistinct(s: Scene)
    requires SceneOk(s)
    ensures Balanced(Env2(s).txs, Env2(s).prevouts) && Lifecycle.DistinctStarts(Env2(s))
  {
    MakingBalanced(s);
    MakeTotals(s);
    hide Solo, OutTotal, InTotal, Funded, Balanced, Ok, StartOf, Locate;
    var env := Env2(s);
    assert env.txs[1] == Make(s);
  }

  lemma OthersDistinct(env: Env)
    requires Balanced(env.txs, env.prevouts) && forall k :: 1 <= k < |env.txs| ==> |env.txs[k].inputs| <= 1
    ensures Lifecycle.DistinctStarts(env)
  {
    hide Balanced;
  }

  lemma StreamStarts(s: Scene, i: nat)
    requires SceneOk(s) && i < 4
    ensures var env := Resolved(Stream(s)[i].block, TrueValues(s)); Balanced(env.txs, env.prevouts) ==> Lifecycle.DistinctStarts(env)
  {
    hide Balanced, Solo, TrueValues, Extends, TxidsIn, UnspentAfter, Lifecycle.DistinctStarts;
    var env := Resolved(Stream(s)[i].block, TrueValues(s));
    if i == 1 {
      MakingValid(s);
      MakingDistinct(s);
    } else if Balanced(env.txs, env.prevouts) {
      OthersDistinct(env);
    }
  }

  /** So every event of the stream keeps its transfers apart, whatever it is handled on. */
  lemma StreamApart(s: Scene, i: nat, m: Moment, start: nat)
    requires SceneOk(s) && i < 4 && StandsOn(m, TrueValues(s)) && Stream(s)[i].tip == 60
    requires Valid(Left(m.chain, m.cached, Stream(s)[i]), Stream(s)[i].block, TrueValues(s))
    ensures Apart(m, Stream(s)[i], start, TrueValues(s))
  {
    var e := Stream(s)[i];
    StreamStarts(s, i);
    hide Stream, StandsOn, Valid, Resolved, TrueValues, SceneOk, Balanced, Lifecycle.DistinctStarts, Left, Apart;
    DistinctApart(m, e, start, TrueValues(s));
  }
}
