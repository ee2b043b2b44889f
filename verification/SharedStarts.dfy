/** Where the placement rule puts two transfers of one transaction in one place. */
module SharedStarts {
  import opened Base
  import opened Ledger
  import opened TokenCacheStore
  import opened Searcher
  import opened Routing
  import opened BlockParser
  import opened ScriptSig
  import opened Positions
  import opened OwnRecords
  import MultiPart

  // ---- an inscription in one push ----

  function Solo(x: Byte): Bytes
  {
    MultiPart.EncodeAll(SoloPushes(x))
  }

  /** The protocol id, one piece, no content type, the last counter and the body. */
  function SoloPushes(x: Byte): (ps: seq<MultiPart.Push>)
    ensures MultiPart.AllWf(ps)
  {
    assert |PROTOCOL_ID| == 3;
    [MultiPart.Direct(PROTOCOL_ID), MultiPart.OpN(1), MultiPart.Op0, MultiPart.Op0, MultiPart.Direct([x])]
  }

  function SoloPart(x: Byte): MultiPart.Part
  {
    MultiPart.Part([MultiPart.Piece(MultiPart.Op0, MultiPart.Direct([x]))], [])
  }

  lemma PartFits(x: Byte)
    ensures MultiPart.Pushes(SoloPart(x)) == [MultiPart.Op0, MultiPart.Direct([x])]
    ensures MultiPart.Fits(SoloPart(x), 1) && MultiPart.Chunks(SoloPart(x).pieces) == [x]
  {
    var part := SoloPart(x);
    assert part.pieces[1..] == [];
    assert MultiPart.PiecePushes(part.pieces) == [MultiPart.Op0, MultiPart.Direct([x])];
    var counter := MultiPart.Payload(MultiPart.Op0);
    assert counter == [] && Value(counter) == 0;
  }

  lemma SoloReads(x: Byte)
    ensures Verdict(Reads([Solo(x)])) == Single([], [x])
  {
    hide MultiPart.EncodeAll, MultiPart.Fits, MultiPart.Chunks, MultiPart.Pushes, Begin;
    PartFits(x);
    CountsOne();
    assert SoloPushes(x) == [MultiPart.Direct(PROTOCOL_ID), MultiPart.OpN(1), MultiPart.Op0] + MultiPart.Pushes(SoloPart(x));
    MultiPart.FirstPart(MultiPart.Direct(PROTOCOL_ID), MultiPart.OpN(1), MultiPart.Op0, SoloPart(x), 1);
  }

  lemma CountsOne()
    ensures Number(MultiPart.Payload(MultiPart.OpN(1))) == Some(1)
  {
    var one := MultiPart.Payload(MultiPart.OpN(1));
    assert one[1..] == [] && Value(one[1..]) == 0;
  }

  // ---- completing an inscription in one push ----

  /** What an inscription placed at `l` with message `m` asks for, `index` being its number. */
  function Asked(env: Env, k: nat, l: Location, index: nat, m: Brc4): Option<TokenAction>
    requires k < |env.txs| && l.outpoint.vout < |env.txs[k].outputs|
  {
    var owner := env.txs[k].outputs[l.outpoint.vout].scriptHash;
    ActionFor(InscriptionTemplate(OutPoint(env.txs[k].txid, index), l, owner, false, Some(m)), env.height, env.created)
  }

  /** Input `i` of transaction `k` completes an inscription with message `m` in one push and places it at
      `l`. */
  ghost predicate Completes(env: Env, k: nat, i: nat, l: Location, m: Brc4)
    requires Balanced(env.txs, env.prevouts)
  {
    && env.jubilee && 1 <= k < |env.txs| && i < |env.txs[k].inputs|
    && l.outpoint.txid == env.txs[k].txid && l.outpoint.vout < |env.txs[k].outputs|
    && Locate(env.txs[k].outputs, Unit(env, k, i, 0)) == Some((l.outpoint.vout, l.offset))
    && !env.txs[k].outputs[l.outpoint.vout].opReturn && env.txs[k].outputs[l.outpoint.vout].scriptHash != OP_RETURN_HASH
    && Accepted(m)
    && exists body :: Verdict(Reads([env.txs[k].inputs[i].scriptSig])) == Single([], body) && env.message([], body) == Some(m)
  }

  /** Completing it pushes what it asks for and keeps a transfer's record, whatever was recorded there. */
  lemma CompletesPushes(env: Env, k: nat, i: nat, p: Progress, l: Location, m: Brc4)
    requires Balanced(env.txs, env.prevouts) && Completes(env, k, i, l, m) && env.txs[k].inputs[i].outpoint !in p.partials
    ensures Asked(env, k, l, p.index, m).Some?
    ensures var q, a := CreateOne(env, k, i, p), Asked(env, k, l, p.index, m).value;
            q == Progress(Insert(p.offsets, l.outpoint, l.offset), p.partials, p.leaked, p.index + 1, p.actions + [a], Recorded(p.all, a, env.height))
  {
    hide Reads, Insert;
    var tx := env.txs[k];
    LocateIs(tx.outputs, Unit(env, k, i, 0));
    assert [] + [tx.inputs[i].scriptSig] == [tx.inputs[i].scriptSig];
    var c := Continued(env, k, i, p);
    assert c == Partials(0, tx.txid, [tx.inputs[i].scriptSig]);
    assert p.partials - {tx.inputs[i].outpoint} == p.partials;
    var body :| Verdict(Reads([tx.inputs[i].scriptSig])) == Single([], body) && env.message([], body) == Some(m);
  }

  // ---- two transfers on one location ----

  function MadeBy(env: Env, k: nat, l: Location, tick: Tick, amt: Amount): TokenAction
    requires k < |env.txs| && l.outpoint.vout < |env.txs[k].outputs|
  {
    Transfer(l, env.txs[k].outputs[l.outpoint.vout].scriptHash, tick, amt, env.txs[k].txid, l.outpoint.vout)
  }

  lemma TransferPushes(env: Env, k: nat, i: nat, p: Progress, l: Location, tick: Tick, amt: Amount)
    requires Balanced(env.txs, env.prevouts) && Completes(env, k, i, l, TransferMessage(tick, amt)) && env.txs[k].inputs[i].outpoint !in p.partials
    ensures CreateOne(env, k, i, p) ==
            Progress(Insert(p.offsets, l.outpoint, l.offset), p.partials, p.leaked, p.index + 1,
                     p.actions + [MadeBy(env, k, l, tick, amt)], p.all[l := TransferProto(tick, amt.units, env.height)])
  {
    hide Insert, CreateOne, Reads;
    CompletesPushes(env, k, i, p, l, TransferMessage(tick, amt));
  }

  /** Two inputs of one transaction that complete transfers on one location: both are queued, the record
      kept there is the second's, so unless amounts and ticks are the same the first does not find its own. */
  lemma PairCollides(env: Env, p: Progress, l: Location, first: Tick, x: Amount, second: Tick, y: Amount)
    requires Balanced(env.txs, env.prevouts) && |env.txs| == 2 && |env.txs[1].inputs| == 2 && p.actions == []
    requires Completes(env, 1, 0, l, TransferMessage(first, x)) && Completes(env, 1, 1, l, TransferMessage(second, y))
    requires x.units != y.units || first != second
    requires var a, b := env.txs[1].inputs[0].outpoint, env.txs[1].inputs[1].outpoint;
             a !in p.partials && b !in p.partials && a !in p.offsets && b !in p.offsets && b != l.outpoint
    ensures var q := Parsed(env, p);
            && q.actions == [MadeBy(env, 1, l, first, x), MadeBy(env, 1, l, second, y)]
            && l in q.all && q.all[l] == TransferProto(second, y.units, env.height) && !SameTransfers(q.actions)
  {
    hide CreateOne, Completes, Insert, Moves, Balanced;
    var p0 := p.(index := 0);
    var p1 := CreateOne(env, 1, 0, p0);
    TransferPushes(env, 1, 0, p0, l, first, x);
    assert env.txs[1].inputs[1].outpoint !in p1.offsets by { InsertOne(p.offsets, l.outpoint, l.offset); }
    TransferPushes(env, 1, 1, p1, l, second, y);
    var q := CreateOne(env, 1, 1, p1);
    assert Inputs(env, 1, 0, p) == p0;
    assert Inputs(env, 1, 1, p) == p1;
    assert Inputs(env, 1, 2, p) == q;
    assert Parsed(env, p) == q by { assert Txs(env, 1, p) == p; }
    assert q.actions[0].location == q.actions[1].location;
  }

  lemma InsertOne(offsets: Offsets, o: OutPoint, x: nat)
    ensures Insert(offsets, o, x).Keys == offsets.Keys + {o}
  {
  }
}
