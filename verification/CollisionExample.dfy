/** A valid block whose parse leaves a transfer with another one's record. */
module CollisionExample {
  import opened Base
  import opened Ledger
  import opened TokenCacheStore
  import opened Searcher
  import opened ScriptSig
  import opened Routing
  import opened BlockParser
  import opened OwnRecords
  import opened Pipeline
  import opened ReorgOutputs
  import opened BlockOutputs
  import opened HandledExists
  import opened HandledChain
  import opened HandledReorgs
  import opened BlockStreams
  import opened ExampleBlocks
  import opened SharedStarts
  import Positions
  import Prevouts

  /** A coinbase with an output worth nothing and one worth `v`. */
  function Coin(owner: FullHash, v: nat): Tx
  {
    Tx(1, true, [], [TxOut(0, owner, false, false), TxOut(v, owner, false, false)])
  }

  /** Spends both, completing a transfer in each input. */
  function Pair(owner: FullHash, v: nat): Tx
  {
    Tx(3, false, [TxIn(OutPoint(1, 0), Solo(5)), TxIn(OutPoint(1, 1), Solo(6))], [TxOut(v, owner, false, false)])
  }

  ghost function PairBlock(owner: FullHash, v: nat, first: Tick, x: Amount, second: Tick, y: Amount): Env
  {
    BlockAt([Claim(2), Pair(owner, v)], 32).(jubilee := true,
      message := (c: Bytes, b: Bytes) => Some(if b == [5] then TransferMessage(first, x) else TransferMessage(second, y)))
  }

  lemma PairTotals(owner: FullHash, v: nat, prevouts: map<OutPoint, TxPrevout>)
    requires OutPoint(1, 0) in prevouts && OutPoint(1, 1) in prevouts
    requires prevouts[OutPoint(1, 0)].value == 0 && prevouts[OutPoint(1, 1)].value == v
    ensures var t := Pair(owner, v);
            Funded(t, prevouts) && InTotal(t, prevouts) == v && OutTotal(t.outputs) == v
            && StartOf(t, prevouts, 0) == 0 && StartOf(t, prevouts, 1) == 0
  {
    var t := Pair(owner, v);
    var ins, outs := InValues(t, prevouts), OutValues(t.outputs);
    assert ins == [0, v] && outs == [v];
    assert ins[..0] == [] && ins[..1] == [0] && ins[..1][..0] == [] && ins[..2] == ins && outs[..0] == [];
    assert Total([0]) == 0 by { assert [0][..0] == []; }
  }

  lemma PairSpent(owner: FullHash, v: nat)
    ensures Prevouts.Spent([Claim(2), Pair(owner, v)]) == {OutPoint(1, 0), OutPoint(1, 1)}
  {
    CoinbaseSpendsNothing(Claim(2));
    hide Solo;
    var t := Pair(owner, v);
    assert [Claim(2), t][..1] == [Claim(2)];
    var ins := Prevouts.FirstInputs(t.inputs, 2);
    assert t.inputs[0].outpoint in ins && t.inputs[1].outpoint in ins;
    assert Prevouts.InputsOf(t) == {OutPoint(1, 0), OutPoint(1, 1)};
  }

  /** The tables such outputs are looked up to. */
  ghost function PairInputs(owner: FullHash, v: nat): map<OutPoint, TxPrevout>
  {
    map[OutPoint(1, 0) := TxPrevout(owner, 0), OutPoint(1, 1) := TxPrevout(owner, v)]
  }

  lemma PairOk(owner: FullHash, v: nat, first: Tick, x: Amount, second: Tick, y: Amount)
    ensures Positions.Ok(PairBlock(owner, v, first, x, second, y).(prevouts := PairInputs(owner, v)))
  {
    hide Solo, OutTotal, InTotal, Funded;
    var env := PairBlock(owner, v, first, x, second, y).(prevouts := PairInputs(owner, v));
    PairTotals(owner, v, env.prevouts);
    assert FeesBefore(env.txs, env.prevouts, 1) == 0;
  }

  lemma PairReads(owner: FullHash, v: nat, i: nat)
    requires i < 2
    ensures var body: Bytes := [if i == 0 then 5 else 6]; Verdict(Reads([Pair(owner, v).inputs[i].scriptSig])) == Single([], body)
  {
    SoloReads(if i == 0 then 5 else 6);
    hide Solo, Reads, Verdict;
    assert Pair(owner, v).inputs[i].scriptSig == Solo(if i == 0 then 5 else 6);
  }

  lemma PairPlaced(owner: FullHash, v: nat)
    requires v > 0
    ensures Locate(Pair(owner, v).outputs, 0) == Some((0, 0))
  {
    hide Solo;
  }

  /** Either input of such a transaction completes its transfer at the start of the one output. */
  lemma InputCompletes(env: Env, owner: FullHash, v: nat, i: nat, tick: Tick, amt: Amount)
    requires v > 0 && owner != OP_RETURN_HASH && 0 < amt.units <= MAX_AMOUNT && i < 2 && env.jubilee
    requires |env.txs| == 2 && env.txs[1] == Pair(owner, v) && env.prevouts == PairInputs(owner, v) && Balanced(env.txs, env.prevouts)
    requires env.message([], [if i == 0 then 5 else 6]) == Some(TransferMessage(tick, amt))
    ensures Completes(env, 1, i, Location(OutPoint(3, 0), 0), TransferMessage(tick, amt))
  {
    PairTotals(owner, v, env.prevouts);
    PairReads(owner, v, i);
    PairPlaced(owner, v);
    hide Solo, OutTotal, InTotal, Funded, Balanced, Reads, Verdict, StartOf, PairInputs, Locate;
  }

  lemma PairCompletes(owner: FullHash, v: nat, first: Tick, x: Amount, second: Tick, y: Amount)
    requires v > 0 && owner != OP_RETURN_HASH && 0 < x.units <= MAX_AMOUNT && 0 < y.units <= MAX_AMOUNT
    ensures var env := PairBlock(owner, v, first, x, second, y).(prevouts := PairInputs(owner, v));
            var l := Location(OutPoint(3, 0), 0);
            Balanced(env.txs, env.prevouts) && Completes(env, 1, 0, l, TransferMessage(first, x)) && Completes(env, 1, 1, l, TransferMessage(second, y))
  {
    var env := PairBlock(owner, v, first, x, second, y).(prevouts := PairInputs(owner, v));
    PairOk(owner, v, first, x, second, y);
    hide Pair, Balanced, Completes, PairInputs;
    assert env.message([], [5]) == Some(TransferMessage(first, x));
    assert env.message([], [6]) == Some(TransferMessage(second, y));
    InputCompletes(env, owner, v, 0, first, x);
    InputCompletes(env, owner, v, 1, second, y);
  }

  ghost function PairValues(owner: FullHash, v: nat): Values
  {
    ValuesOf([Coin(owner, v), Claim(2), Pair(owner, v)])
  }

  lemma CoinValues(owner: FullHash, v: nat)
    requires OutputsAgree(PairValues(owner, v), BlockAt([Coin(owner, v)], 31))
    ensures PairValues(owner, v)(OutPoint(1, 0)) == TxPrevout(owner, 0) && PairValues(owner, v)(OutPoint(1, 1)) == TxPrevout(owner, v)
  {
    hide ValuesOf;
    var block := BlockAt([Coin(owner, v)], 31);
    assert InBlock(block, OutPoint(1, 0), block.txs[0].outputs[0]);
    assert InBlock(block, OutPoint(1, 1), block.txs[0].outputs[1]);
  }

  lemma CoinUnspent(owner: FullHash, v: nat)
    ensures var blocks := [BlockAt([Coin(owner, v)], 31)];
            TxidsIn(blocks) == {1} && OutPoint(1, 0) in UnspentAfter(blocks) && OutPoint(1, 1) in UnspentAfter(blocks)
  {
    hide Prevouts.Written;
    var block := BlockAt([Coin(owner, v)], 31);
    CoinbaseTables(Coin(owner, v), 31);
    CoinbaseSpendsNothing(Coin(owner, v));
    assert [block][..0] == [];
    assert InBlock(block, OutPoint(1, 1), block.txs[0].outputs[1]);
    WrittenIs(block, OutPoint(1, 1));
  }

  /** The block is one the chain can hold: its inputs are unspent outputs, its transactions new. */
  lemma PairValid(owner: FullHash, v: nat, first: Tick, x: Amount, second: Tick, y: Amount)
    ensures var block := PairBlock(owner, v, first, x, second, y);
            && Extends(TxidsIn([BlockAt([Coin(owner, v)], 31)]), UnspentAfter([BlockAt([Coin(owner, v)], 31)]), block, PairValues(owner, v))
            && Resolved(block, PairValues(owner, v)) == block.(prevouts := PairInputs(owner, v))
  {
    hide Solo, ValuesOf, Prevouts.Spent, TxidsIn, UnspentAfter, Positions.Ok, OutputsAgree;
    var block, val := PairBlock(owner, v, first, x, second, y), PairValues(owner, v);
    var all := [Coin(owner, v), Claim(2), Pair(owner, v)];
    ValuesAgree(all, [Coin(owner, v)], 31);
    ValuesAgree(all, [Claim(2), Pair(owner, v)], 32);
    CoinValues(owner, v);
    CoinUnspent(owner, v);
    PairSpent(owner, v);
    assert TrueInputs(block, val) == PairInputs(owner, v);
    PairOk(owner, v, first, x, second, y);
    SameOutputsAgree(val, BlockAt([Claim(2), Pair(owner, v)], 32), block);
  }

  /** Parsed on any tables without rows for its inputs, it queues both transfers on one location and keeps
      the second's record there: unless the two are the same, the first does not find its own. */
  lemma PairOverwrites(owner: FullHash, v: nat, first: Tick, x: Amount, second: Tick, y: Amount, p: Progress)
    requires v > 0 && owner != OP_RETURN_HASH && 0 < x.units <= MAX_AMOUNT && 0 < y.units <= MAX_AMOUNT
    requires x.units != y.units || first != second
    requires p.actions == [] && OutPoint(1, 0) !in p.partials && OutPoint(1, 1) !in p.partials
    requires OutPoint(1, 0) !in p.offsets && OutPoint(1, 1) !in p.offsets
    ensures var env := Resolved(PairBlock(owner, v, first, x, second, y), PairValues(owner, v));
            var l := Location(OutPoint(3, 0), 0);
            Balanced(env.txs, env.prevouts)
            && var q := Parsed(env, p);
               && !SameTransfers(q.actions) && |q.actions| == 2 && q.actions[0].Transfer? && q.actions[0].location == l
               && q.actions[0].amt == x && q.actions[0].tick == first
               && l in q.all && q.all[l] == TransferProto(second, y.units, 32)
  {
    hide Solo, Parsed, Completes, SameTransfers, PairValues, Resolved;
    PairValid(owner, v, first, x, second, y);
    PairCompletes(owner, v, first, x, second, y);
    PairCollides(Resolved(PairBlock(owner, v, first, x, second, y), PairValues(owner, v)), p, Location(OutPoint(3, 0), 0), first, x, second, y);
  }
}
