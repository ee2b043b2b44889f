/** The theorems cover the block after a reorg: a stream that mines one transaction twice is valid. */
module RemineExample {
  import opened Base
  import opened Ledger
  import opened Searcher
  import opened Routing
  import opened BlockParser
  import opened OwnRecords
  import opened Pipeline
  import opened UndoLog
  import opened Consumer
  import opened ReorgOutputs
  import opened Handler
  import opened HandledExists
  import opened HandledChain
  import opened HandledReorgs
  import opened BlockStreams
  import opened ExampleBlocks
  import opened QuietBlocks
  import Positions
  import Prevouts

  /** `t` spends the first output of `c0` and is mined behind `c`. */
  ghost predicate Setting(c0: Tx, c: Tx, t: Tx)
  {
    && c0.coinbase && c.coinbase && !t.coinbase && c0.txid != c.txid && t.txid != c0.txid && t.txid != c.txid
    && |c0.outputs| > 0 && !c0.outputs[0].unspendable
    && |t.inputs| == 1 && t.inputs[0].outpoint == OutPoint(c0.txid, 0) && OutTotal(t.outputs) == c0.outputs[0].value
  }

  // ---- what the blocks spend and make ----

  lemma PairSpends(c: Tx, t: Tx, q: OutPoint)
    requires c.coinbase && !t.coinbase && |t.inputs| == 1 && t.inputs[0].outpoint == q
    ensures Prevouts.Spent([c, t]) == {q}
  {
    CoinbaseSpendsNothing(c);
    assert [c, t][..1] == [c];
    assert Prevouts.InputsOf(t) == {q};
  }

  lemma OneInput(t: Tx, prevouts: map<OutPoint, TxPrevout>)
    requires |t.inputs| == 1 && t.inputs[0].outpoint in prevouts
    ensures Funded(t, prevouts) && InTotal(t, prevouts) == prevouts[t.inputs[0].outpoint].value
  {
    var v := InValues(t, prevouts);
    assert v[..0] == [] && Total(v[..0]) == 0;
  }

  // ---- the blocks are valid ----

  lemma PairOk(c: Tx, t: Tx, q: OutPoint, value: TxPrevout, height: nat)
    requires c.coinbase && !t.coinbase && c.txid != t.txid && |t.inputs| == 1 && t.inputs[0].outpoint == q
    requires q.txid != c.txid && q.txid != t.txid && OutTotal(t.outputs) == value.value
    ensures Positions.Ok(BlockAt([c, t], height).(prevouts := map[q := value]))
  {
    hide OutTotal, InTotal;
    var txs, prevouts := [c, t], map[q := value];
    OneInput(t, prevouts);
    assert FeesBefore(txs, prevouts, 1) == 0;
  }

  lemma PairExtends(c0: Tx, c: Tx, t: Tx, height: nat, below: nat, val: Values)
    requires Setting(c0, c, t)
    requires OutputsAgree(val, BlockAt([c0], below)) && OutputsAgree(val, BlockAt([c, t], height))
    ensures Extends(TxidsIn([BlockAt([c0], below)]), UnspentAfter([BlockAt([c0], below)]), BlockAt([c, t], height), val)
  {
    hide Prevouts.Spent, TxidsIn, UnspentAfter, Positions.Ok, OutputsAgree, OutTotal;
    var q := OutPoint(c0.txid, 0);
    var block := BlockAt([c, t], height);
    CoinbaseTables(c0, below);
    PairSpends(c, t, q);
    ValueAt(val, BlockAt([c0], below), 0, 0);
    assert Prevouts.Spent(block.txs) == {q};
    assert TrueInputs(block, val) == map[q := val(q)];
    PairOk(c, t, q, val(q), height);
  }

  // ---- the stream ----

  ghost function Remined(c0: Tx, c1: Tx, c2: Tx, t: Tx): seq<ChainEvent>
  {
    [Mined([c0], 31, 0), Mined([c1, t], 32, 0), Mined([c2, t], 32, 1)]
  }

  lemma SurvivingAt(c0: Tx, c1: Tx, c2: Tx, t: Tx)
    ensures var es := Remined(c0, c1, c2, t);
            && TipsOk(es) && Surviving(es[..0]) == Survivors([], 0) && Surviving(es[..1]) == Survivors([BlockAt([c0], 31)], 1)
            && Surviving(es[..2]) == Survivors([BlockAt([c0], 31), BlockAt([c1, t], 32)], 2)
            && Left(Surviving(es[..2]).blocks, 2, es[2]) == [BlockAt([c0], 31)]
            && Left(Surviving(es[..1]).blocks, 1, es[1]) == [BlockAt([c0], 31)]
            && Left(Surviving(es[..0]).blocks, 0, es[0]) == []
  {
    var es := Remined(c0, c1, c2, t);
    assert es[..1][..0] == [] && es[..2][..1] == es[..1];
  }

  /** A block with a spend, rolled back, and the spend mined again in its place: the stream is valid, and
      both blocks take the full path. */
  lemma RemineValid(c0: Tx, c1: Tx, c2: Tx, t: Tx)
    requires Setting(c0, c1, t) && Setting(c0, c2, t) && c1.txid != c2.txid
    ensures ValidStream(Remined(c0, c1, c2, t), ValuesOf([c0, c1, c2, t]))
  {
    hide Surviving, Extends, OutputsAgree, ValuesOf, OutTotal, TxidsIn, UnspentAfter;
    var es, val := Remined(c0, c1, c2, t), ValuesOf([c0, c1, c2, t]);
    SurvivingAt(c0, c1, c2, t);
    ValuesAgree([c0, c1, c2, t], [c0], 31);
    ValuesAgree([c0, c1, c2, t], [c1, t], 32);
    ValuesAgree([c0, c1, c2, t], [c2, t], 32);
    NothingBefore();
    FirstExtends(c0, 31, val);
    PairExtends(c0, c1, t, 32, 31, val);
    PairExtends(c0, c2, t, 32, 31, val);
    forall i | 0 <= i < |es| ensures ValidAt(es, i, val) {
    }
  }

  lemma BlocksQuiet(txs: seq<Tx>, height: nat)
    ensures NoMessages(BlockAt(txs, height))
  {
  }

  lemma RemineQuiet(c0: Tx, c1: Tx, c2: Tx, t: Tx)
    ensures TipsOk(Remined(c0, c1, c2, t)) && QuietStream(Remined(c0, c1, c2, t))
  {
    var es := Remined(c0, c1, c2, t);
    SurvivingAt(c0, c1, c2, t);
    assert es[..3] == es && es[..3][..2] == es[..2];
    assert Surviving(es[..3]).blocks == [BlockAt([c0], 31), BlockAt([c2, t], 32)];
    BlocksQuiet([c0], 31);
    BlocksQuiet([c1, t], 32);
    BlocksQuiet([c2, t], 32);
    hide Surviving, NoMessages;
  }

  /** The indexer runs over it: the spend is parsed, rolled back and parsed again, and every promise of the
      whole-run theorem holds after each event. */
  lemma RemineRuns(c0: Tx, c1: Tx, c2: Tx, t: Tx, h: Index) returns (ms: seq<Moment>, bs: seq<Handled>)
    requires Setting(c0, c1, t) && Setting(c0, c2, t) && c1.txid != c2.txid
    ensures RunsOn(ms, Remined(c0, c1, c2, t), bs, ValuesOf([c0, c1, c2, t])) && |bs| == 3 && Full(bs[1]) && Full(bs[2])
    ensures |ms[2].chain| == |ms[3].chain| == 2 && t in ms[2].chain[1].env.txs && t in ms[3].chain[1].env.txs && c2 in ms[3].chain[1].env.txs
  {
    hide ValuesOf, OutTotal, Surviving, RunStep, StandsOn, QuietStream, ValidStream;
    var es, val := Remined(c0, c1, c2, t), ValuesOf([c0, c1, c2, t]);
    RemineValid(c0, c1, c2, t);
    RemineQuiet(c0, c1, c2, t);
    ms, bs := RunExists(es, 3, 0, h, val);
    assert es[..3] == es;
    RemineChains(c0, c1, c2, t, ms, bs, val);
  }

  lemma RemineChains(c0: Tx, c1: Tx, c2: Tx, t: Tx, ms: seq<Moment>, bs: seq<Handled>, val: Values)
    requires RunsOn(ms, Remined(c0, c1, c2, t), bs, val) && ms[0].chain == [] && ms[0].cached == 0 && forall i :: 0 <= i < 3 ==> bs[i].start == 0
    ensures Full(bs[1]) && Full(bs[2])
    ensures |ms[2].chain| == |ms[3].chain| == 2 && t in ms[2].chain[1].env.txs && t in ms[3].chain[1].env.txs && c2 in ms[3].chain[1].env.txs
  {
    hide Valid, SameTransfers, StandsOn, WorkedOut, Rolled, RolledRows, DataOf, BlocksOf, Next;
    var es := Remined(c0, c1, c2, t);
    assert RunStep(ms[0], es[0], bs[0], val, ms[1]) && RunStep(ms[1], es[1], bs[1], val, ms[2]) && RunStep(ms[2], es[2], bs[2], val, ms[3]);
  }
}
