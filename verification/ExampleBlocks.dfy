/** Blocks for the examples: a coinbase, or a coinbase and one transaction, on a valid chain. */
module ExampleBlocks {
  import opened Base
  import opened Ledger
  import opened Searcher
  import opened Routing
  import opened BlockParser
  import opened Pipeline
  import opened UndoLog
  import opened ReorgOutputs
  import opened BlockOutputs
  import opened HandledExists
  import opened HandledChain
  import opened HandledReorgs
  import opened BlockStreams
  import Prevouts

  function Claim(txid: nat): Tx
  {
    Tx(txid, true, [], [])
  }

  ghost function BlockAt(txs: seq<Tx>, height: nat): Env
  {
    Env(txs, map[], false, false, height, 0, (o: OutPoint, s: set<nat>) => Listing(s), (c, b) => None)
  }

  ghost function Mined(txs: seq<Tx>, height: nat, reorgLen: nat): ChainEvent
  {
    ChainEvent(BlockAt(txs, height), 60, reorgLen, map[], BlockInfo(0, 0), 0)
  }

  ghost function ValuesOf(txs: seq<Tx>): Values
  {
    o => if o in AllOutputs(txs) then AsPrevout(AllOutputs(txs)[o]) else TxPrevout(OP_RETURN_HASH, 0)
  }

  lemma ValuesAgree(all: seq<Tx>, txs: seq<Tx>, height: nat)
    requires DistinctTxids(all) && txs != [] && forall tx :: tx in txs ==> tx in all
    ensures OutputsAgree(ValuesOf(all), BlockAt(txs, height))
  {
    hide AllOutputs, DistinctTxids;
    var block, whole := BlockAt(txs, height), BlockAt(all, height);
    forall o, out | InBlock(block, o, out) ensures ValuesOf(all)(o) == AsPrevout(out) {
      var k: nat :| k < |txs| && o.txid == txs[k].txid && o.vout < |txs[k].outputs| && txs[k].outputs[o.vout] == out;
      assert txs[k] in all;
      var j: nat :| j < |all| && all[j] == txs[k];
      assert InBlock(whole, o, out);
      InBlockIs(whole, o);
    }
  }

  // ---- what the blocks spend and make ----

  lemma ValueAt(val: Values, block: Env, k: nat, vout: nat)
    requires OutputsAgree(val, block) && k < |block.txs| && vout < |block.txs[k].outputs|
    ensures val(OutPoint(block.txs[k].txid, vout)) == AsPrevout(block.txs[k].outputs[vout])
  {
    assert InBlock(block, OutPoint(block.txs[k].txid, vout), block.txs[k].outputs[vout]);
  }

  lemma CoinbaseTables(c0: Tx, height: nat)
    requires c0.coinbase && |c0.outputs| > 0 && !c0.outputs[0].unspendable
    ensures Prevouts.Spent([c0]) == {} && TxidsIn([BlockAt([c0], height)]) == {c0.txid}
    ensures OutPoint(c0.txid, 0) in UnspentAfter([BlockAt([c0], height)])
  {
    var block := BlockAt([c0], height);
    CoinbaseSpendsNothing(c0);
    assert [block][..0] == [];
    assert TxidsIn([block]) == {c0.txid};
    assert InBlock(block, OutPoint(block.txs[0].txid, 0), block.txs[0].outputs[0]);
    WrittenIs(block, OutPoint(c0.txid, 0));
  }

  lemma UnspentNew(blocks: seq<Env>, block: Env, k: nat, vout: nat)
    requires DistinctTxids(block.txs) && k < |block.txs| && vout < |block.txs[k].outputs| && !block.txs[k].outputs[vout].unspendable
    requires OutPoint(block.txs[k].txid, vout) !in Prevouts.Spent(block.txs)
    ensures OutPoint(block.txs[k].txid, vout) in UnspentAfter(blocks + [block])
    ensures TxidsIn(blocks + [block]) == TxidsIn(blocks) + set j | 0 <= j < |block.txs| :: block.txs[j].txid
  {
    hide Prevouts.Written, Prevouts.Spent;
    assert (blocks + [block])[..|blocks|] == blocks;
    assert InBlock(block, OutPoint(block.txs[k].txid, vout), block.txs[k].outputs[vout]);
    WrittenIs(block, OutPoint(block.txs[k].txid, vout));
  }

  lemma SameOutputsAgree(val: Values, a: Env, b: Env)
    requires OutputsAgree(val, a) && a.txs == b.txs
    ensures OutputsAgree(val, b)
  {
    forall o, out | InBlock(b, o, out) ensures val(o) == AsPrevout(out) {
      assert InBlock(a, o, out);
    }
  }

  lemma NothingBefore()
    ensures TxidsIn([]) == {} && UnspentAfter([]) == map[]
  {
  }

  // ---- valid blocks ----

  lemma FirstExtends(c0: Tx, height: nat, val: Values)
    requires c0.coinbase && OutputsAgree(val, BlockAt([c0], height))
    ensures Extends({}, map[], BlockAt([c0], height), val)
  {
    hide OutputsAgree, Prevouts.Spent;
    CoinbaseSpendsNothing(c0);
    var env := Resolved(BlockAt([c0], height), val);
    assert env.prevouts == map[];
  }

  /** A block of a coinbase and one transaction that spends unspent outputs and pays no fee is valid. */
  lemma SpendExtends(txids: set<nat>, unspent: Outputs, block: Env, val: Values, keys: set<OutPoint>)
    requires |block.txs| == 2 && block.txs[0].coinbase && !block.txs[1].coinbase && OrderOk(block) && OutputsAgree(val, block)
    requires block.txs[0].txid != block.txs[1].txid && block.txs[0].txid !in txids && block.txs[1].txid !in txids
    requires Prevouts.DistinctInputs(block.txs[1].inputs) && keys == Prevouts.FirstInputs(block.txs[1].inputs, |block.txs[1].inputs|)
    requires forall o :: o in keys ==> o in unspent && o.txid in txids
    requires var prevouts := map o | o in keys :: val(o);
             Funded(block.txs[1], prevouts) && OutTotal(block.txs[1].outputs) == InTotal(block.txs[1], prevouts)
    ensures Extends(txids, unspent, block, val)
    ensures Resolved(block, val) == block.(prevouts := map o | o in keys :: val(o))
  {
    hide OutTotal, InTotal, Funded, OutputsAgree;
    var c, t := block.txs[0], block.txs[1];
    CoinbaseSpendsNothing(c);
    assert block.txs == [c, t] && [c, t][..1] == [c];
    assert Prevouts.InputsOf(t) == keys;
    assert Prevouts.Spent(block.txs) == keys;
    hide Prevouts.Spent;
    var prevouts := map o | o in keys :: val(o);
    assert TrueInputs(block, val) == prevouts;
    forall k | 0 <= k < |t.inputs| ensures t.inputs[k].outpoint.txid in txids {
      assert t.inputs[k].outpoint in keys;
    }
    assert FeesBefore(block.txs, prevouts, 1) == 0;
  }

  lemma PairTotal(a: nat, b: nat)
    ensures Total([a, b]) == a + b && Total([a]) == a && Total([]) == 0
  {
    var one: seq<nat> := [a];
    var two: seq<nat> := [a, b];
    assert two[..1] == one && one[..0] == [];
    assert Total(one) == a;
  }
}
