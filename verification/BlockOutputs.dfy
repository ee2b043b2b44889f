/** The outputs of a block: all of them, and the spendable ones its batch writes. */
module BlockOutputs {
  import opened Base
  import opened BlockParser
  import opened Pipeline
  import opened HandledKeys
  import Prevouts

  ghost predicate DistinctTxids(txs: seq<Tx>)
  {
    forall i, j :: 0 <= i < j < |txs| ==> txs[i].txid != txs[j].txid
  }

  function TxOutputs(tx: Tx): map<OutPoint, TxOut>
  {
    map v: nat | v < |tx.outputs| :: OutPoint(tx.txid, v) := tx.outputs[v]
  }

  function AllOutputs(txs: seq<Tx>): map<OutPoint, TxOut>
  {
    if txs == [] then map[] else AllOutputs(txs[..|txs| - 1]) + TxOutputs(txs[|txs| - 1])
  }

  lemma TxOutputsAre(tx: Tx, o: OutPoint)
    ensures o in TxOutputs(tx) <==> InTx(tx, o)
    ensures o in TxOutputs(tx) ==> TxOutputs(tx)[o] == tx.outputs[o.vout]
  {
    if InTx(tx, o) {
      assert o == OutPoint(tx.txid, o.vout);
    }
  }

  lemma {:induction false} AllOutputsAre(txs: seq<Tx>, n: nat, o: OutPoint)
    requires n <= |txs| && DistinctTxids(txs)
    ensures o in AllOutputs(txs[..n]) <==> exists k: nat :: k < n && InTx(txs[k], o)
    ensures forall k: nat :: k < n && InTx(txs[k], o) ==> o in AllOutputs(txs[..n]) && AllOutputs(txs[..n])[o] == txs[k].outputs[o.vout]
    decreases n
  {
    hide TxOutputs;
    if n > 0 {
      assert txs[..n][..n - 1] == txs[..n - 1];
      AllOutputsAre(txs, n - 1, o);
      TxOutputsAre(txs[n - 1], o);
    }
  }

  lemma InBlockIs(env: Env, o: OutPoint)
    requires DistinctTxids(env.txs)
    ensures o in AllOutputs(env.txs) <==> Made(env.txs, o)
    ensures o in AllOutputs(env.txs) <==> exists out :: InBlock(env, o, out)
    ensures forall out :: InBlock(env, o, out) ==> o in AllOutputs(env.txs) && AllOutputs(env.txs)[o] == out
  {
    var txs := env.txs;
    assert txs[..|txs|] == txs;
    AllOutputsAre(txs, |txs|, o);
    if k: nat :| k < |txs| && InTx(txs[k], o) {
      assert InBlock(env, o, txs[k].outputs[o.vout]);
    }
    forall out | InBlock(env, o, out) ensures o in AllOutputs(txs) && AllOutputs(txs)[o] == out {
      var k: nat :| k < |txs| && o.txid == txs[k].txid && o.vout < |txs[k].outputs| && txs[k].outputs[o.vout] == out;
      assert InTx(txs[k], o);
    }
  }

  lemma WrittenAt(txs: seq<Tx>, k: nat, o: OutPoint)
    requires k < |txs| && Prevouts.Makes(txs[k], o)
    ensures var out := txs[k].outputs[o.vout];
            o in Prevouts.Written(txs[..k + 1]) && Prevouts.Written(txs[..k + 1])[o] == TxPrevout(out.scriptHash, out.value)
  {
    assert txs[..k + 1][..k] == txs[..k];
    hide Prevouts.OutputsOf;
    Prevouts.OutputsOfIs(txs[k], o);
  }

  lemma WrittenValue(txs: seq<Tx>, k: nat, o: OutPoint)
    requires k < |txs| && Prevouts.Makes(txs[k], o) && DistinctTxids(txs)
    ensures var out := txs[k].outputs[o.vout];
            o in Prevouts.Written(txs) && Prevouts.Written(txs)[o] == TxPrevout(out.scriptHash, out.value)
  {
    hide Prevouts.Written;
    WrittenAt(txs, k, o);
    Prevouts.WrittenStays(txs, k + 1, |txs|, o);
    assert txs[..|txs|] == txs;
  }

  /** The spendable outputs of the block, as the unspent-output table gets them. */
  lemma WrittenIs(env: Env, o: OutPoint)
    requires DistinctTxids(env.txs)
    ensures o in Prevouts.Written(env.txs) <==> exists out :: InBlock(env, o, out) && !out.unspendable
    ensures forall out :: InBlock(env, o, out) && o in Prevouts.Written(env.txs) ==> Prevouts.Written(env.txs)[o] == AsPrevout(out)
  {
    hide Prevouts.Written;
    var txs := env.txs;
    assert txs[..|txs|] == txs;
    Prevouts.WrittenBy(txs, |txs|, o);
    if o in Prevouts.Written(txs) {
      var k: nat :| k < |txs| && Prevouts.Makes(txs[k], o);
      assert InBlock(env, o, txs[k].outputs[o.vout]);
      WrittenValue(txs, k, o);
      InBlockIs(env, o);
    }
    if out :| InBlock(env, o, out) && !out.unspendable {
      var k: nat :| k < |txs| && o.txid == txs[k].txid && o.vout < |txs[k].outputs| && txs[k].outputs[o.vout] == out;
      assert Prevouts.Makes(txs[k], o);
    }
  }
}
