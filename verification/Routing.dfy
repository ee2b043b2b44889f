/** Block-level routing: every unit of input value goes to exactly one place, and no two collide. */
module Routing {
  import opened Base
  import opened Searcher
  import opened Leaked

  /** What consensus gives a block: one coinbase, first; distinct transactions; no transaction spends
      more than it has; the coinbase claims at least the fees. */
  ghost predicate Balanced(txs: seq<Tx>, prevouts: map<OutPoint, TxPrevout>)
  {
    && txs != [] && txs[0].coinbase
    && (forall k :: 1 <= k < |txs| ==> !txs[k].coinbase && Funded(txs[k], prevouts) && OutTotal(txs[k].outputs) <= InTotal(txs[k], prevouts))
    && (forall i, j :: 0 <= i < j < |txs| ==> txs[i].txid != txs[j].txid)
    && FeesBefore(txs, prevouts, |txs|) <= OutTotal(txs[0].outputs)
  }

  ghost function FeesBefore(txs: seq<Tx>, prevouts: map<OutPoint, TxPrevout>, k: nat): nat
    requires k <= |txs|
    requires forall k :: 1 <= k < |txs| ==> !txs[k].coinbase && Funded(txs[k], prevouts) && OutTotal(txs[k].outputs) <= InTotal(txs[k], prevouts)
  {
    if k <= 1 then 0
    else FeesBefore(txs, prevouts, k - 1) + InTotal(txs[k - 1], prevouts) - OutTotal(txs[k - 1].outputs)
  }

  lemma FeesStart(txs: seq<Tx>, prevouts: map<OutPoint, TxPrevout>)
    requires Balanced(txs, prevouts)
    ensures FeesBefore(txs, prevouts, 1) == 0
  {
  }

  lemma FeesStep(txs: seq<Tx>, prevouts: map<OutPoint, TxPrevout>, k: nat)
    requires Balanced(txs, prevouts) && 1 <= k < |txs|
    ensures FeesBefore(txs, prevouts, k + 1) == FeesBefore(txs, prevouts, k) + (InTotal(txs[k], prevouts) - OutTotal(txs[k].outputs))
  {
  }

  ghost function Reward(txs: seq<Tx>, prevouts: map<OutPoint, TxPrevout>): nat
    requires Balanced(txs, prevouts)
  {
    OutTotal(txs[0].outputs) - FeesBefore(txs, prevouts, |txs|)
  }

  lemma {:induction false} FeesGrow(txs: seq<Tx>, prevouts: map<OutPoint, TxPrevout>, i: nat, j: nat)
    requires Balanced(txs, prevouts) && i <= j <= |txs|
    ensures FeesBefore(txs, prevouts, i) <= FeesBefore(txs, prevouts, j)
    decreases j - i
  {
    if i < j {
      FeesGrow(txs, prevouts, i, j - 1);
      if j > 1 {
        FeesStep(txs, prevouts, j - 1);
      }
    }
  }

  /** Offset of unit `u` of transaction `k` among all fees of the block. */
  ghost function FeeKey(txs: seq<Tx>, prevouts: map<OutPoint, TxPrevout>, k: nat, u: nat): nat
    requires Balanced(txs, prevouts) && 1 <= k < |txs| && OutTotal(txs[k].outputs) <= u
  {
    FeesBefore(txs, prevouts, k) + u - OutTotal(txs[k].outputs)
  }

  /** Where unit `u` of the input value of transaction `k` ends up: in the transaction's own outputs,
      or as fee in the coinbase after the reward. */
  ghost function Place(txs: seq<Tx>, prevouts: map<OutPoint, TxPrevout>, k: nat, u: nat): Option<Location>
    requires Balanced(txs, prevouts) && 1 <= k < |txs|
  {
    match Locate(txs[k].outputs, u)
    case Some((vout, offset)) => Some(Location(OutPoint(txs[k].txid, vout), offset))
    case None =>
      LocateIs(txs[k].outputs, u);
      CoinbaseLocation(txs[0], Reward(txs, prevouts), FeeKey(txs, prevouts, k, u))
  }

  /** Every unit has a place, inside the output it is placed in. */
  lemma PlaceExists(txs: seq<Tx>, prevouts: map<OutPoint, TxPrevout>, k: nat, u: nat)
    requires Balanced(txs, prevouts) && 1 <= k < |txs| && u < InTotal(txs[k], prevouts)
    ensures var p := Place(txs, prevouts, k, u);
            && p.Some?
            && exists t :: (t == 0 || t == k) && p.value.outpoint.txid == txs[t].txid
                           && p.value.outpoint.vout < |txs[t].outputs| && p.value.offset < txs[t].outputs[p.value.outpoint.vout].value
  {
    LocateIs(txs[k].outputs, u);
    if u < OutTotal(txs[k].outputs) {
      assert FallsInto(txs[k].outputs, u, Locate(txs[k].outputs, u).value.0, Locate(txs[k].outputs, u).value.1);
      assert txs[k].txid == Place(txs, prevouts, k, u).value.outpoint.txid;
    } else {
      var pos := Reward(txs, prevouts) + FeeKey(txs, prevouts, k, u);
      FeesGrow(txs, prevouts, k + 1, |txs|);
      LocateIs(txs[0].outputs, pos);
      assert FallsInto(txs[0].outputs, pos, Locate(txs[0].outputs, pos).value.0, Locate(txs[0].outputs, pos).value.1);
      assert txs[0].txid == Place(txs, prevouts, k, u).value.outpoint.txid;
    }
  }

  lemma FeeKeyInjective(txs: seq<Tx>, prevouts: map<OutPoint, TxPrevout>, k: nat, u: nat, k': nat, u': nat)
    requires Balanced(txs, prevouts) && 1 <= k <= k' < |txs|
    requires OutTotal(txs[k].outputs) <= u < InTotal(txs[k], prevouts)
    requires OutTotal(txs[k'].outputs) <= u' < InTotal(txs[k'], prevouts)
    requires FeeKey(txs, prevouts, k, u) == FeeKey(txs, prevouts, k', u')
    ensures k == k' && u == u'
  {
    if k < k' {
      FeesGrow(txs, prevouts, k + 1, k');
    }
  }

  /** No two units of the block's input value are placed on the same satoshi. */
  lemma PlaceInjective(txs: seq<Tx>, prevouts: map<OutPoint, TxPrevout>, k: nat, u: nat, k': nat, u': nat)
    requires Balanced(txs, prevouts) && 1 <= k < |txs| && 1 <= k' < |txs|
    requires u < InTotal(txs[k], prevouts) && u' < InTotal(txs[k'], prevouts)
    requires Place(txs, prevouts, k, u) == Place(txs, prevouts, k', u')
    ensures k == k' && u == u'
  {
    hide CoinbaseLocation, Reward, FeesBefore, FeeKey;
    PlaceExists(txs, prevouts, k, u);
    LocateIs(txs[k].outputs, u);
    LocateIs(txs[k'].outputs, u');
    PlaceTx(txs, prevouts, k, u);
    PlaceTx(txs, prevouts, k', u');
    if u < OutTotal(txs[k].outputs) {
      LocateInjective(txs[k].outputs, u, u');
    } else {
      FeePlaceInjective(txs, prevouts, k, u, k', u');
    }
  }

  /** A unit stays in its own transaction exactly when it lies below the output total. */
  lemma PlaceTx(txs: seq<Tx>, prevouts: map<OutPoint, TxPrevout>, k: nat, u: nat)
    requires Balanced(txs, prevouts) && 1 <= k < |txs| && u < InTotal(txs[k], prevouts)
    ensures Place(txs, prevouts, k, u).Some?
    ensures Place(txs, prevouts, k, u).value.outpoint.txid == (if u < OutTotal(txs[k].outputs) then txs[k].txid else txs[0].txid)
  {
    PlaceExists(txs, prevouts, k, u);
    LocateIs(txs[k].outputs, u);
  }

  lemma FeePlaceInjective(txs: seq<Tx>, prevouts: map<OutPoint, TxPrevout>, k: nat, u: nat, k': nat, u': nat)
    requires Balanced(txs, prevouts) && 1 <= k < |txs| && 1 <= k' < |txs|
    requires OutTotal(txs[k].outputs) <= u < InTotal(txs[k], prevouts)
    requires OutTotal(txs[k'].outputs) <= u' < InTotal(txs[k'], prevouts)
    requires Place(txs, prevouts, k, u).Some? && Place(txs, prevouts, k, u) == Place(txs, prevouts, k', u')
    ensures k == k' && u == u'
  {
    LocateIs(txs[k].outputs, u);
    LocateIs(txs[k'].outputs, u');
    var reward := Reward(txs, prevouts);
    LocateInjective(txs[0].outputs, reward + FeeKey(txs, prevouts, k, u), reward + FeeKey(txs, prevouts, k', u'));
    if k <= k' {
      FeeKeyInjective(txs, prevouts, k, u, k', u');
    } else {
      FeeKeyInjective(txs, prevouts, k', u', k, u);
    }
  }

  /** Every satoshi of a transaction's outputs is the place of one of its input units. */
  lemma OutputsCovered(txs: seq<Tx>, prevouts: map<OutPoint, TxPrevout>, k: nat, vout: nat, offset: nat)
    requires Balanced(txs, prevouts) && 1 <= k < |txs| && vout < |txs[k].outputs| && offset < txs[k].outputs[vout].value
    ensures exists u: nat :: u < InTotal(txs[k], prevouts) && Place(txs, prevouts, k, u) == Some(Location(OutPoint(txs[k].txid, vout), offset))
  {
    var outs := txs[k].outputs;
    var u := Total(OutValues(outs)[..vout]) + offset;
    TotalStep(OutValues(outs), vout);
    TotalMono(OutValues(outs), vout + 1, |outs|);
    assert OutValues(outs)[..|outs|] == OutValues(outs);
    LocateIs(outs, u);
    assert FallsInto(outs, u, vout, offset);
    assert Place(txs, prevouts, k, u) == Some(Location(OutPoint(txs[k].txid, vout), offset));
  }

  /** Every satoshi the coinbase claims beyond the reward is the place of one fee unit. */
  lemma {:induction false} FeesCovered(txs: seq<Tx>, prevouts: map<OutPoint, TxPrevout>, key: nat, n: nat)
    requires Balanced(txs, prevouts) && n <= |txs| && key < FeesBefore(txs, prevouts, n)
    ensures exists k: nat, u: nat :: 1 <= k < |txs| && OutTotal(txs[k].outputs) <= u < InTotal(txs[k], prevouts)
                           && FeeKey(txs, prevouts, k, u) == key
                           && Place(txs, prevouts, k, u) == CoinbaseLocation(txs[0], Reward(txs, prevouts), key)
    decreases n
  {
    if key < FeesBefore(txs, prevouts, n - 1) {
      FeesCovered(txs, prevouts, key, n - 1);
    } else {
      var k := n - 1;
      var u := key - FeesBefore(txs, prevouts, k) + OutTotal(txs[k].outputs);
      LocateIs(txs[k].outputs, u);
      assert FeeKey(txs, prevouts, k, u) == key;
    }
  }

  // ---- the position right after a transaction's inputs ----

  ghost predicate NoFee(txs: seq<Tx>, prevouts: map<OutPoint, TxPrevout>, j: nat)
    requires Balanced(txs, prevouts) && 1 <= j < |txs|
  {
    InTotal(txs[j], prevouts) == OutTotal(txs[j].outputs)
  }

  lemma {:induction false} FeesStand(txs: seq<Tx>, prevouts: map<OutPoint, TxPrevout>, a: nat, b: nat)
    requires Balanced(txs, prevouts) && 1 <= a <= b <= |txs| && forall j :: a <= j < b ==> NoFee(txs, prevouts, j)
    ensures FeesBefore(txs, prevouts, b) == FeesBefore(txs, prevouts, a)
    decreases b - a
  {
    if a < b {
      hide InTotal, OutTotal, FeesBefore, Balanced;
      FeesStand(txs, prevouts, a, b - 1);
      FeesStep(txs, prevouts, b - 1);
      assert NoFee(txs, prevouts, b - 1);
    }
  }

  /** Something created at the very end of a transaction's inputs, past every unit of theirs, takes the
      place of the first fee unit of the next transaction that pays a fee. */
  lemma EndTakesNextFee(txs: seq<Tx>, prevouts: map<OutPoint, TxPrevout>, k: nat, next: nat)
    requires Balanced(txs, prevouts) && 1 <= k < next < |txs|
    requires (forall j :: k < j < next ==> NoFee(txs, prevouts, j)) && !NoFee(txs, prevouts, next)
    ensures Place(txs, prevouts, k, InTotal(txs[k], prevouts)) == Place(txs, prevouts, next, OutTotal(txs[next].outputs))
    ensures Place(txs, prevouts, k, InTotal(txs[k], prevouts)).Some?
  {
    hide CoinbaseLocation, InTotal, OutTotal, Locate;
    LocateIs(txs[k].outputs, InTotal(txs[k], prevouts));
    LocateIs(txs[next].outputs, OutTotal(txs[next].outputs));
    FeesStep(txs, prevouts, k);
    FeesStand(txs, prevouts, k + 1, next);
    PlaceExists(txs, prevouts, next, OutTotal(txs[next].outputs));
  }

  /** Without such a transaction it has no place at all. */
  lemma EndDropped(txs: seq<Tx>, prevouts: map<OutPoint, TxPrevout>, k: nat)
    requires Balanced(txs, prevouts) && 1 <= k < |txs| && forall j :: k < j < |txs| ==> NoFee(txs, prevouts, j)
    ensures Place(txs, prevouts, k, InTotal(txs[k], prevouts)) == None
  {
    hide InTotal, OutTotal, Locate;
    LocateIs(txs[k].outputs, InTotal(txs[k], prevouts));
    FeesStep(txs, prevouts, k);
    FeesStand(txs, prevouts, k + 1, |txs|);
    LocateIs(txs[0].outputs, OutTotal(txs[0].outputs));
  }
}
