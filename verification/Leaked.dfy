/** Inscriptions that fall into fees: where they sit in the block's fees and, in the end, in the
    coinbase outputs. */
module Leaked {
  import opened Base
  import opened Searcher

  datatype LeakedKind = Creation | Move

  /** The coinbase location of a fee offset: fees come after the block reward. */
  function CoinbaseLocation(coinbase: Tx, reward: nat, feeOffset: nat): Option<Location>
  {
    match Locate(coinbase.outputs, reward + feeOffset)
    case None => None
    case Some((vout, offset)) => Some(Location(OutPoint(coinbase.txid, vout), offset))
  }

  /** Position `pos` of a transaction's input value lies in its fee. */
  predicate InFee(tx: Tx, prevouts: map<OutPoint, TxPrevout>, pos: nat)
    requires Funded(tx, prevouts)
  {
    OutTotal(tx.outputs) <= pos <= InTotal(tx, prevouts)
  }

  class LeakedInscriptions {
    var inscriptions: map<nat, seq<LeakedKind>>
    var totalAmount: nat
    var coinbaseReward: Option<nat>
    const coinbaseTx: Tx

    constructor (coinbase: Tx)
      ensures inscriptions == map[] && totalAmount == 0 && coinbaseReward == None && coinbaseTx == coinbase
    {
      coinbaseTx := coinbase;
      inscriptions, totalAmount, coinbaseReward := map[], 0, None;
    }

    /** The sums of the input values up to and with each input. */
    static method Cumulate(tx: Tx, prevouts: map<OutPoint, TxPrevout>) returns (inputsCum: seq<nat>)
      requires Funded(tx, prevouts)
      ensures |inputsCum| == |tx.inputs|
      ensures forall j :: 0 <= j < |inputsCum| ==> inputsCum[j] == StartOf(tx, prevouts, j) + prevouts[tx.inputs[j].outpoint].value
      ensures |inputsCum| > 0 ==> inputsCum[|inputsCum| - 1] == InTotal(tx, prevouts)
    {
      ghost var values := InValues(tx, prevouts);
      inputsCum := [];
      var lastValue: nat := 0;
      for i := 0 to |tx.inputs|
        invariant |inputsCum| == i && lastValue == Total(values[..i])
        invariant forall j :: 0 <= j < i ==> inputsCum[j] == StartOf(tx, prevouts, j) + prevouts[tx.inputs[j].outpoint].value
        invariant i > 0 ==> inputsCum[i - 1] == lastValue
      {
        TotalStep(values, i);
        lastValue := lastValue + prevouts[tx.inputs[i].outpoint].value;
        inputsCum := inputsCum + [lastValue];
      }
      assert values[..|values|] == values;
    }

    static method FindFee(tx: Tx, inputIdx: nat, inputOffset: nat, prevouts: map<OutPoint, TxPrevout>) returns (fee: nat, feeOffset: nat)
      requires Funded(tx, prevouts) && inputIdx < |tx.inputs|
      requires InFee(tx, prevouts, StartOf(tx, prevouts, inputIdx) + inputOffset)
      ensures fee == InTotal(tx, prevouts) - OutTotal(tx.outputs)
      ensures feeOffset == StartOf(tx, prevouts, inputIdx) + inputOffset - OutTotal(tx.outputs)
      ensures feeOffset <= fee
    {
      hide InTotal, OutTotal, StartOf;
      var inputsCum := Cumulate(tx, prevouts);
      var outputSum := SumOutputs(tx.outputs);
      var inputSum := inputsCum[|inputsCum| - 1];
      var prevOutValue := prevouts[tx.inputs[inputIdx].outpoint].value;
      fee := inputSum - outputSum;
      feeOffset := inputsCum[inputIdx] - prevOutValue + inputOffset - outputSum;
    }

    /** Files a leaked inscription under its offset among all fees of the block so far. */
    method Add(inputIdx: nat, tx: Tx, inputOffset: nat, prevouts: map<OutPoint, TxPrevout>, kind: LeakedKind)
      requires Funded(tx, prevouts) && inputIdx < |tx.inputs|
      requires InFee(tx, prevouts, StartOf(tx, prevouts, inputIdx) + inputOffset)
      requires InTotal(tx, prevouts) - OutTotal(tx.outputs) <= totalAmount
      modifies this`inscriptions
      ensures var feesBefore := totalAmount - (InTotal(tx, prevouts) - OutTotal(tx.outputs));
              var key := feesBefore + (StartOf(tx, prevouts, inputIdx) + inputOffset - OutTotal(tx.outputs));
              inscriptions == old(inscriptions)[key := (if key in old(inscriptions) then old(inscriptions)[key] else []) + [kind]]
    {
      var fee, feeOffset := FindFee(tx, inputIdx, inputOffset, prevouts);
      var diff: nat := fee - feeOffset;
      var key: nat := totalAmount - diff;
      if key in inscriptions {
        inscriptions := inscriptions[key := inscriptions[key] + [kind]];
      } else {
        assert [kind] == [] + [kind];
        inscriptions := inscriptions[key := [kind]];
      }
    }

    method AddTxFee(tx: Tx, txos: map<OutPoint, TxPrevout>) returns (total: nat)
      requires Funded(tx, txos) && OutTotal(tx.outputs) <= InTotal(tx, txos)
      modifies this`totalAmount
      ensures totalAmount == old(totalAmount) + InTotal(tx, txos) - OutTotal(tx.outputs)
      ensures total == totalAmount
    {
      ghost var values := InValues(tx, txos);
      var inputsSum: nat := 0;
      for i := 0 to |tx.inputs|
        invariant inputsSum == Total(values[..i]) && totalAmount == old(totalAmount)
      {
        TotalStep(values, i);
        inputsSum := inputsSum + txos[tx.inputs[i].outpoint].value;
      }
      assert values[..|values|] == values;
      var outputsSum := SumOutputs(tx.outputs);
      totalAmount := totalAmount + inputsSum - outputsSum;
      total := totalAmount;
    }

    method UpdateReward()
      requires totalAmount <= OutTotal(coinbaseTx.outputs)
      modifies this`coinbaseReward
      ensures coinbaseReward == Some(OutTotal(coinbaseTx.outputs) - totalAmount)
    {
      var total := SumOutputs(coinbaseTx.outputs);
      coinbaseReward := Some(total - totalAmount);
    }

    method FindInscriptionVout(offset: nat) returns (r: Option<(nat, nat)>)
      requires coinbaseReward.Some?
      ensures r == Locate(coinbaseTx.outputs, coinbaseReward.value + offset)
    {
      var rest: nat := offset + coinbaseReward.value;
      for i := 0 to |coinbaseTx.outputs|
        invariant LocateFrom(coinbaseTx.outputs, i, rest) == Locate(coinbaseTx.outputs, coinbaseReward.value + offset)
      {
        if rest < coinbaseTx.outputs[i].value {
          return Some((i, rest));
        }
        rest := rest - coinbaseTx.outputs[i].value;
      }
      return None;
    }

    /** The coinbase locations of everything that leaked. */
    method GetLeakedInscriptions() returns (r: set<Location>)
      requires totalAmount <= OutTotal(coinbaseTx.outputs)
      modifies this`coinbaseReward
      ensures forall l :: l in r <==>
                exists key :: key in inscriptions && CoinbaseLocation(coinbaseTx, OutTotal(coinbaseTx.outputs) - totalAmount, key) == Some(l)
    {
      UpdateReward();
      ghost var reward := coinbaseReward.value;
      r := {};
      var rest := inscriptions.Keys;
      while rest != {}
        invariant rest <= inscriptions.Keys && coinbaseReward == Some(reward)
        invariant forall l :: l in r <==> exists key :: key in inscriptions && key !in rest && CoinbaseLocation(coinbaseTx, reward, key) == Some(l)
        decreases rest
      {
        var key :| key in rest;
        ghost var before, r0 := rest, r;
        var place := FindInscriptionVout(key);
        if place.Some? {
          r := r + {Location(OutPoint(coinbaseTx.txid, place.value.0), place.value.1)};
        }
        rest := rest - {key};
        forall l ensures l in r <==> exists k :: k in inscriptions && k !in rest && CoinbaseLocation(coinbaseTx, reward, k) == Some(l) {
          if l in r && l !in r0 {
            assert key in inscriptions && key !in rest && CoinbaseLocation(coinbaseTx, reward, key) == Some(l);
          }
          if l in r0 {
            var k :| k in inscriptions && k !in before && CoinbaseLocation(coinbaseTx, reward, k) == Some(l);
            assert k !in rest;
          }
        }
      }
    }
  }

  /** A leaked inscription finds a coinbase output exactly when it lies strictly inside the fees; only
      one created at the very end of the last transaction's inputs can be dropped. */
  lemma LeakedFound(coinbase: Tx, totalFees: nat, feeOffset: nat)
    requires totalFees <= OutTotal(coinbase.outputs)
    ensures CoinbaseLocation(coinbase, OutTotal(coinbase.outputs) - totalFees, feeOffset).Some? <==> feeOffset < totalFees
  {
    LocateIs(coinbase.outputs, OutTotal(coinbase.outputs) - totalFees + feeOffset);
  }
}
