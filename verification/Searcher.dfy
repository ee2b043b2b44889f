/** First-in-first-out positions: where each input starts and which output a position falls into. */
module Searcher {
  import opened Base

  function Total(values: seq<nat>): nat
  {
    if values == [] then 0 else Total(values[..|values| - 1]) + values[|values| - 1]
  }

  lemma TotalStep(values: seq<nat>, i: nat)
    requires i < |values|
    ensures Total(values[..i + 1]) == Total(values[..i]) + values[i]
  {
    assert values[..i + 1][..i] == values[..i];
  }

  lemma {:induction false} TotalMono(values: seq<nat>, i: nat, j: nat)
    requires i <= j <= |values|
    ensures Total(values[..i]) <= Total(values[..j])
    decreases j - i
  {
    if i < j {
      TotalMono(values, i, j - 1);
      TotalStep(values, j - 1);
    }
  }

  function OutValues(outs: seq<TxOut>): seq<nat>
  {
    seq(|outs|, i requires 0 <= i < |outs| => outs[i].value)
  }

  function OutTotal(outs: seq<TxOut>): nat
  {
    Total(OutValues(outs))
  }

  predicate Funded(tx: Tx, prevouts: map<OutPoint, TxPrevout>)
  {
    forall i :: 0 <= i < |tx.inputs| ==> tx.inputs[i].outpoint in prevouts
  }

  function InValues(tx: Tx, prevouts: map<OutPoint, TxPrevout>): seq<nat>
    requires Funded(tx, prevouts)
  {
    seq(|tx.inputs|, i requires 0 <= i < |tx.inputs| => prevouts[tx.inputs[i].outpoint].value)
  }

  function InTotal(tx: Tx, prevouts: map<OutPoint, TxPrevout>): nat
    requires Funded(tx, prevouts)
  {
    Total(InValues(tx, prevouts))
  }

  /** Sum of the input values before input `i`. */
  function StartOf(tx: Tx, prevouts: map<OutPoint, TxPrevout>, i: nat): nat
    requires Funded(tx, prevouts) && i <= |tx.inputs|
  {
    Total(InValues(tx, prevouts)[..i])
  }

  /** Position `pos` of the outputs laid end to end is offset `o` of output `j`. */
  predicate FallsInto(outs: seq<TxOut>, pos: nat, j: nat, o: nat)
  {
    j < |outs| && o < outs[j].value && pos == Total(OutValues(outs)[..j]) + o
  }

  function LocateFrom(outs: seq<TxOut>, j: nat, offset: nat): Option<(nat, nat)>
    requires j <= |outs|
    decreases |outs| - j
  {
    if j == |outs| then None
    else if offset < outs[j].value then Some((j, offset))
    else LocateFrom(outs, j + 1, offset - outs[j].value)
  }

  function Locate(outs: seq<TxOut>, pos: nat): Option<(nat, nat)>
  {
    LocateFrom(outs, 0, pos)
  }

  lemma {:induction false} LocateFromIs(outs: seq<TxOut>, j: nat, offset: nat)
    requires j <= |outs|
    ensures var r := LocateFrom(outs, j, offset);
            var pos := Total(OutValues(outs)[..j]) + offset;
            && (r.Some? ==> FallsInto(outs, pos, r.value.0, r.value.1))
            && (r.Some? <==> pos < OutTotal(outs))
    decreases |outs| - j
  {
    var v := OutValues(outs);
    assert v[..|outs|] == v;
    if j < |outs| {
      TotalStep(v, j);
      TotalMono(v, j + 1, |outs|);
      if offset >= outs[j].value {
        LocateFromIs(outs, j + 1, offset - outs[j].value);
      }
    }
  }

  lemma FallsIntoUnique(outs: seq<TxOut>, pos: nat, j: nat, o: nat, j': nat, o': nat)
    requires FallsInto(outs, pos, j, o) && FallsInto(outs, pos, j', o')
    ensures j == j' && o == o'
  {
    var v := OutValues(outs);
    if j < j' {
      TotalStep(v, j);
      TotalMono(v, j + 1, j');
    } else if j' < j {
      TotalStep(v, j');
      TotalMono(v, j' + 1, j);
    }
  }

  /** Output and offset of a position are unique, and exist exactly below the output total. */
  lemma LocateIs(outs: seq<TxOut>, pos: nat)
    ensures Locate(outs, pos).Some? <==> pos < OutTotal(outs)
    ensures forall j: nat, o: nat :: FallsInto(outs, pos, j, o) <==> Locate(outs, pos) == Some((j, o))
  {
    LocateFromIs(outs, 0, pos);
    var r := Locate(outs, pos);
    forall j: nat, o: nat | FallsInto(outs, pos, j, o) ensures r == Some((j, o)) {
      TotalStep(OutValues(outs), j);
      TotalMono(OutValues(outs), j + 1, |outs|);
      assert OutValues(outs)[..|outs|] == OutValues(outs);
      FallsIntoUnique(outs, pos, j, o, r.value.0, r.value.1);
    }
  }

  /** A position is recovered from its output and offset: locating loses nothing. */
  lemma LocateInjective(outs: seq<TxOut>, pos: nat, pos': nat)
    requires Locate(outs, pos).Some? && Locate(outs, pos) == Locate(outs, pos')
    ensures pos == pos'
  {
    LocateIs(outs, pos);
    LocateIs(outs, pos');
    var (j, o) := Locate(outs, pos).value;
    assert FallsInto(outs, pos, j, o) && FallsInto(outs, pos', j, o);
  }

  method SumOutputs(outs: seq<TxOut>) returns (total: nat)
    ensures total == OutTotal(outs)
  {
    total := 0;
    for i := 0 to |outs|
      invariant total == Total(OutValues(outs)[..i])
    {
      TotalStep(OutValues(outs), i);
      total := total + outs[i].value;
    }
    assert OutValues(outs)[..|outs|] == OutValues(outs);
  }

  method InputValues(tx: Tx, prevouts: map<OutPoint, TxPrevout>) returns (r: Option<seq<nat>>)
    ensures r.Some? <==> Funded(tx, prevouts)
    ensures r.Some? ==> r.value == InValues(tx, prevouts)
  {
    var inputValues: seq<nat> := [];
    for i := 0 to |tx.inputs|
      invariant |inputValues| == i
      invariant forall j :: 0 <= j < i ==> tx.inputs[j].outpoint in prevouts && inputValues[j] == prevouts[tx.inputs[j].outpoint].value
    {
      if tx.inputs[i].outpoint !in prevouts {
        return None;
      }
      inputValues := inputValues + [prevouts[tx.inputs[i].outpoint].value];
    }
    assert inputValues == InValues(tx, prevouts);
    return Some(inputValues);
  }

  /** Pops whole inputs off the end while the fee covers them, and shortens the one it does not. */
  method PeelFee(all: seq<nat>, outTotal: nat) returns (inputValues: seq<nat>)
    requires outTotal <= Total(all)
    ensures |inputValues| <= |all|
    ensures forall i :: 0 <= i < |all| ==> (i < |inputValues| <==> Total(all[..i]) < outTotal)
    ensures forall i :: 0 <= i < |inputValues| ==> inputValues[..i] == all[..i]
  {
    inputValues := all;
    assert all[..|all|] == all;
    var fee: nat := Total(all) - outTotal;
    while inputValues != []
      invariant |inputValues| <= |all| && inputValues == all[..|inputValues|]
      invariant Total(inputValues) == outTotal + fee
      invariant forall i :: |inputValues| <= i < |all| ==> Total(all[..i]) >= outTotal
      decreases |inputValues|
    {
      var k := |inputValues| - 1;
      var input := inputValues[k];
      inputValues := inputValues[..k];
      assert inputValues == all[..k];
      if input > fee {
        forall i | 0 <= i <= k ensures Total(all[..i]) < outTotal {
          TotalMono(all, i, k);
        }
        inputValues := inputValues + [input - fee];
        assert forall i :: 0 <= i <= k ==> inputValues[..i] == all[..i];
        return;
      }
      fee := fee - input;
    }
  }

  /** Input `i` keeps an entry exactly when it starts below the output total, and the entry is the sum
      of the input values before it. */
  method CalcOffsets(tx: Tx, prevouts: map<OutPoint, TxPrevout>) returns (r: Option<seq<nat>>)
    requires Funded(tx, prevouts) ==> OutTotal(tx.outputs) <= InTotal(tx, prevouts)
    ensures r.Some? <==> Funded(tx, prevouts)
    ensures r.Some? ==> |r.value| <= |tx.inputs|
    ensures r.Some? ==> forall i :: 0 <= i < |tx.inputs| ==> (i < |r.value| <==> StartOf(tx, prevouts, i) < OutTotal(tx.outputs))
    ensures r.Some? ==> forall i :: 0 <= i < |r.value| ==> r.value[i] == StartOf(tx, prevouts, i)
  {
    var all := InputValues(tx, prevouts);
    if all.None? {
      return None;
    }
    var outTotal := SumOutputs(tx.outputs);
    var inputValues := PeelFee(all.value, outTotal);
    var inputsOffsets: seq<nat> := [0];
    for i := 0 to |inputValues|
      invariant |inputsOffsets| == i + 1
      invariant forall j :: 0 <= j <= i ==> inputsOffsets[j] == Total(inputValues[..j])
    {
      TotalStep(inputValues, i);
      inputsOffsets := inputsOffsets + [inputsOffsets[|inputsOffsets| - 1] + inputValues[i]];
    }
    return Some(inputsOffsets[..|inputsOffsets| - 1]);
  }

  /** The output and offset of an optional position; an error exactly when there is none or it lies at
      or past the output total. */
  method GetOutputIndexByInput(offset: Option<nat>, outs: seq<TxOut>) returns (r: Option<(nat, nat)>)
    ensures r == (if offset.Some? then Locate(outs, offset.value) else None)
    ensures r.Some? <==> offset.Some? && offset.value < OutTotal(outs)
    ensures r.Some? ==> FallsInto(outs, offset.value, r.value.0, r.value.1)
  {
    if offset.None? {
      return None;
    }
    LocateIs(outs, offset.value);
    var rest: nat := offset.value;
    var totalOutput := SumOutputs(outs);
    if rest >= totalOutput {
      return None;
    }
    for idx := 0 to |outs|
      invariant LocateFrom(outs, idx, rest) == Locate(outs, offset.value)
    {
      if rest < outs[idx].value {
        return Some((idx, rest));
      }
      rest := rest - outs[idx].value;
    }
    return None;
  }

  /** The fee-peeling loop and the output walk together implement the plain rule: an inscription at
      `offset` of input `i` goes where position `StartOf(i) + offset` falls. */
  lemma RoutingRule(tx: Tx, prevouts: map<OutPoint, TxPrevout>, i: nat, offset: nat, entry: Option<nat>)
    requires Funded(tx, prevouts) && i < |tx.inputs|
    requires entry.Some? <==> StartOf(tx, prevouts, i) < OutTotal(tx.outputs)
    requires entry.Some? ==> entry.value == StartOf(tx, prevouts, i)
    ensures (if entry.Some? then Locate(tx.outputs, entry.value + offset) else None)
            == Locate(tx.outputs, StartOf(tx, prevouts, i) + offset)
  {
    LocateIs(tx.outputs, StartOf(tx, prevouts, i) + offset);
  }
}
