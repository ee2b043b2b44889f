/** The unspent-output table of a block: looked up and written in one batch, with the result of
    processing the transactions one at a time. */
module Prevouts {
  import opened Base
  import opened Positions

  type Table = map<OutPoint, TxPrevout>

  /** The spendable outputs of a transaction. */
  function OutputsOf(tx: Tx): Table
  {
    map v: nat | v < |tx.outputs| && !tx.outputs[v].unspendable ::
      OutPoint(tx.txid, v) := TxPrevout(tx.outputs[v].scriptHash, tx.outputs[v].value)
  }

  function Written(txs: seq<Tx>): Table
  {
    if txs == [] then map[] else Written(txs[..|txs| - 1]) + OutputsOf(txs[|txs| - 1])
  }

  function FirstInputs(inputs: seq<TxIn>, n: nat): set<OutPoint>
    requires n <= |inputs|
  {
    set j | 0 <= j < n :: inputs[j].outpoint
  }

  function InputsOf(tx: Tx): set<OutPoint>
  {
    if tx.coinbase then {} else FirstInputs(tx.inputs, |tx.inputs|)
  }

  function Spent(txs: seq<Tx>): set<OutPoint>
  {
    if txs == [] then {} else Spent(txs[..|txs| - 1]) + InputsOf(txs[|txs| - 1])
  }

  /** Stored value first, this block's own outputs second. */
  function LookUp(db: Table, own: Table, o: OutPoint): Option<TxPrevout>
  {
    if o in db then Some(db[o]) else if o in own then Some(own[o]) else None
  }

  /** All inputs are looked up, or the block is refused. */
  function Batch(db: Table, own: Table, keys: set<OutPoint>): Option<Table>
  {
    if forall o :: o in keys ==> LookUp(db, own, o).Some? then Some(map o | o in keys :: LookUp(db, own, o).value) else None
  }

  predicate Unique(keys: seq<OutPoint>)
  {
    forall i, j :: 0 <= i < j < |keys| ==> keys[i] != keys[j]
  }

  function Listed(keys: seq<OutPoint>): set<OutPoint>
  {
    set o | o in keys
  }

  method NewOutputs(txs: seq<Tx>) returns (toWrite: Table)
    ensures toWrite == Written(txs)
  {
    toWrite := map[];
    for k := 0 to |txs|
      invariant toWrite == Written(txs[..k])
    {
      assert txs[..k + 1][..k] == txs[..k];
      toWrite := toWrite + OutputsOf(txs[k]);
    }
    assert txs[..|txs|] == txs;
  }

  method AddInputs(inputs: seq<TxIn>, before: seq<OutPoint>) returns (keys: seq<OutPoint>)
    requires Unique(before)
    ensures Unique(keys) && Listed(keys) == Listed(before) + FirstInputs(inputs, |inputs|)
  {
    keys := before;
    for i := 0 to |inputs|
      invariant Unique(keys) && Listed(keys) == Listed(before) + FirstInputs(inputs, i)
    {
      var o := inputs[i].outpoint;
      assert FirstInputs(inputs, i + 1) == FirstInputs(inputs, i) + {o};
      ghost var was := keys;
      if o !in keys {
        keys := keys + [o];
        assert keys[|was|] == o;
      }
      assert forall q :: q in Listed(keys) <==> q in Listed(was) || q == o;
    }
  }

  method InputKeys(txs: seq<Tx>) returns (keys: seq<OutPoint>)
    ensures Unique(keys) && Listed(keys) == Spent(txs)
  {
    keys := [];
    for k := 0 to |txs|
      invariant Unique(keys) && Listed(keys) == Spent(txs[..k])
    {
      assert txs[..k + 1][..k] == txs[..k];
      if !txs[k].coinbase {
        keys := AddInputs(txs[k].inputs, keys);
      }
    }
    assert txs[..|txs|] == txs;
  }

  method ProcessPrevouts(db: Table, txs: seq<Tx>) returns (result: Option<Table>, toWrite: Table, toRemove: seq<OutPoint>)
    ensures toWrite == Written(txs)
    ensures Unique(toRemove) && Listed(toRemove) == Spent(txs)
    ensures result == Batch(db, Written(txs), Spent(txs))
  {
    hide Written, Spent;
    toWrite := NewOutputs(txs);
    toRemove := InputKeys(txs);
    var found: Table := map[];
    for i := 0 to |toRemove|
      invariant forall o :: o in found <==> o in toRemove[..i]
      invariant forall o :: o in found ==> LookUp(db, toWrite, o) == Some(found[o])
    {
      var key := toRemove[i];
      assert key in Spent(txs);
      if key in db {
        found := found[key := db[key]];
      } else if key in toWrite {
        found := found[key := toWrite[key]];
      } else {
        return None, toWrite, toRemove;
      }
    }
    assert forall o :: o in found <==> o in Spent(txs) by {
      assert toRemove[..|toRemove|] == toRemove;
    }
    assert found == map o | o in Spent(txs) :: LookUp(db, toWrite, o).value;
    return Some(found), toWrite, toRemove;
  }

  /** The batch write: all spendable outputs in, then all inputs out. */
  function WriteBatch(db: Table, txs: seq<Tx>): Table
  {
    (db + Written(txs)) - Spent(txs)
  }

  // ---- one transaction at a time ----

  datatype Sequential = Refused | Reached(table: Table, found: Table)

  function SpendInputs(s: Sequential, inputs: seq<TxIn>): Sequential
  {
    if inputs == [] || s.Refused? then s
    else
      match SpendInputs(s, inputs[..|inputs| - 1])
      case Refused => Refused
      case Reached(table, found) =>
        var o := inputs[|inputs| - 1].outpoint;
        if o !in table then Refused else Reached(table - {o}, found[o := table[o]])
  }

  function ApplyTx(s: Sequential, tx: Tx): Sequential
  {
    match if tx.coinbase then s else SpendInputs(s, tx.inputs)
    case Refused => Refused
    case Reached(table, found) => Reached(table + OutputsOf(tx), found)
  }

  function ApplyTxs(db: Table, txs: seq<Tx>): Sequential
  {
    if txs == [] then Reached(db, map[]) else ApplyTx(ApplyTxs(db, txs[..|txs| - 1]), txs[|txs| - 1])
  }

  /** A block over `db`: new transaction ids, every input an output of something earlier, spent once. */
  ghost predicate Acceptable(db: Table, txs: seq<Tx>)
  {
    && txs != [] && txs[0].coinbase && (forall k :: 1 <= k < |txs| ==> !txs[k].coinbase)
    && (forall i, j :: 0 <= i < j < |txs| ==> txs[i].txid != txs[j].txid)
    && (forall o, k :: o in db && 0 <= k < |txs| ==> o.txid != txs[k].txid)
    && SpendsEarlier(txs)
    && (forall k, i, k', i' :: 1 <= k < k' < |txs| && 0 <= i < |txs[k].inputs| && 0 <= i' < |txs[k'].inputs| ==>
          txs[k].inputs[i].outpoint != txs[k'].inputs[i'].outpoint)
  }

  predicate Makes(tx: Tx, o: OutPoint)
  {
    o.txid == tx.txid && o.vout < |tx.outputs| && !tx.outputs[o.vout].unspendable
  }

  lemma OutputsOfIs(tx: Tx, o: OutPoint)
    ensures o in OutputsOf(tx) <==> Makes(tx, o)
    ensures Makes(tx, o) ==> OutputsOf(tx)[o] == TxPrevout(tx.outputs[o.vout].scriptHash, tx.outputs[o.vout].value)
  {
    if Makes(tx, o) {
      assert o == OutPoint(tx.txid, o.vout);
    }
  }

  lemma {:induction false} WrittenBy(txs: seq<Tx>, n: nat, o: OutPoint)
    requires n <= |txs|
    ensures o in Written(txs[..n]) <==> exists k: nat :: k < n && Makes(txs[k], o)
    decreases n
  {
    hide OutputsOf, Makes;
    if n > 0 {
      assert txs[..n][..n - 1] == txs[..n - 1];
      OutputsOfIs(txs[n - 1], o);
      WrittenBy(txs, n - 1, o);
    }
  }

  /** With distinct transaction ids, what is written for a prefix stays what is written. */
  lemma {:induction false} WrittenStays(txs: seq<Tx>, n: nat, m: nat, o: OutPoint)
    requires n <= m <= |txs| && o in Written(txs[..n])
    requires forall i, j :: 0 <= i < j < |txs| ==> txs[i].txid != txs[j].txid
    ensures o in Written(txs[..m]) && Written(txs[..m])[o] == Written(txs[..n])[o]
    decreases m
  {
    hide OutputsOf;
    if n < m {
      WrittenStays(txs, n, m - 1, o);
      assert txs[..m][..m - 1] == txs[..m - 1];
      OutputsOfIs(txs[m - 1], o);
      WrittenBy(txs, n, o);
    }
  }

  lemma {:induction false} SpentBy(txs: seq<Tx>, n: nat, o: OutPoint)
    requires n <= |txs|
    ensures o in Spent(txs[..n]) <==> exists k: nat, i: nat :: k < n && !txs[k].coinbase && Spends(txs[k], i, o)
    decreases n
  {
    if n > 0 {
      assert txs[..n][..n - 1] == txs[..n - 1];
      SpentBy(txs, n - 1, o);
      if o in InputsOf(txs[n - 1]) {
        var i :| 0 <= i < |txs[n - 1].inputs| && txs[n - 1].inputs[i].outpoint == o;
        assert Spends(txs[n - 1], i, o);
      }
    }
  }

  // ---- inputs of one transaction ----

  ghost predicate DistinctInputs(inputs: seq<TxIn>)
  {
    forall i, j :: 0 <= i < j < |inputs| ==> inputs[i].outpoint != inputs[j].outpoint
  }

  /** Spending inputs one by one takes all of them out of the table, or refuses. */
  lemma {:induction false} SpendIs(table: Table, found: Table, inputs: seq<TxIn>, n: nat)
    requires DistinctInputs(inputs) && n <= |inputs|
    ensures var s := SpendInputs(Reached(table, found), inputs[..n]);
            var keys := FirstInputs(inputs, n);
            if keys <= table.Keys
            then s.Reached? && s.table == table - keys && s.found.Keys == found.Keys + keys
                 && forall o :: o in s.found ==> s.found[o] == if o in keys then table[o] else found[o]
            else s == Refused
    decreases n
  {
    if n > 0 {
      SpendIs(table, found, inputs, n - 1);
      assert inputs[..n][..n - 1] == inputs[..n - 1];
      assert FirstInputs(inputs, n) == FirstInputs(inputs, n - 1) + {inputs[n - 1].outpoint};
    }
  }

  // ---- one transaction at a time is the batch ----

  /** Where the batch stands when it is cut after `written` and `spent`. */
  function Reach(db: Table, own: Table, written: Table, spent: set<OutPoint>): Sequential
  {
    match Batch(db, own, spent)
    case None => Refused
    case Some(found) => Reached((db + written) - spent, found)
  }

  /** An input of transaction `n` is in the table reached so far exactly when the batch finds it. */
  lemma InputSeen(db: Table, txs: seq<Tx>, n: nat, o: OutPoint)
    requires Acceptable(db, txs) && 1 <= n < |txs| && o in InputsOf(txs[n])
    ensures var table := (db + Written(txs[..n])) - Spent(txs[..n]);
            var seen := LookUp(db, Written(txs), o);
            && (o in table <==> seen.Some?) && (o in table ==> table[o] == seen.value)
  {
    hide Written, Spent;
    var i :| 0 <= i < |txs[n].inputs| && txs[n].inputs[i].outpoint == o;
    SpentBy(txs, n, o);
    WrittenBy(txs, n, o);
    WrittenBy(txs, |txs|, o);
    assert txs[..|txs|] == txs;
    if o in Written(txs[..n]) {
      WrittenStays(txs, n, |txs|, o);
    }
  }

  /** No output of transaction `n` is spent by it or by anything before it. */
  lemma OutputUnspent(db: Table, txs: seq<Tx>, n: nat, o: OutPoint)
    requires Acceptable(db, txs) && n < |txs| && o in OutputsOf(txs[n])
    ensures o !in Spent(txs[..n + 1])
  {
    hide Written, Spent;
    OutputsOfIs(txs[n], o);
    SpentBy(txs, n + 1, o);
  }

  lemma TableAdvances(db: Table, txs: seq<Tx>, n: nat)
    requires Acceptable(db, txs) && n < |txs|
    ensures ((db + Written(txs[..n])) - Spent(txs[..n])) - InputsOf(txs[n]) + OutputsOf(txs[n])
            == (db + Written(txs[..n + 1])) - Spent(txs[..n + 1])
  {
    hide Acceptable, OutputsOf, InputsOf;
    assert txs[..n + 1][..n] == txs[..n];
    forall o | o in OutputsOf(txs[n]) ensures o !in Spent(txs[..n + 1]) {
      OutputUnspent(db, txs, n, o);
    }
  }

  /** Spending the inputs of one transaction from where the batch stands. */
  lemma InputsAdvance(db: Table, own: Table, spent: set<OutPoint>, table: Table, inputs: seq<TxIn>)
    requires DistinctInputs(inputs) && Batch(db, own, spent).Some?
    requires forall o :: o in FirstInputs(inputs, |inputs|) ==>
               && (o in table <==> LookUp(db, own, o).Some?) && (o in table ==> table[o] == LookUp(db, own, o).value)
    ensures var keys := FirstInputs(inputs, |inputs|);
            SpendInputs(Reached(table, Batch(db, own, spent).value), inputs) ==
            match Batch(db, own, spent + keys) case None => Refused case Some(found) => Reached(table - keys, found)
  {
    hide LookUp, DistinctInputs, FirstInputs;
    var found := Batch(db, own, spent).value;
    assert inputs[..|inputs|] == inputs;
    SpendIs(table, found, inputs, |inputs|);
    hide SpendInputs;
    var keys := FirstInputs(inputs, |inputs|);
    if Batch(db, own, spent + keys).Some? {
      assert SpendInputs(Reached(table, found), inputs).found == Batch(db, own, spent + keys).value;
    }
  }

  lemma TxAdvances(db: Table, txs: seq<Tx>, n: nat)
    requires Acceptable(db, txs) && n < |txs|
    ensures ApplyTx(Reach(db, Written(txs), Written(txs[..n]), Spent(txs[..n])), txs[n])
            == Reach(db, Written(txs), Written(txs[..n + 1]), Spent(txs[..n + 1]))
  {
    assert SpendInputs(Refused, txs[n].inputs) == Refused;
    hide Written, OutputsOf, Acceptable, SpendInputs, LookUp, FirstInputs, Batch;
    var own := Written(txs);
    var keys := InputsOf(txs[n]);
    assert Spent(txs[..n + 1]) == Spent(txs[..n]) + keys by {
      assert txs[..n + 1][..n] == txs[..n];
    }
    hide Spent;
    TableAdvances(db, txs, n);
    BatchGrows(db, own, Spent(txs[..n]), keys);
    match Batch(db, own, Spent(txs[..n])) {
      case None =>
      case Some(found) =>
        var table := (db + Written(txs[..n])) - Spent(txs[..n]);
        CoinbaseFirst(db, txs, n);
        if n > 0 {
          forall o | o in keys
            ensures (o in table <==> LookUp(db, own, o).Some?) && (o in table ==> table[o] == LookUp(db, own, o).value) {
            InputSeen(db, txs, n, o);
          }
          InputsAdvance(db, own, Spent(txs[..n]), table, txs[n].inputs);
        } else {
          assert table - keys == table;
        }
    }
  }

  lemma BatchGrows(db: Table, own: Table, spent: set<OutPoint>, keys: set<OutPoint>)
    ensures Batch(db, own, spent).None? ==> Batch(db, own, spent + keys).None?
    ensures keys == {} ==> spent + keys == spent
  {
    if o :| o in spent && LookUp(db, own, o).None? {
      assert o in spent + keys;
    }
  }

  lemma CoinbaseFirst(db: Table, txs: seq<Tx>, n: nat)
    requires Acceptable(db, txs) && n < |txs|
    ensures txs[n].coinbase <==> n == 0
    ensures n == 0 ==> InputsOf(txs[n]) == {}
    ensures n > 0 ==> DistinctInputs(txs[n].inputs)
  {
  }

  lemma NothingYet(db: Table, own: Table)
    ensures Reach(db, own, map[], {}) == Reached(db, map[])
  {
    assert Batch(db, own, {}).value == map[];
    assert (db + map[]) - {} == db;
  }

  lemma {:induction false} PrefixAgrees(db: Table, txs: seq<Tx>, n: nat)
    requires Acceptable(db, txs) && n <= |txs|
    ensures ApplyTxs(db, txs[..n]) == Reach(db, Written(txs), Written(txs[..n]), Spent(txs[..n]))
    decreases n
  {
    hide Acceptable, ApplyTx;
    if n > 0 {
      PrefixAgrees(db, txs, n - 1);
      TxAdvances(db, txs, n - 1);
      assert txs[..n][..n - 1] == txs[..n - 1];
    } else {
      NothingYet(db, Written(txs));
    }
  }

  /** One batch for the block gives what processing its transactions one by one gives: the same
      refusal, the same looked-up outputs and the same table. */
  lemma BatchIsSequential(db: Table, txs: seq<Tx>)
    requires Acceptable(db, txs)
    ensures match Batch(db, Written(txs), Spent(txs))
            case None => ApplyTxs(db, txs) == Refused
            case Some(found) => ApplyTxs(db, txs) == Reached(WriteBatch(db, txs), found)
  {
    hide Acceptable;
    PrefixAgrees(db, txs, |txs|);
    assert txs[..|txs|] == txs;
  }

  // ---- outputs a rollback left behind ----

  /** `stale` is `db` with outputs of undone blocks still in it; what of them a block makes again, it
      makes as it was. */
  ghost predicate Leftover(db: Table, stale: Table, own: Table)
  {
    && (forall o :: o in db ==> o in stale && stale[o] == db[o])
    && (forall o :: o in stale && o !in db && o in own ==> stale[o] == own[o])
  }

  /** Outputs left behind by a rollback change no lookup of a block whose inputs resolve without them,
      and after the block there are no more of them than before. */
  lemma LeftoverHarmless(db: Table, stale: Table, own: Table, keys: set<OutPoint>)
    requires Leftover(db, stale, own) && Batch(db, own, keys).Some?
    ensures Batch(stale, own, keys) == Batch(db, own, keys)
    ensures var next, nextStale := (db + own) - keys, (stale + own) - keys;
            && (forall o :: o in next ==> o in nextStale && nextStale[o] == next[o])
            && nextStale.Keys - next.Keys <= stale.Keys - db.Keys
  {
    forall o | o in keys ensures LookUp(stale, own, o) == LookUp(db, own, o) {
      assert LookUp(db, own, o).Some?;
    }
    assert Batch(stale, own, keys).Some?;
    assert Batch(stale, own, keys).value == Batch(db, own, keys).value;
  }
}
