/** Old inscriptions are never dropped and never merged by a block's moves, and every position lies
    strictly below the value of its output. */
module NoCollision {
  import opened Base
  import opened Ledger
  import opened Searcher
  import opened Routing
  import opened BlockParser
  import opened ParseBlockLoop
  import opened Positions

  /** The outpoint belongs to no transaction of this block. */
  ghost predicate Outside(txs: seq<Tx>, o: OutPoint)
  {
    forall j :: 0 <= j < |txs| ==> o.txid != txs[j].txid
  }

  ghost predicate Placed(env: Env, k: nat, u: nat, l: Location)
    requires Balanced(env.txs, env.prevouts)
  {
    1 <= k < |env.txs| && u < InTotal(env.txs[k], env.prevouts) && Place(env.txs, env.prevouts, k, u) == Some(l)
  }

  /** After the transactions before `n`, a position is where it was or is the place of a unit. */
  ghost predicate Sits(env: Env, n: nat, l: Location)
    requires Balanced(env.txs, env.prevouts)
  {
    Outside(env.txs, l.outpoint) || exists k: nat, u: nat :: k < n && Placed(env, k, u, l)
  }

  /** If transaction `k` spends the position's output, the position is below its value. */
  ghost predicate Below(env: Env, k: nat, l: Location)
    requires Balanced(env.txs, env.prevouts) && 1 <= k < |env.txs|
  {
    forall i: nat :: Spends(env.txs[k], i, l.outpoint) ==> l.offset < env.prevouts[l.outpoint].value
  }

  lemma {:induction false} UnmovedByInputs(env: Env, k: nat, n: nat, l: Location)
    requires Balanced(env.txs, env.prevouts) && 1 <= k < |env.txs| && n <= |env.txs[k].inputs|
    requires forall i: nat :: i < n ==> !Spends(env.txs[k], i, l.outpoint)
    ensures MovedByInputs(env, k, n, l) == Some(l)
    decreases n
  {
    if n > 0 {
      UnmovedByInputs(env, k, n - 1, l);
    }
  }

  /** The spending input decides alone: no other input touches the position before or after. */
  lemma {:induction false} MovedBySpender(env: Env, k: nat, n: nat, i: nat, l: Location)
    requires Ok(env) && 1 <= k < |env.txs| && i < n <= |env.txs[k].inputs| && Spends(env.txs[k], i, l.outpoint)
    requires Place(env.txs, env.prevouts, k, Unit(env, k, i, l.offset)).Some?
    ensures MovedByInputs(env, k, n, l) == Place(env.txs, env.prevouts, k, Unit(env, k, i, l.offset))
    decreases n
  {
    hide Place, Balanced;
    if n - 1 == i {
      UnmovedByInputs(env, k, n - 1, l);
    } else {
      MovedBySpender(env, k, n - 1, i, l);
      PlaceUnspent(env, k, i, n - 1, l.offset);
    }
  }

  lemma StepPlaced(env: Env, k: nat, i: nat, l: Location)
    requires Ok(env) && 1 <= k < |env.txs| && Spends(env.txs[k], i, l.outpoint) && Below(env, k, l)
    ensures Unit(env, k, i, l.offset) < InTotal(env.txs[k], env.prevouts)
    ensures var l' := MovedByInputs(env, k, |env.txs[k].inputs|, l);
            l'.Some? && Placed(env, k, Unit(env, k, i, l.offset), l'.value)
  {
    UnitBound(env.txs[k], env.prevouts, i, l.offset);
    PlaceExists(env.txs, env.prevouts, k, Unit(env, k, i, l.offset));
    MovedBySpender(env, k, |env.txs[k].inputs|, i, l);
  }

  /** Units of different inputs, or different units of one input, are different. */
  lemma UnitsDistinct(env: Env, k: nat, i: nat, x: nat, j: nat, y: nat)
    requires Ok(env) && 1 <= k < |env.txs| && i < |env.txs[k].inputs| && j < |env.txs[k].inputs|
    requires x < env.prevouts[env.txs[k].inputs[i].outpoint].value && y < env.prevouts[env.txs[k].inputs[j].outpoint].value
    requires Unit(env, k, i, x) == Unit(env, k, j, y)
    ensures i == j && x == y
  {
    var v := InValues(env.txs[k], env.prevouts);
    if i < j {
      TotalStep(v, i);
      TotalMono(v, i + 1, j);
    } else if j < i {
      TotalStep(v, j);
      TotalMono(v, j + 1, i);
    }
  }

  /** What is freshly placed by transaction `k` was not a position before. */
  lemma PlacedFresh(env: Env, k: nat, u: nat, l: Location)
    requires Ok(env) && Placed(env, k, u, l)
    ensures !Sits(env, k, l)
  {
    hide Place;
    PlaceTx(env.txs, env.prevouts, k, u);
    if j: nat, w: nat :| j < k && Placed(env, j, w, l) {
      PlaceInjective(env.txs, env.prevouts, k, u, j, w);
    }
  }

  lemma StepKeeps(env: Env, k: nat, l: Location)
    requires Ok(env) && 1 <= k < |env.txs| && Sits(env, k, l) && Below(env, k, l)
    ensures var l' := MovedByInputs(env, k, |env.txs[k].inputs|, l); l'.Some? && Sits(env, k + 1, l'.value)
    ensures (forall i: nat :: !Spends(env.txs[k], i, l.outpoint)) ==> MovedByInputs(env, k, |env.txs[k].inputs|, l) == Some(l)
  {
    hide Place, Balanced;
    if i: nat :| Spends(env.txs[k], i, l.outpoint) {
      StepPlaced(env, k, i, l);
    } else {
      UnmovedByInputs(env, k, |env.txs[k].inputs|, l);
    }
  }

  /** One transaction keeps distinct positions distinct. */
  lemma StepInjective(env: Env, k: nat, l: Location, m: Location)
    requires Ok(env) && 1 <= k < |env.txs| && Sits(env, k, l) && Sits(env, k, m) && Below(env, k, l) && Below(env, k, m)
    requires MovedByInputs(env, k, |env.txs[k].inputs|, l) == MovedByInputs(env, k, |env.txs[k].inputs|, m)
    ensures l == m
  {
    hide Place, Balanced, Sits;
    StepKeeps(env, k, l);
    StepKeeps(env, k, m);
    if i: nat :| Spends(env.txs[k], i, l.outpoint) {
      StepPlaced(env, k, i, l);
      var u := Unit(env, k, i, l.offset);
      PlacedFresh(env, k, u, MovedByInputs(env, k, |env.txs[k].inputs|, l).value);
      var j: nat :| Spends(env.txs[k], j, m.outpoint);
      StepPlaced(env, k, j, m);
      PlaceInjective(env.txs, env.prevouts, k, u, k, Unit(env, k, j, m.offset));
      UnitsDistinct(env, k, i, l.offset, j, m.offset);
    } else if j: nat :| Spends(env.txs[k], j, m.outpoint) {
      StepPlaced(env, k, j, m);
      PlacedFresh(env, k, Unit(env, k, j, m.offset), MovedByInputs(env, k, |env.txs[k].inputs|, m).value);
    }
  }

  /** The tables before the block: nothing leaked yet, all positions outside the block and in bounds. */
  ghost predicate Start(env: Env, p: Progress)
  {
    && p.leaked == map[]
    && InBounds(env, p.offsets)
    && forall l :: At(p.offsets, l) ==> Outside(env.txs, l.outpoint)
  }

  /** A position reached by parsing is below the value of the output that is about to be spent. */
  lemma OccupiedBelow(env: Env, k: nat, p: Progress, l: Location)
    requires Ok(env) && 1 <= k < |env.txs| && InBounds(env, p.offsets) && Occupied(env, p, l)
    ensures Below(env, k, l)
  {
    forall i: nat | Spends(env.txs[k], i, l.outpoint) ensures l.offset < env.prevouts[l.outpoint].value {
      if LeakedAt(env, p.leaked, l) {
        LeakedUnspent(env, k, i, p.leaked, l);
      }
    }
  }

  /** Every old position has a place at every stage. */
  lemma {:induction false} TraceExists(env: Env, n: nat, p: Progress, l: Location)
    requires Ok(env) && 1 <= n <= |env.txs| && Start(env, p) && At(p.offsets, l)
    ensures Trace(env, 1, n, l).Some? && Sits(env, n, Trace(env, 1, n, l).value)
    ensures Occupied(env, Txs(env, n, p), Trace(env, 1, n, l).value)
    decreases n
  {
    hide Balanced, SpendsEarlier, Place, MovedByInputs, InBounds, Sits, PrevoutsMatch, OrderOk;
    if n == 1 {
      assert Sits(env, 1, l) by { SitsOutside(env, 1, l); }
    } else {
      TraceExists(env, n - 1, p, l);
      var m := Trace(env, 1, n - 1, l).value;
      TxsInBounds(env, n - 1, p);
      OccupiedBelow(env, n - 1, Txs(env, n - 1, p), m);
      StepKeeps(env, n - 1, m);
    }
    assert Routed(env, n, p, Trace(env, 1, n, l).value);
    TxsAll(env, n, p, Trace(env, 1, n, l).value);
  }

  lemma SitsOutside(env: Env, n: nat, l: Location)
    requires Balanced(env.txs, env.prevouts) && Outside(env.txs, l.outpoint)
    ensures Sits(env, n, l)
  {
  }

  /** Two old positions never end up on the same satoshi, whatever the block does. */
  lemma {:induction false} TraceInjective(env: Env, n: nat, p: Progress, l: Location, m: Location)
    requires Ok(env) && 1 <= n <= |env.txs| && Start(env, p) && At(p.offsets, l) && At(p.offsets, m)
    requires Trace(env, 1, n, l) == Trace(env, 1, n, m)
    ensures l == m
    decreases n
  {
    hide Balanced, SpendsEarlier, Place, MovedByInputs, InBounds, Sits, PrevoutsMatch, OrderOk;
    if n > 1 {
      TraceExists(env, n - 1, p, l);
      TraceExists(env, n - 1, p, m);
      TraceExists(env, n, p, l);
      TxsInBounds(env, n - 1, p);
      OccupiedBelow(env, n - 1, Txs(env, n - 1, p), Trace(env, 1, n - 1, l).value);
      OccupiedBelow(env, n - 1, Txs(env, n - 1, p), Trace(env, 1, n - 1, m).value);
      StepInjective(env, n - 1, Trace(env, 1, n - 1, l).value, Trace(env, 1, n - 1, m).value);
      TraceInjective(env, n - 1, p, l, m);
    }
  }
}
