/** The set of inscribed positions of a block: exactly the routed image of the old set plus what was
    created, and no two old positions ever merge. */
module Positions {
  import opened Base
  import opened Ledger
  import opened Searcher
  import opened Leaked
  import opened Routing
  import opened ScriptSig
  import opened BlockParser

  /** Inputs spend distinct outputs of earlier transactions, never of this block's coinbase. */
  ghost predicate SpendsEarlier(txs: seq<Tx>)
  {
    && (forall k, i, j: nat :: 1 <= k < |txs| && 0 <= i < |txs[k].inputs| && (j == 0 || k <= j < |txs|) ==>
          txs[k].inputs[i].outpoint.txid != txs[j].txid)
    && (forall k, i, i' :: 1 <= k < |txs| && 0 <= i < i' < |txs[k].inputs| ==> txs[k].inputs[i].outpoint != txs[k].inputs[i'].outpoint)
  }

  ghost predicate Ok(env: Env)
  {
    EnvOk(env) && SpendsEarlier(env.txs)
  }

  /** A position after parsing: recorded, or waiting in the fees for the coinbase. */
  ghost predicate Occupied(env: Env, p: Progress, l: Location)
    requires Balanced(env.txs, env.prevouts)
  {
    At(p.offsets, l) || LeakedAt(env, p.leaked, l)
  }

  // ---- one transaction moves a position ----

  predicate Spends(tx: Tx, i: nat, o: OutPoint)
  {
    i < |tx.inputs| && tx.inputs[i].outpoint == o
  }

  ghost function Unit(env: Env, k: nat, i: nat, x: nat): nat
    requires Balanced(env.txs, env.prevouts) && 1 <= k < |env.txs| && i < |env.txs[k].inputs|
  {
    StartOf(env.txs[k], env.prevouts, i) + x
  }

  /** Where input `i` of transaction `k` sends position `l`, if it spends it. */
  ghost function MovedByInput(env: Env, k: nat, i: nat, l: Location): Option<Location>
    requires Balanced(env.txs, env.prevouts) && 1 <= k < |env.txs| && i < |env.txs[k].inputs|
  {
    if Spends(env.txs[k], i, l.outpoint) then Place(env.txs, env.prevouts, k, Unit(env, k, i, l.offset)) else Some(l)
  }

  lemma InsertAt(offsets: Offsets, o: OutPoint, x: nat, l: Location)
    ensures At(Insert(offsets, o, x), l) <==> At(offsets, l) || l == Location(o, x)
  {
  }

  lemma FileAt(env: Env, leaked: map<nat, seq<LeakedKind>>, key: nat, kind: LeakedKind, l: Location)
    requires Balanced(env.txs, env.prevouts)
    ensures LeakedAt(env, File(leaked, key, kind), l) <==>
            LeakedAt(env, leaked, l) || CoinbaseLocation(env.txs[0], Reward(env.txs, env.prevouts), key) == Some(l)
  {
    var filed := File(leaked, key, kind);
    assert filed.Keys == leaked.Keys + {key};
    if LeakedAt(env, leaked, l) {
      var j :| j in leaked && CoinbaseLocation(env.txs[0], Reward(env.txs, env.prevouts), j) == Some(l);
      assert j in filed;
    }
    if CoinbaseLocation(env.txs[0], Reward(env.txs, env.prevouts), key) == Some(l) {
      assert key in filed;
    }
  }

  lemma MoveOneAt(env: Env, k: nat, i: nat, x: nat, p: Progress, l: Location)
    requires Balanced(env.txs, env.prevouts) && 1 <= k < |env.txs| && i < |env.txs[k].inputs|
    ensures Occupied(env, MoveOne(env, k, i, x, p), l) <==>
            Occupied(env, p, l) || Place(env.txs, env.prevouts, k, Unit(env, k, i, x)) == Some(l)
  {
    hide LeakedAt, At, CoinbaseLocation, Reward, Insert, File;
    var u := Unit(env, k, i, x);
    LocateIs(env.txs[k].outputs, u);
    match Locate(env.txs[k].outputs, u) {
      case Some((vout, offset)) => InsertAt(p.offsets, OutPoint(env.txs[k].txid, vout), offset, l);
      case None => FileAt(env, p.leaked, FeeKey(env.txs, env.prevouts, k, u), Move, l);
    }
  }

  lemma {:induction false} MovesAt(env: Env, k: nat, i: nat, xs: seq<nat>, n: nat, p: Progress, l: Location)
    requires Balanced(env.txs, env.prevouts) && 1 <= k < |env.txs| && i < |env.txs[k].inputs| && n <= |xs|
    ensures Occupied(env, Moves(env, k, i, xs, n, p), l) <==>
            Occupied(env, p, l) || exists j :: 0 <= j < n && Place(env.txs, env.prevouts, k, Unit(env, k, i, xs[j])) == Some(l)
  {
    hide Occupied, MoveOne, Place, Unit;
    if n > 0 {
      MovesAt(env, k, i, xs, n - 1, p, l);
      MoveOneAt(env, k, i, xs[n - 1], Moves(env, k, i, xs, n - 1, p), l);
    }
  }

  /** Nothing leaked so far sits on an outpoint this transaction spends. */
  lemma LeakedUnspent(env: Env, k: nat, i: nat, leaked: map<nat, seq<LeakedKind>>, l: Location)
    requires Ok(env) && 1 <= k < |env.txs| && i < |env.txs[k].inputs| && LeakedAt(env, leaked, l)
    ensures !Spends(env.txs[k], i, l.outpoint)
  {
  }

  /** One input moves exactly the positions it spends. */
  lemma MoveInputAt(env: Env, k: nat, i: nat, p: Progress, l: Location)
    requires Ok(env) && 1 <= k < |env.txs| && i < |env.txs[k].inputs|
    ensures Occupied(env, MoveInput(env, k, i, p), l) <==>
            exists m :: Occupied(env, p, m) && MovedByInput(env, k, i, m) == Some(l)
  {
    hide Place, Balanced, CoinbaseLocation, MoveOne, Unit, Moves;
    var o := env.txs[k].inputs[i].outpoint;
    forall m | LeakedAt(env, p.leaked, m) ensures MovedByInput(env, k, i, m) == Some(m) {
      LeakedUnspent(env, k, i, p.leaked, m);
    }
    if o in p.offsets {
      var xs := env.order(o, p.offsets[o]);
      assert Lists(xs, p.offsets[o]);
      var p0 := p.(offsets := p.offsets - {o});
      MovesAt(env, k, i, xs, |xs|, p0, l);
      if m :| Occupied(env, p, m) && MovedByInput(env, k, i, m) == Some(l) {
        if m.outpoint == o && At(p.offsets, m) {
          var j :| 0 <= j < |xs| && xs[j] == m.offset;
        }
      }
      if Occupied(env, p0, l) {
        assert MovedByInput(env, k, i, l) == Some(l);
      }
      if j :| 0 <= j < |xs| && Place(env.txs, env.prevouts, k, Unit(env, k, i, xs[j])) == Some(l) {
        assert xs[j] in xs;
        var m := Location(o, xs[j]);
        assert At(p.offsets, m) && MovedByInput(env, k, i, m) == Some(l);
      }
    } else if Occupied(env, p, l) {
      assert MovedByInput(env, k, i, l) == Some(l);
    }
  }

  // ---- what an input creates ----

  /** The position at which input `i` of transaction `k` completes an inscription, given the unfinished
      ones at that moment. One that starts where no value is left gets none. */
  ghost function CreatedAt(env: Env, k: nat, i: nat, p: Progress): Option<Location>
    requires Balanced(env.txs, env.prevouts) && 1 <= k < |env.txs| && i < |env.txs[k].inputs|
  {
    if !env.jubilee && i != 0 then None
    else if !Verdict(Reads(Continued(env, k, i, p).parts)).Single? then None
    else Place(env.txs, env.prevouts, k, Unit(env, k, i, 0))
  }

  lemma CreatedPlaces(env: Env, k: nat, p: Progress, partials: Partials, vout: nat, offset: nat, contentType: Bytes, body: Bytes)
    requires k < |env.txs| && vout < |env.txs[k].outputs|
    ensures var q := Created(env, k, p, partials, vout, offset, contentType, body);
            q.offsets == Insert(p.offsets, OutPoint(env.txs[k].txid, vout), offset) && q.leaked == p.leaked
  {
  }

  lemma CreateAt(env: Env, k: nat, i: nat, p: Progress, l: Location)
    requires Balanced(env.txs, env.prevouts) && 1 <= k < |env.txs| && i < |env.txs[k].inputs|
    ensures Occupied(env, CreateOne(env, k, i, p), l) <==> Occupied(env, p, l) || CreatedAt(env, k, i, p) == Some(l)
  {
    hide LeakedAt, At, CoinbaseLocation, Reward, Insert, File, Created, Reads, Total, LocateFrom, FeesBefore;
    var u := StartOf(env.txs[k], env.prevouts, i);
    assert Unit(env, k, i, 0) == u;
    LocateIs(env.txs[k].outputs, u);
    match Locate(env.txs[k].outputs, u) {
      case Some((vout, offset)) =>
        InsertAt(p.offsets, OutPoint(env.txs[k].txid, vout), offset, l);
        var p1 := p.(partials := p.partials - {env.txs[k].inputs[i].outpoint});
        match Verdict(Reads(Continued(env, k, i, p).parts)) {
          case Single(contentType, body) =>
            CreatedPlaces(env, k, p1, Continued(env, k, i, p), vout, offset, contentType, body);
          case _ =>
        }
      case None => FileAt(env, p.leaked, FeeKey(env.txs, env.prevouts, k, u), Creation, l);
    }
  }

  // ---- one whole transaction ----

  /** Where the first `n` inputs of transaction `k` send position `l`. */
  ghost function MovedByInputs(env: Env, k: nat, n: nat, l: Location): Option<Location>
    requires Balanced(env.txs, env.prevouts) && 1 <= k < |env.txs| && n <= |env.txs[k].inputs|
  {
    if n == 0 then Some(l)
    else
      match MovedByInputs(env, k, n - 1, l)
      case None => None
      case Some(m) => MovedByInput(env, k, n - 1, m)
  }

  /** The state in which input `i` of transaction `k` reads its scripts. */
  ghost function BeforeCreate(env: Env, k: nat, i: nat, p: Progress): Progress
    requires Balanced(env.txs, env.prevouts) && 1 <= k < |env.txs| && i < |env.txs[k].inputs|
  {
    MoveInput(env, k, i, Inputs(env, k, i, p))
  }

  ghost predicate CreatedBy(env: Env, k: nat, i: nat, p: Progress, l: Location)
    requires Balanced(env.txs, env.prevouts) && 1 <= k < |env.txs|
  {
    i < |env.txs[k].inputs| && CreatedAt(env, k, i, BeforeCreate(env, k, i, p)) == Some(l)
  }

  /** A place lies in its own transaction or in the coinbase, and this transaction spends neither. */
  lemma PlaceUnspent(env: Env, k: nat, i: nat, j: nat, x: nat)
    requires Ok(env) && 1 <= k < |env.txs| && i < |env.txs[k].inputs| && j < |env.txs[k].inputs|
    requires Place(env.txs, env.prevouts, k, Unit(env, k, i, x)).Some?
    ensures !Spends(env.txs[k], j, Place(env.txs, env.prevouts, k, Unit(env, k, i, x)).value.outpoint)
  {
    LocateIs(env.txs[k].outputs, Unit(env, k, i, x));
  }

  /** `l` is where the first `n` inputs send an old position. */
  ghost predicate Carried(env: Env, k: nat, n: nat, p: Progress, l: Location)
    requires Balanced(env.txs, env.prevouts) && 1 <= k < |env.txs| && n <= |env.txs[k].inputs|
  {
    exists m :: Occupied(env, p, m) && MovedByInputs(env, k, n, m) == Some(l)
  }

  /** `l` is created by one of the first `n` inputs. */
  ghost predicate Fresh(env: Env, k: nat, n: nat, p: Progress, l: Location)
    requires Balanced(env.txs, env.prevouts) && 1 <= k < |env.txs|
  {
    exists i :: 0 <= i < n && CreatedBy(env, k, i, p, l)
  }

  lemma {:induction false} InputsOnly(env: Env, k: nat, n: nat, p: Progress, l: Location)
    requires Ok(env) && 1 <= k < |env.txs| && n <= |env.txs[k].inputs|
    requires Occupied(env, Inputs(env, k, n, p), l)
    ensures Carried(env, k, n, p, l) || Fresh(env, k, n, p, l)
    decreases n
  {
    hide Place, MoveInput, CreateOne, MovedByInput, LeakedAt, At, Balanced, SpendsEarlier, CreatedAt;
    if n == 0 {
      assert MovedByInputs(env, k, 0, l) == Some(l);
    } else {
      var q := Inputs(env, k, n - 1, p);
      var b := BeforeCreate(env, k, n - 1, p);
      CreateAt(env, k, n - 1, b, l);
      MoveInputAt(env, k, n - 1, q, l);
      if CreatedAt(env, k, n - 1, b) == Some(l) {
        assert CreatedBy(env, k, n - 1, p, l);
      } else {
        var m :| Occupied(env, q, m) && MovedByInput(env, k, n - 1, m) == Some(l);
        InputsOnly(env, k, n - 1, p, m);
        if Carried(env, k, n - 1, p, m) {
          var m0 :| Occupied(env, p, m0) && MovedByInputs(env, k, n - 1, m0) == Some(m);
          assert MovedByInputs(env, k, n, m0) == Some(l);
        } else {
          var i :| 0 <= i < n - 1 && CreatedBy(env, k, i, p, m);
          CreatedStays(env, k, i, n - 1, p, m);
        }
      }
    }
  }

  lemma {:induction false} InputsAll(env: Env, k: nat, n: nat, p: Progress, l: Location)
    requires Ok(env) && 1 <= k < |env.txs| && n <= |env.txs[k].inputs|
    requires Carried(env, k, n, p, l) || Fresh(env, k, n, p, l)
    ensures Occupied(env, Inputs(env, k, n, p), l)
    decreases n
  {
    hide Place, MoveInput, CreateOne, MovedByInput, LeakedAt, At, Balanced, SpendsEarlier, CreatedAt;
    if n == 0 {
      var m :| Occupied(env, p, m) && MovedByInputs(env, k, 0, m) == Some(l);
    } else {
      var q := Inputs(env, k, n - 1, p);
      CreateAt(env, k, n - 1, BeforeCreate(env, k, n - 1, p), l);
      MoveInputAt(env, k, n - 1, q, l);
      if Carried(env, k, n, p, l) {
        var m0 :| Occupied(env, p, m0) && MovedByInputs(env, k, n, m0) == Some(l);
        var m := MovedByInputs(env, k, n - 1, m0).value;
        assert Carried(env, k, n - 1, p, m);
        InputsAll(env, k, n - 1, p, m);
        assert Occupied(env, q, m) && MovedByInput(env, k, n - 1, m) == Some(l);
      } else {
        var i :| 0 <= i < n && CreatedBy(env, k, i, p, l);
        if i < n - 1 {
          CreatedStays(env, k, i, n - 1, p, l);
          assert Fresh(env, k, n - 1, p, l);
          InputsAll(env, k, n - 1, p, l);
          assert Occupied(env, q, l) && MovedByInput(env, k, n - 1, l) == Some(l);
        }
      }
    }
  }

  lemma CreatedStays(env: Env, k: nat, i: nat, j: nat, p: Progress, l: Location)
    requires Ok(env) && 1 <= k < |env.txs| && i < |env.txs[k].inputs| && j < |env.txs[k].inputs| && CreatedBy(env, k, i, p, l)
    ensures MovedByInput(env, k, j, l) == Some(l)
  {
    PlaceUnspent(env, k, i, j, 0);
  }

  // ---- the whole block ----

  /** Where transactions `a` to `n - 1` send position `l`. */
  ghost function Trace(env: Env, a: nat, n: nat, l: Location): Option<Location>
    requires Balanced(env.txs, env.prevouts) && 1 <= a <= n <= |env.txs|
    decreases n - a
  {
    if n == a then Some(l)
    else
      match Trace(env, a, n - 1, l)
      case None => None
      case Some(m) => MovedByInputs(env, n - 1, |env.txs[n - 1].inputs|, m)
  }

  /** `l` is where an old position ends up after `n` transactions. */
  ghost predicate Routed(env: Env, n: nat, p: Progress, l: Location)
    requires Balanced(env.txs, env.prevouts) && 1 <= n <= |env.txs|
  {
    exists m :: Occupied(env, p, m) && Trace(env, 1, n, m) == Some(l)
  }

  ghost predicate CreatedIn(env: Env, k: nat, i: nat, p: Progress, c: Location)
    requires Balanced(env.txs, env.prevouts) && 1 <= k < |env.txs|
  {
    CreatedBy(env, k, i, Txs(env, k, p), c)
  }

  /** `l` is where a position created in the block ends up after `n` transactions. */
  ghost predicate Born(env: Env, n: nat, p: Progress, l: Location)
    requires Balanced(env.txs, env.prevouts) && 1 <= n <= |env.txs|
  {
    exists k: nat, i: nat, c :: 1 <= k < n && CreatedIn(env, k, i, p, c) && Trace(env, k + 1, n, c) == Some(l)
  }

  lemma {:induction false} TxsOnly(env: Env, n: nat, p: Progress, l: Location)
    requires Ok(env) && 1 <= n <= |env.txs| && Occupied(env, Txs(env, n, p), l)
    ensures Routed(env, n, p, l) || Born(env, n, p, l)
    decreases n
  {
    hide Occupied, Inputs, MovedByInputs, CreatedBy, Balanced, SpendsEarlier;
    if n == 1 {
      assert Trace(env, 1, 1, l) == Some(l);
    } else {
      var k := n - 1;
      var q := Txs(env, k, p);
      InputsOnly(env, k, |env.txs[k].inputs|, q, l);
      if Carried(env, k, |env.txs[k].inputs|, q, l) {
        var m :| Occupied(env, q, m) && MovedByInputs(env, k, |env.txs[k].inputs|, m) == Some(l);
        TxsOnly(env, k, p, m);
        if Routed(env, k, p, m) {
          var m0 :| Occupied(env, p, m0) && Trace(env, 1, k, m0) == Some(m);
          assert Trace(env, 1, n, m0) == Some(l);
        } else {
          var j: nat, i: nat, c :| 1 <= j < k && CreatedIn(env, j, i, p, c) && Trace(env, j + 1, k, c) == Some(m);
          assert Trace(env, j + 1, n, c) == Some(l);
        }
      } else {
        var i :| 0 <= i < |env.txs[k].inputs| && CreatedBy(env, k, i, q, l);
        assert CreatedIn(env, k, i, p, l) && Trace(env, n, n, l) == Some(l);
      }
    }
  }

  lemma {:induction false} TxsAll(env: Env, n: nat, p: Progress, l: Location)
    requires Ok(env) && 1 <= n <= |env.txs| && (Routed(env, n, p, l) || Born(env, n, p, l))
    ensures Occupied(env, Txs(env, n, p), l)
    decreases n
  {
    hide Occupied, Inputs, MovedByInputs, Balanced, SpendsEarlier, CreatedAt;
    if n > 1 {
      var k := n - 1;
      var q := Txs(env, k, p);
      if Routed(env, n, p, l) {
        var m0 :| Occupied(env, p, m0) && Trace(env, 1, n, m0) == Some(l);
        var m := Trace(env, 1, k, m0).value;
        assert Routed(env, k, p, m);
        TxsAll(env, k, p, m);
        assert Carried(env, k, |env.txs[k].inputs|, q, l);
      } else {
        var j: nat, i: nat, c :| 1 <= j < n && CreatedIn(env, j, i, p, c) && Trace(env, j + 1, n, c) == Some(l);
        if j == k {
          assert Fresh(env, k, |env.txs[k].inputs|, q, l);
        } else {
          var m := Trace(env, j + 1, k, c).value;
          assert Born(env, k, p, m);
          TxsAll(env, k, p, m);
          assert Carried(env, k, |env.txs[k].inputs|, q, l);
        }
      }
      InputsAll(env, k, |env.txs[k].inputs|, q, l);
    }
  }

  /** The block's inscribed positions are exactly the routed old ones plus the created ones. */
  lemma ExactImage(env: Env, p: Progress, l: Location)
    requires Ok(env)
    ensures Occupied(env, Parsed(env, p), l) <==> Routed(env, |env.txs|, p, l) || Born(env, |env.txs|, p, l)
  {
    if Occupied(env, Parsed(env, p), l) {
      TxsOnly(env, |env.txs|, p, l);
    }
    if Routed(env, |env.txs|, p, l) || Born(env, |env.txs|, p, l) {
      TxsAll(env, |env.txs|, p, l);
    }
  }
}
