/** Which blocks let every transfer find its own record: the record kept for a location is the one of
    the last transfer pushed there. */
module OwnRecords {
  import opened Base
  import opened Ledger
  import opened TokenCacheStore
  import opened Routing
  import opened BlockParser
  import opened Positions
  import opened Lifecycle

  /** The record a transfer finds at its location carries its own amount and tick. */
  predicate FindsOwn(all: map<Location, TransferProto>, a: TokenAction)
  {
    a.Transfer? ==> a.location in all && all[a.location].amt == a.amt.units && all[a.location].tick == a.tick
  }

  /** No two pushed transfers on one location differ in amount or tick. */
  predicate SameTransfers(actions: seq<TokenAction>)
  {
    forall i, j :: 0 <= i < j < |actions| && actions[i].Transfer? && actions[j].Transfer? && actions[i].location == actions[j].location ==>
      actions[i].amt.units == actions[j].amt.units && actions[i].tick == actions[j].tick
  }

  /** The record at `l` is that of one of the pushed transfers. */
  ghost predicate RecordFrom(all: map<Location, TransferProto>, actions: seq<TokenAction>, l: Location)
  {
    l in all && exists j :: 0 <= j < |actions| && actions[j].Transfer? && actions[j].location == l && FindsOwn(all, actions[j])
  }

  ghost predicate Latest(all: map<Location, TransferProto>, actions: seq<TokenAction>)
  {
    forall i :: 0 <= i < |actions| && actions[i].Transfer? ==> RecordFrom(all, actions, actions[i].location)
  }

  lemma LatestPush(all: map<Location, TransferProto>, actions: seq<TokenAction>, a: TokenAction, height: nat)
    requires Latest(all, actions)
    ensures Latest(Recorded(all, a, height), actions + [a])
  {
    var all', more := Recorded(all, a, height), actions + [a];
    forall i | 0 <= i < |more| && more[i].Transfer? ensures RecordFrom(all', more, more[i].location) {
      if a.Transfer? && more[i].location == a.location {
        assert more[|actions|] == a;
      } else {
        assert RecordFrom(all, actions, actions[i].location);
        var j :| 0 <= j < |actions| && actions[j].Transfer? && actions[j].location == actions[i].location && FindsOwn(all, actions[j]);
        assert more[j] == actions[j];
      }
    }
  }

  lemma {:induction false} MovesLatest(env: Env, k: nat, i: nat, xs: seq<nat>, n: nat, p: Progress)
    requires Balanced(env.txs, env.prevouts) && 1 <= k < |env.txs| && i < |env.txs[k].inputs| && n <= |xs| && Latest(p.all, p.actions)
    ensures Latest(Moves(env, k, i, xs, n, p).all, Moves(env, k, i, xs, n, p).actions)
    decreases n
  {
    hide MoveOne, Balanced, Latest, At;
    if n > 0 {
      MovesLatest(env, k, i, xs, n - 1, p);
      var q := Moves(env, k, i, xs, n - 1, p);
      var q' := MoveOne(env, k, i, xs[n - 1], q);
      MoveOneShape(env, k, i, xs[n - 1], q);
      if q'.actions != q.actions {
        LatestPush(q.all, q.actions, q'.actions[|q.actions|], 0);
      }
    }
  }

  lemma MoveInputLatest(env: Env, k: nat, i: nat, p: Progress)
    requires Balanced(env.txs, env.prevouts) && 1 <= k < |env.txs| && i < |env.txs[k].inputs| && Latest(p.all, p.actions)
    ensures Latest(MoveInput(env, k, i, p).all, MoveInput(env, k, i, p).actions)
  {
    hide Moves, Balanced, Latest;
    var o := env.txs[k].inputs[i].outpoint;
    if o in p.offsets {
      var xs := env.order(o, p.offsets[o]);
      MovesLatest(env, k, i, xs, |xs|, p.(offsets := p.offsets - {o}));
    }
  }

  lemma CreateLatest(env: Env, k: nat, i: nat, p: Progress)
    requires Balanced(env.txs, env.prevouts) && 1 <= k < |env.txs| && i < |env.txs[k].inputs| && Latest(p.all, p.actions)
    ensures Latest(CreateOne(env, k, i, p).all, CreateOne(env, k, i, p).actions)
  {
    hide CreateOne, Balanced, Latest, At;
    CreateShape(env, k, i, p);
    var q := CreateOne(env, k, i, p);
    if q.actions != p.actions {
      LatestPush(p.all, p.actions, q.actions[|p.actions|], env.height);
    }
  }

  lemma {:induction false} InputsLatest(env: Env, k: nat, n: nat, p: Progress)
    requires Balanced(env.txs, env.prevouts) && 1 <= k < |env.txs| && n <= |env.txs[k].inputs| && Latest(p.all, p.actions)
    ensures Latest(Inputs(env, k, n, p).all, Inputs(env, k, n, p).actions)
    decreases n
  {
    hide CreateOne, MoveInput, Balanced, Latest;
    if n > 0 {
      InputsLatest(env, k, n - 1, p);
      MoveInputLatest(env, k, n - 1, Inputs(env, k, n - 1, p));
      CreateLatest(env, k, n - 1, MoveInput(env, k, n - 1, Inputs(env, k, n - 1, p)));
    }
  }

  lemma {:induction false} TxsLatest(env: Env, n: nat, p: Progress)
    requires Balanced(env.txs, env.prevouts) && 1 <= n <= |env.txs| && Latest(p.all, p.actions)
    ensures Latest(Txs(env, n, p).all, Txs(env, n, p).actions)
    decreases n
  {
    hide Inputs, Balanced, Latest;
    if n > 1 {
      TxsLatest(env, n - 1, p);
      InputsLatest(env, n - 1, |env.txs[n - 1].inputs|, Txs(env, n - 1, p));
    }
  }

  lemma OwnExactly(all: map<Location, TransferProto>, actions: seq<TokenAction>)
    requires Latest(all, actions)
    ensures (forall i :: 0 <= i < |actions| ==> FindsOwn(all, actions[i])) <==> SameTransfers(actions)
  {
    if SameTransfers(actions) {
      forall i | 0 <= i < |actions| ensures FindsOwn(all, actions[i]) {
        if actions[i].Transfer? {
          assert RecordFrom(all, actions, actions[i].location);
          var j :| 0 <= j < |actions| && actions[j].Transfer? && actions[j].location == actions[i].location && FindsOwn(all, actions[j]);
        }
      }
    }
    if forall i :: 0 <= i < |actions| ==> FindsOwn(all, actions[i]) {
      forall i, j | 0 <= i < j < |actions| && actions[i].Transfer? && actions[j].Transfer? && actions[i].location == actions[j].location
        ensures actions[i].amt.units == actions[j].amt.units && actions[i].tick == actions[j].tick {
        assert FindsOwn(all, actions[i]) && FindsOwn(all, actions[j]);
      }
    }
  }

  /** After a block every pushed transfer finds its own record if and only if no two pushed transfers on
      one location differ in amount or tick. */
  lemma OwnRecordsExactly(env: Env, p: Progress)
    requires Balanced(env.txs, env.prevouts) && p.actions == []
    ensures var q := Parsed(env, p);
            (forall i :: 0 <= i < |q.actions| ==> FindsOwn(q.all, q.actions[i])) <==> SameTransfers(q.actions)
  {
    assert |env.txs| >= 1;
    hide Txs, FindsOwn, SameTransfers, Balanced;
    assert Latest(p.all, p.actions);
    hide Latest;
    TxsLatest(env, |env.txs|, p);
    OwnExactly(Parsed(env, p).all, Parsed(env, p).actions);
  }

  /** It is enough that no input that can create starts where an earlier one starts. */
  lemma StartsSuffice(env: Env, loaded: map<Location, ValidTransfer>, p: Progress)
    requires Ok(env) && DistinctStarts(env) && p.actions == [] && Alive(env, loaded, 1, 0, p)
    ensures SameTransfers(Parsed(env, p).actions)
  {
    assert |env.txs| >= 1;
    hide Txs, SameTransfers, Balanced, DistinctStarts, RecordsFit, Tracked, Live, MadeAt;
    TxsAlive(env, loaded, |env.txs|, p);
    var q := Parsed(env, p);
    forall i | 0 <= i < |q.actions| ensures FindsOwn(q.all, q.actions[i]) {
      assert ActFits(env, |env.txs|, 0, q.all, q.actions[i]);
    }
    OwnRecordsExactly(env, p);
  }
}
