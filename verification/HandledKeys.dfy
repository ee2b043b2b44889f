/** The keys a block leaves in the offset and partial tables: loaded ones, or outputs of the block. */
module HandledKeys {
  import opened Base
  import opened Ledger
  import opened Searcher
  import opened Routing
  import opened ScriptSig
  import opened TokenCacheStore
  import opened BlockParser
  import opened Positions

  predicate InTx(tx: Tx, o: OutPoint)
  {
    o.txid == tx.txid && o.vout < |tx.outputs|
  }

  ghost predicate Made(txs: seq<Tx>, o: OutPoint)
  {
    exists k: nat :: k < |txs| && InTx(txs[k], o)
  }

  /** No outpoint is recorded without an offset. */
  ghost predicate NoEmpty(offsets: Offsets)
  {
    forall o :: o in offsets ==> offsets[o] != {}
  }

  ghost predicate KeysFrom(txs: seq<Tx>, keys: set<OutPoint>, known: set<OutPoint>)
  {
    forall o :: o in keys ==> o in known || Made(txs, o)
  }

  /** The parser's tables hold loaded outpoints and outputs of the block, none of them empty. */
  ghost predicate KeysOk(env: Env, loadedOffsets: set<OutPoint>, loadedPartials: set<OutPoint>, p: Progress)
  {
    && NoEmpty(p.offsets) && KeysFrom(env.txs, p.offsets.Keys, loadedOffsets)
    && KeysFrom(env.txs, p.partials.Keys, loadedPartials)
  }

  lemma InsertKeys(txs: seq<Tx>, offsets: Offsets, loaded: set<OutPoint>, k: nat, vout: nat, x: nat)
    requires k < |txs| && vout < |txs[k].outputs| && NoEmpty(offsets) && KeysFrom(txs, offsets.Keys, loaded)
    ensures var q := Insert(offsets, OutPoint(txs[k].txid, vout), x); NoEmpty(q) && KeysFrom(txs, q.Keys, loaded)
  {
    assert InTx(txs[k], OutPoint(txs[k].txid, vout));
    assert x in Insert(offsets, OutPoint(txs[k].txid, vout), x)[OutPoint(txs[k].txid, vout)];
  }

  lemma MoveOneKeys(env: Env, k: nat, i: nat, x: nat, p: Progress, lo: set<OutPoint>, lp: set<OutPoint>)
    requires Balanced(env.txs, env.prevouts) && 1 <= k < |env.txs| && i < |env.txs[k].inputs| && KeysOk(env, lo, lp, p)
    ensures KeysOk(env, lo, lp, MoveOne(env, k, i, x, p))
  {
    hide NoEmpty, KeysFrom, Insert, FeesBefore;
    var u := Unit(env, k, i, x);
    LocateIs(env.txs[k].outputs, u);
    match Locate(env.txs[k].outputs, u) {
      case Some((vout, offset)) => InsertKeys(env.txs, p.offsets, lo, k, vout, offset);
      case None =>
    }
  }

  lemma {:induction false} MovesKeys(env: Env, k: nat, i: nat, xs: seq<nat>, n: nat, p: Progress, lo: set<OutPoint>, lp: set<OutPoint>)
    requires Balanced(env.txs, env.prevouts) && 1 <= k < |env.txs| && i < |env.txs[k].inputs| && n <= |xs| && KeysOk(env, lo, lp, p)
    ensures KeysOk(env, lo, lp, Moves(env, k, i, xs, n, p))
    decreases n
  {
    hide MoveOne, Balanced, KeysOk;
    if n > 0 {
      MovesKeys(env, k, i, xs, n - 1, p, lo, lp);
      MoveOneKeys(env, k, i, xs[n - 1], Moves(env, k, i, xs, n - 1, p), lo, lp);
    }
  }

  lemma MoveInputKeys(env: Env, k: nat, i: nat, p: Progress, lo: set<OutPoint>, lp: set<OutPoint>)
    requires Balanced(env.txs, env.prevouts) && 1 <= k < |env.txs| && i < |env.txs[k].inputs| && KeysOk(env, lo, lp, p)
    ensures KeysOk(env, lo, lp, MoveInput(env, k, i, p))
  {
    hide Moves, Balanced;
    var o := env.txs[k].inputs[i].outpoint;
    if o in p.offsets {
      var xs := env.order(o, p.offsets[o]);
      var p0 := p.(offsets := p.offsets - {o});
      assert KeysOk(env, lo, lp, p0);
      MovesKeys(env, k, i, xs, |xs|, p0, lo, lp);
    }
  }

  lemma CreatedKeys(env: Env, k: nat, p: Progress, partials: Partials, vout: nat, offset: nat, contentType: Bytes, body: Bytes, lo: set<OutPoint>, lp: set<OutPoint>)
    requires k < |env.txs| && vout < |env.txs[k].outputs| && KeysOk(env, lo, lp, p)
    ensures KeysOk(env, lo, lp, Created(env, k, p, partials, vout, offset, contentType, body))
  {
    hide ActionFor, Template, Insert, NoEmpty, KeysFrom, Recorded;
    InsertKeys(env.txs, p.offsets, lo, k, vout, offset);
  }

  lemma CreateKeys(env: Env, k: nat, i: nat, p: Progress, lo: set<OutPoint>, lp: set<OutPoint>)
    requires Balanced(env.txs, env.prevouts) && 1 <= k < |env.txs| && i < |env.txs[k].inputs| && KeysOk(env, lo, lp, p)
    ensures KeysOk(env, lo, lp, CreateOne(env, k, i, p))
  {
    hide Created, Reads, FeesBefore, File, NoEmpty;
    var tx := env.txs[k];
    var partials := Continued(env, k, i, p);
    var p1 := p.(partials := p.partials - {tx.inputs[i].outpoint});
    assert KeysOk(env, lo, lp, p1);
    var u := StartOf(tx, env.prevouts, i);
    LocateIs(tx.outputs, u);
    match Verdict(Reads(partials.parts)) {
      case NoInscription =>
      case Partial =>
        if i < |tx.outputs| {
          assert InTx(env.txs[k], OutPoint(tx.txid, i));
        }
      case Single(contentType, body) =>
        match Locate(tx.outputs, u) {
          case Some((vout, offset)) => CreatedKeys(env, k, p1, partials, vout, offset, contentType, body, lo, lp);
          case None =>
        }
    }
  }

  lemma {:induction false} InputsKeys(env: Env, k: nat, n: nat, p: Progress, lo: set<OutPoint>, lp: set<OutPoint>)
    requires Balanced(env.txs, env.prevouts) && 1 <= k < |env.txs| && n <= |env.txs[k].inputs| && KeysOk(env, lo, lp, p)
    ensures KeysOk(env, lo, lp, Inputs(env, k, n, p))
    decreases n
  {
    hide CreateOne, MoveInput, Balanced;
    if n > 0 {
      hide KeysOk;
      InputsKeys(env, k, n - 1, p, lo, lp);
      MoveInputKeys(env, k, n - 1, Inputs(env, k, n - 1, p), lo, lp);
      CreateKeys(env, k, n - 1, MoveInput(env, k, n - 1, Inputs(env, k, n - 1, p)), lo, lp);
    }
  }

  /** The tables after the whole block. */
  lemma {:induction false} TxsKeys(env: Env, n: nat, p: Progress, lo: set<OutPoint>, lp: set<OutPoint>)
    requires Balanced(env.txs, env.prevouts) && 1 <= n <= |env.txs| && KeysOk(env, lo, lp, p)
    ensures KeysOk(env, lo, lp, Txs(env, n, p))
    decreases n
  {
    hide Inputs, Balanced, KeysOk;
    if n > 1 {
      TxsKeys(env, n - 1, p, lo, lp);
      InputsKeys(env, n - 1, |env.txs[n - 1].inputs|, Txs(env, n - 1, p), lo, lp);
    }
  }
}
