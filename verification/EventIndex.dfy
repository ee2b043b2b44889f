/** The index from outputs to events: every indexed output is of a transaction seen before, so a block
    undoes it exactly unless it logs a late deploy on an output already indexed. */
module EventIndex {
  import opened Base
  import opened Ledger
  import opened TokenCacheStore
  import opened Searcher
  import opened Routing
  import opened ScriptSig
  import opened BlockParser
  import opened HistoryIds

  ghost predicate OfBlock(txs: seq<Tx>, txid: nat)
  {
    exists k: nat :: k < |txs| && txs[k].txid == txid
  }

  /** A deploy may name an earlier transaction; everything else names one of the block. */
  ghost predicate NamesKnown(txs: seq<Tx>, known: set<nat>, a: TokenAction)
  {
    match a
    case Deploy(genesis, _, _) => genesis.txid in known || OfBlock(txs, genesis.txid)
    case Mint(_, _, _, txid, _) => OfBlock(txs, txid)
    case Transfer(_, _, _, _, txid, _) => OfBlock(txs, txid)
    case Transferred(_, _, txid, _) => OfBlock(txs, txid)
  }

  ghost predicate ActionsKnown(txs: seq<Tx>, known: set<nat>, actions: seq<TokenAction>)
  {
    forall i :: 0 <= i < |actions| ==> NamesKnown(txs, known, actions[i])
  }

  ghost predicate PartialsKnown(txs: seq<Tx>, known: set<nat>, partials: map<OutPoint, Partials>)
  {
    forall o :: o in partials ==> partials[o].genesisTxid in known || OfBlock(txs, partials[o].genesisTxid)
  }

  ghost predicate OriginsKnown(env: Env, known: set<nat>, p: Progress)
  {
    ActionsKnown(env.txs, known, p.actions) && PartialsKnown(env.txs, known, p.partials)
  }

  // ---- the parser ----

  lemma MoveOneOrigins(env: Env, k: nat, i: nat, x: nat, p: Progress, known: set<nat>)
    requires Balanced(env.txs, env.prevouts) && 1 <= k < |env.txs| && i < |env.txs[k].inputs| && OriginsKnown(env, known, p)
    ensures OriginsKnown(env, known, MoveOne(env, k, i, x, p))
  {
    hide Insert, FeesBefore, File;
    LocateIs(env.txs[k].outputs, StartOf(env.txs[k], env.prevouts, i) + x);
    assert OfBlock(env.txs, env.txs[k].txid);
  }

  lemma {:induction false} MovesOrigins(env: Env, k: nat, i: nat, xs: seq<nat>, n: nat, p: Progress, known: set<nat>)
    requires Balanced(env.txs, env.prevouts) && 1 <= k < |env.txs| && i < |env.txs[k].inputs| && n <= |xs| && OriginsKnown(env, known, p)
    ensures OriginsKnown(env, known, Moves(env, k, i, xs, n, p))
    decreases n
  {
    hide MoveOne, Balanced, OriginsKnown;
    if n > 0 {
      MovesOrigins(env, k, i, xs, n - 1, p, known);
      MoveOneOrigins(env, k, i, xs[n - 1], Moves(env, k, i, xs, n - 1, p), known);
    }
  }

  lemma MoveInputOrigins(env: Env, k: nat, i: nat, p: Progress, known: set<nat>)
    requires Balanced(env.txs, env.prevouts) && 1 <= k < |env.txs| && i < |env.txs[k].inputs| && OriginsKnown(env, known, p)
    ensures OriginsKnown(env, known, MoveInput(env, k, i, p))
  {
    hide Moves, Balanced;
    var o := env.txs[k].inputs[i].outpoint;
    if o in p.offsets {
      var xs := env.order(o, p.offsets[o]);
      MovesOrigins(env, k, i, xs, |xs|, p.(offsets := p.offsets - {o}), known);
    }
  }

  lemma CreatedOrigins(env: Env, k: nat, p: Progress, partials: Partials, vout: nat, offset: nat, contentType: Bytes, body: Bytes, known: set<nat>)
    requires k < |env.txs| && vout < |env.txs[k].outputs| && OriginsKnown(env, known, p)
    requires partials.genesisTxid in known || OfBlock(env.txs, partials.genesisTxid)
    ensures OriginsKnown(env, known, Created(env, k, p, partials, vout, offset, contentType, body))
  {
    hide Insert, Recorded;
    assert OfBlock(env.txs, env.txs[k].txid);
  }

  lemma CreateOrigins(env: Env, k: nat, i: nat, p: Progress, known: set<nat>)
    requires Balanced(env.txs, env.prevouts) && 1 <= k < |env.txs| && i < |env.txs[k].inputs| && OriginsKnown(env, known, p)
    ensures OriginsKnown(env, known, CreateOne(env, k, i, p))
  {
    hide Created, Reads, FeesBefore, File, ActionsKnown;
    var tx := env.txs[k];
    var partials := Continued(env, k, i, p);
    assert OfBlock(env.txs, tx.txid);
    var u := StartOf(tx, env.prevouts, i);
    LocateIs(tx.outputs, u);
    match Verdict(Reads(partials.parts)) {
      case Single(contentType, body) =>
        match Locate(tx.outputs, u) {
          case Some((vout, offset)) =>
            CreatedOrigins(env, k, p.(partials := p.partials - {tx.inputs[i].outpoint}), partials, vout, offset, contentType, body, known);
          case None =>
        }
      case _ =>
    }
  }

  lemma {:induction false} InputsOrigins(env: Env, k: nat, n: nat, p: Progress, known: set<nat>)
    requires Balanced(env.txs, env.prevouts) && 1 <= k < |env.txs| && n <= |env.txs[k].inputs| && OriginsKnown(env, known, p)
    ensures OriginsKnown(env, known, Inputs(env, k, n, p))
    decreases n
  {
    hide CreateOne, MoveInput, Balanced, ActionsKnown, PartialsKnown;
    if n > 0 {
      InputsOrigins(env, k, n - 1, p, known);
      MoveInputOrigins(env, k, n - 1, Inputs(env, k, n - 1, p), known);
      CreateOrigins(env, k, n - 1, MoveInput(env, k, n - 1, Inputs(env, k, n - 1, p)), known);
    }
  }

  /** What the block queues and keeps unfinished names transactions seen before or its own. */
  lemma {:induction false} TxsOrigins(env: Env, n: nat, p: Progress, known: set<nat>)
    requires Balanced(env.txs, env.prevouts) && 1 <= n <= |env.txs| && OriginsKnown(env, known, p)
    ensures OriginsKnown(env, known, Txs(env, n, p))
    decreases n
  {
    hide Inputs, Balanced, OriginsKnown;
    if n > 1 {
      TxsOrigins(env, n - 1, p, known);
      InputsOrigins(env, n - 1, |env.txs[n - 1].inputs|, Txs(env, n - 1, p), known);
    }
  }

  // ---- the log ----

  /** The output an event is filed under. */
  function OutputOf(e: HistoryAction): OutPoint
  {
    OutPoint(e.txid, e.vout)
  }

  ghost predicate EventOf(a: TokenAction, e: HistoryAction)
  {
    match a
    case Deploy(genesis, _, _) => e.DeployEvent? && OutputOf(e) == genesis
    case Mint(_, _, _, txid, _) => !e.DeployEvent? && e.txid == txid
    case Transfer(_, _, _, _, txid, _) => !e.DeployEvent? && e.txid == txid
    case Transferred(_, _, txid, _) => !e.DeployEvent? && e.txid == txid
  }

  lemma StepLogs(s: State, h: Index, a: TokenAction)
    requires Step(s, h, a).Done?
    ensures forall i :: 0 <= i < |Step(s, h, a).log| ==> EventOf(a, Step(s, h, a).log[i])
  {
  }

  ghost predicate FromActions(actions: seq<TokenAction>, e: HistoryAction)
  {
    exists j :: 0 <= j < |actions| && EventOf(actions[j], e)
  }

  lemma {:induction false} RunLogs(s: State, h: Index, actions: seq<TokenAction>, i: nat)
    requires Run(s, h, actions).Done? && i < |Run(s, h, actions).log|
    ensures FromActions(actions, Run(s, h, actions).log[i])
    decreases |actions|
  {
    hide Step, EventOf;
    if actions != [] {
      var o := Step(s, h, actions[0]);
      StepLogs(s, h, actions[0]);
      if i < |o.log| {
        assert EventOf(actions[0], Run(s, h, actions).log[i]);
      } else {
        RunLogs(o.state, o.index, actions[1..], i - |o.log|);
        var j :| 0 <= j < |actions[1..]| && EventOf(actions[1..][j], Run(s, h, actions).log[i]);
        assert actions[j + 1] == actions[1..][j];
      }
    }
  }

  // ---- the entries ----

  function FiledUnder(log: seq<HistoryAction>): set<OutPoint>
  {
    set i | 0 <= i < |log| :: OutputOf(log[i])
  }

  lemma EntriesUnder(last: nat, height: nat, a: HistoryAction, i: nat)
    requires i < |EntriesOf(last, height, a)|
    ensures EventOutPoint(EntriesOf(last, height, a)[i].1.event) == OutputOf(a)
  {
  }

  ghost predicate EntryUnder(es: seq<Entry>, o: OutPoint)
  {
    exists i :: 0 <= i < |es| && EventOutPoint(es[i].1.event) == o
  }

  /** A block's entries are filed under exactly the outputs its log names. */
  lemma {:induction false} AssignedUnder(last: nat, height: nat, log: seq<HistoryAction>, o: OutPoint)
    ensures EntryUnder(Assigned(last, height, log), o) <==> o in FiledUnder(log)
    decreases |log|
  {
    hide EntriesOf, EventOutPoint, OutputOf;
    if log != [] {
      var n := |log| - 1;
      var init, more := Assigned(last, height, log[..n]), EntriesOf(LastId(last, log[..n]), height, log[n]);
      AssignedUnder(last, height, log[..n], o);
      assert Assigned(last, height, log) == init + more;
      assert FiledUnder(log) == FiledUnder(log[..n]) + {OutputOf(log[n])};
      EntriesSome(LastId(last, log[..n]), height, log[n]);
      JoinUnder(init, more, o);
      if i :| 0 <= i < |more| && EventOutPoint(more[i].1.event) == o {
        EntriesUnder(LastId(last, log[..n]), height, log[n], i);
      }
      EntriesUnder(LastId(last, log[..n]), height, log[n], 0);
    }
  }

  lemma EntriesSome(last: nat, height: nat, a: HistoryAction)
    ensures |EntriesOf(last, height, a)| > 0
  {
  }

  lemma JoinUnder(xs: seq<Entry>, ys: seq<Entry>, o: OutPoint)
    ensures EntryUnder(xs + ys, o) <==> EntryUnder(xs, o) || EntryUnder(ys, o)
  {
    if i :| 0 <= i < |xs| && EventOutPoint(xs[i].1.event) == o {
      assert (xs + ys)[i] == xs[i];
    }
    if i :| 0 <= i < |ys| && EventOutPoint(ys[i].1.event) == o {
      assert (xs + ys)[|xs| + i] == ys[i];
    }
  }
}
