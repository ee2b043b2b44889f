/** The end of a transfer: the block that spends its output sends it exactly once, and no later
    block brings it back. */
module Spending {
  import opened Base
  import opened Ledger
  import opened LedgerInvariants
  import opened LedgerSafety
  import opened HolderIndex
  import opened StaleHolders
  import opened CacheRefinement
  import opened TokenCacheStore
  import opened BlockParser
  import opened Routing
  import opened Searcher
  import opened Leaked
  import opened ScriptSig
  import opened Positions
  import opened NoCollision
  import opened Lifecycle
  import opened Pipeline

  /** How often a batch moves the transfer at `l`. */
  function MovesOf(actions: seq<TokenAction>, l: Location): nat
  {
    if actions == [] then 0
    else
      var a := actions[|actions| - 1];
      MovesOf(actions[..|actions| - 1], l) + (if a.Transferred? && a.location == l then 1 else 0)
  }

  lemma MovesOfAppend(actions: seq<TokenAction>, a: TokenAction, l: Location)
    ensures MovesOf(actions + [a], l) == MovesOf(actions, l) + (if a.Transferred? && a.location == l then 1 else 0)
  {
    assert (actions + [a])[..|actions|] == actions;
  }

  /** A recorded position of an output from before the block. */
  ghost predicate Waits(p: Progress, l: Location)
  {
    At(p.offsets, l) && l in p.all
  }

  // ---- one step of the parser, seen from an old position ----

  lemma MoveOneOutside(env: Env, k: nat, i: nat, x: nat, p: Progress, l: Location)
    requires Balanced(env.txs, env.prevouts) && 1 <= k < |env.txs| && i < |env.txs[k].inputs| && Outside(env.txs, l.outpoint)
    ensures At(MoveOne(env, k, i, x, p).offsets, l) <==> At(p.offsets, l)
  {
    var u := Unit(env, k, i, x);
    LocateIs(env.txs[k].outputs, u);
    match Locate(env.txs[k].outputs, u) {
      case Some((vout, offset)) => InsertAt(p.offsets, OutPoint(env.txs[k].txid, vout), offset, l);
      case None =>
    }
  }

  lemma MoveOneSends(env: Env, k: nat, i: nat, x: nat, p: Progress, l: Location)
    requires Balanced(env.txs, env.prevouts) && 1 <= k < |env.txs| && i < |env.txs[k].inputs| && Outside(env.txs, l.outpoint)
    ensures var q := MoveOne(env, k, i, x, p);
            && (At(q.offsets, l) <==> At(p.offsets, l)) && (l in q.all <==> l in p.all)
            && MovesOf(q.actions, l) == MovesOf(p.actions, l) + (if l == Location(env.txs[k].inputs[i].outpoint, x) && l in p.all then 1 else 0)
  {
    hide MoveOne, At, Balanced, Outside;
    var q := MoveOne(env, k, i, x, p);
    MoveOneOutside(env, k, i, x, p, l);
    MoveOneShape(env, k, i, x, p);
    if Location(env.txs[k].inputs[i].outpoint, x) in p.all {
      MovesOfAppend(p.actions, q.actions[|p.actions|], l);
    }
  }

  lemma {:induction false} MovesSend(env: Env, k: nat, i: nat, xs: seq<nat>, n: nat, p: Progress, l: Location)
    requires Balanced(env.txs, env.prevouts) && 1 <= k < |env.txs| && i < |env.txs[k].inputs| && Outside(env.txs, l.outpoint)
    requires n <= |xs| && forall a, b :: 0 <= a < b < |xs| ==> xs[a] != xs[b]
    ensures var q := Moves(env, k, i, xs, n, p);
            && (At(q.offsets, l) <==> At(p.offsets, l)) && (l in q.all <==> l in p.all)
            && MovesOf(q.actions, l) == MovesOf(p.actions, l)
               + (if l.outpoint == env.txs[k].inputs[i].outpoint && l.offset in xs[..n] && l in p.all then 1 else 0)
    decreases n
  {
    hide MoveOne, At, Balanced, Outside, MovesOf;
    if n > 0 {
      MovesSend(env, k, i, xs, n - 1, p, l);
      MoveOneSends(env, k, i, xs[n - 1], Moves(env, k, i, xs, n - 1, p), l);
      assert xs[..n] == xs[..n - 1] + [xs[n - 1]];
    }
  }

  /** An input takes every recorded position of the output it spends, moving each recorded transfer once. */
  lemma MoveInputSends(env: Env, k: nat, i: nat, p: Progress, l: Location)
    requires Ok(env) && 1 <= k < |env.txs| && i < |env.txs[k].inputs| && Outside(env.txs, l.outpoint)
    ensures var q := MoveInput(env, k, i, p);
            var spent := Spends(env.txs[k], i, l.outpoint);
            && (Waits(q, l) <==> Waits(p, l) && !spent)
            && MovesOf(q.actions, l) == MovesOf(p.actions, l) + (if Waits(p, l) && spent then 1 else 0)
  {
    hide Balanced, Outside, MovesOf, Moves;
    var o := env.txs[k].inputs[i].outpoint;
    if o in p.offsets {
      var xs := env.order(o, p.offsets[o]);
      assert Lists(xs, p.offsets[o]);
      var p0 := p.(offsets := p.offsets - {o});
      MovesSend(env, k, i, xs, |xs|, p0, l);
      assert xs[..|xs|] == xs;
    }
  }

  lemma CreateSends(env: Env, k: nat, i: nat, p: Progress, l: Location)
    requires Ok(env) && 1 <= k < |env.txs| && i < |env.txs[k].inputs| && Outside(env.txs, l.outpoint)
    ensures var q := CreateOne(env, k, i, p);
            (Waits(q, l) <==> Waits(p, l)) && MovesOf(q.actions, l) == MovesOf(p.actions, l)
  {
    hide CreateOne, Balanced, ActionOk, MovesOf, LeakedAt, CoinbaseLocation;
    var q := CreateOne(env, k, i, p);
    CreateShape(env, k, i, p);
    CreateOutside(env, k, i, p, l);
    if q.actions != p.actions {
      MovesOfAppend(p.actions, q.actions[|p.actions|], l);
    }
  }

  lemma CreateOutside(env: Env, k: nat, i: nat, p: Progress, l: Location)
    requires Ok(env) && 1 <= k < |env.txs| && i < |env.txs[k].inputs| && Outside(env.txs, l.outpoint)
    ensures At(CreateOne(env, k, i, p).offsets, l) <==> At(p.offsets, l)
  {
    hide Created, Reads, FeesBefore, File, Insert, At;
    var u := StartOf(env.txs[k], env.prevouts, i);
    LocateIs(env.txs[k].outputs, u);
    var p1 := p.(partials := p.partials - {env.txs[k].inputs[i].outpoint});
    match Locate(env.txs[k].outputs, u) {
      case Some((vout, offset)) =>
        InsertAt(p.offsets, OutPoint(env.txs[k].txid, vout), offset, l);
        match Verdict(Reads(Continued(env, k, i, p).parts)) {
          case Single(contentType, body) =>
            CreatedPlaces(env, k, p1, Continued(env, k, i, p), vout, offset, contentType, body);
          case _ =>
        }
      case None =>
    }
  }

  // ---- transactions and blocks ----

  ghost predicate SpentIn(tx: Tx, n: nat, o: OutPoint)
  {
    exists i: nat :: i < n && Spends(tx, i, o)
  }

  lemma {:induction false} InputsSend(env: Env, k: nat, n: nat, p: Progress, l: Location)
    requires Ok(env) && 1 <= k < |env.txs| && n <= |env.txs[k].inputs| && Outside(env.txs, l.outpoint)
    ensures var q := Inputs(env, k, n, p);
            var spent := SpentIn(env.txs[k], n, l.outpoint);
            && (Waits(q, l) <==> Waits(p, l) && !spent)
            && MovesOf(q.actions, l) == MovesOf(p.actions, l) + (if Waits(p, l) && spent then 1 else 0)
    decreases n
  {
    hide CreateOne, MoveInput, Balanced, Outside, MovesOf, At;
    if n > 0 {
      InputsSend(env, k, n - 1, p, l);
      var q := Inputs(env, k, n - 1, p);
      MoveInputSends(env, k, n - 1, q, l);
      CreateSends(env, k, n - 1, MoveInput(env, k, n - 1, q), l);
      SpentStep(env.txs[k], n, l.outpoint);
    }
  }

  lemma SpentStep(tx: Tx, n: nat, o: OutPoint)
    requires n > 0
    ensures SpentIn(tx, n, o) <==> SpentIn(tx, n - 1, o) || Spends(tx, n - 1, o)
  {
  }

  ghost predicate SpentBefore(txs: seq<Tx>, n: nat, o: OutPoint)
    requires n <= |txs|
  {
    exists k: nat :: 1 <= k < n && SpentIn(txs[k], |txs[k].inputs|, o)
  }

  lemma {:induction false} TxsSend(env: Env, n: nat, p: Progress, l: Location)
    requires Ok(env) && 1 <= n <= |env.txs| && Outside(env.txs, l.outpoint)
    ensures var q := Txs(env, n, p);
            var spent := SpentBefore(env.txs, n, l.outpoint);
            && (Waits(q, l) <==> Waits(p, l) && !spent)
            && MovesOf(q.actions, l) == MovesOf(p.actions, l) + (if Waits(p, l) && spent then 1 else 0)
    decreases n
  {
    hide Inputs, Balanced, Outside, MovesOf, Waits, SpentIn;
    if n > 1 {
      TxsSend(env, n - 1, p, l);
      var m := |env.txs[n - 1].inputs|;
      InputsSend(env, n - 1, m, Txs(env, n - 1, p), l);
    }
  }

  /** The block that spends a transfer's output pushes exactly one move of it. */
  lemma SpentMovesOnce(w: World, env: Env, partials: map<OutPoint, Partials>, l: Location)
    requires WorldOk(w) && BlockOk(w, env) && Balanced(env.txs, env.prevouts)
    requires l in LoadTransfers(w.ledger.transfers, env.prevouts)
    ensures MovesOf(Parsed(env, LoadedWith(w, env, partials)).actions, l) == 1
  {
    hide Balanced, LoadTransfers, Ok, Protos, Txs, MovesOf, Outside, LedgerOk;
    BlockBalanced(w, env);
    LoadedIff(w, env, l);
    LoadedAt(w, env, partials, l);
    var p := LoadedWith(w, env, partials);
    TxsSend(env, |env.txs|, p, l);
    var k: nat, i: nat :| 1 <= k < |env.txs| && Spends(env.txs[k], i, l.outpoint);
    assert SpentIn(env.txs[k], |env.txs[k].inputs|, l.outpoint);
    assert SpentBefore(env.txs, |env.txs|, l.outpoint);
    assert l in p.all by { ProtosKeys(LoadTransfers(w.ledger.transfers, env.prevouts)); }
    assert MovesOf(p.actions, l) == 0 by { NoMoves(l); }
  }

  lemma ProtosKeys(valid: map<Location, ValidTransfer>)
    ensures Protos(valid).Keys == valid.Keys
  {
  }

  lemma NoMoves(l: Location)
    ensures MovesOf([], l) == 0
  {
  }

  // ---- the ledger's side ----

  /** Running the batch, the transfer outstanding at `l` stays as it is until its one move, which logs
      one send of its amount from its sender, and nothing puts it back. */
  ghost predicate SentOnce(s: State, h: Index, actions: seq<TokenAction>, l: Location)
    requires l in s.valid
  {
    exists n: nat :: n < |actions| && SentAt(s, h, actions, l, n)
  }

  ghost predicate SentAt(s: State, h: Index, actions: seq<TokenAction>, l: Location, n: nat)
    requires l in s.valid && n < |actions|
  {
    var v := s.valid[l];
    var before := Run(s, h, actions[..n]);
    && actions[n].Transferred? && actions[n].location == l
    && before.Done? && l in before.state.valid && before.state.valid[l] == v
    && Run(s, h, actions).Done? && l !in Run(s, h, actions).state.valid
    && var step := Step(before.state, before.index, actions[n]);
       step.Done? && step.log == [SendEvent(v.proto.tick, v.proto.amt, actions[n].recipient, v.owner, actions[n].txid, actions[n].vout)]
  }

  predicate NoTransferAt(actions: seq<TokenAction>, l: Location)
  {
    forall i :: 0 <= i < |actions| ==> !(actions[i].Transfer? && actions[i].location == l)
  }

  lemma StepElsewhere(s: State, h: Index, a: TokenAction, l: Location)
    requires Step(s, h, a).Done? && !((a.Transfer? || a.Transferred?) && a.location == l)
    ensures l in Step(s, h, a).state.valid <==> l in s.valid
    ensures l in s.valid ==> Step(s, h, a).state.valid[l] == s.valid[l]
  {
  }

  lemma StepSends(s: State, h: Index, a: TokenAction, l: Location)
    requires Inv(s) && a.Transferred? && a.location == l && l in s.valid && Step(s, h, a).Done?
    ensures var o := Step(s, h, a); var v := s.valid[l];
            l !in o.state.valid && o.log == [SendEvent(v.proto.tick, v.proto.amt, a.recipient, v.owner, a.txid, a.vout)]
  {
    hide Inv, Agree;
    IndexAgrees(s.accounts);
    TransferredShape(s, IndexOf(s.accounts), a);
    StepAlike(s, h, IndexOf(s.accounts), a);
  }

  lemma RunSnoc(s: State, h: Index, actions: seq<TokenAction>)
    requires actions != [] && Run(s, h, actions).Done?
    ensures var n := |actions| - 1;
            var o := Run(s, h, actions[..n]);
            o.Done? && Step(o.state, o.index, actions[n]).Done? && Run(s, h, actions).state == Step(o.state, o.index, actions[n]).state
  {
    var n := |actions| - 1;
    assert actions == actions[..n] + [actions[n]];
    RunAppend(s, h, actions[..n], [actions[n]]);
    assert [actions[n]][1..] == [];
  }

  lemma InitSound(s: State, h: Index, actions: seq<TokenAction>)
    requires Inv(s) && BatchOk(s, actions) && Run(s, h, actions).Done?
    ensures Inv(Run(s, h, actions).state)
  {
    hide Inv, BatchOk, Run;
    RunSound(s, h, actions);
  }

  lemma {:induction false} RunSends(s: State, h: Index, actions: seq<TokenAction>, l: Location)
    requires Inv(s) && BatchOk(s, actions) && l in s.valid && NoTransferAt(actions, l) && MovesOf(actions, l) <= 1
    requires Run(s, h, actions).Done?
    ensures MovesOf(actions, l) == 1 ==> SentOnce(s, h, actions, l) && l !in Run(s, h, actions).state.valid
    ensures MovesOf(actions, l) == 0 ==>
              l in Run(s, h, actions).state.valid && Run(s, h, actions).state.valid[l] == s.valid[l]
    decreases |actions|
  {
    hide Inv, Step, RecordOk, ActionOk, Sound;
    if actions != [] {
      var n := |actions| - 1;
      var init := actions[..n];
      var a := actions[n];
      RunSnoc(s, h, actions);
      var o := Run(s, h, init);
      RunSends(s, h, init, l);
      InitSound(s, h, init);
      if a.Transferred? && a.location == l {
        StepSends(o.state, o.index, a, l);
        assert SentAt(s, h, actions, l, n);
      } else {
        StepElsewhere(o.state, o.index, a, l);
        if MovesOf(actions, l) == 1 {
          var j: nat :| j < |init| && SentAt(s, h, init, l, j);
          assert init[..j] == actions[..j];
          assert SentAt(s, h, actions, l, j);
        }
      }
    }
  }

  /** Spending the output of an outstanding transfer yields exactly one send of it, and the transfer
      is gone after the block. */
  lemma SpentSendsOnce(w: World, env: Env, partials: map<OutPoint, Partials>, l: Location)
    requires WorldOk(w) && BlockOk(w, env) && Balanced(env.txs, env.prevouts) && RecordsApart(w, env, partials)
    requires l in LoadTransfers(w.ledger.transfers, env.prevouts)
    ensures OneOwner(w.ledger.transfers) && l in ByLocation(w.ledger.transfers)
    ensures var p := Parsed(env, LoadedWith(w, env, partials));
            var o := Run(Whole(w.ledger, p.all), w.holders, p.actions);
            (HoldersOk(w) ==> o.Done?) && (o.Done? ==> SentOnce(Whole(w.ledger, p.all), w.holders, p.actions, l))
  {
    hide Balanced, LoadTransfers, Ok, Parsed, MovesOf, LoadedWith, WorldOk, BlockOk, SentOnce, Inv, BatchFits, Run, ByLocation, RecordsApart, HoldersOk, LoadedCache, Sticks, Sound;
    OwnersUnique(w);
    LoadedIff(w, env, l);
    SpentMovesOnce(w, env, partials, l);
    BlockBatch(w, env, partials);
    BlockRuns(w, env, partials);
    var p := Parsed(env, LoadedWith(w, env, partials));
    WorldInv(w, p.all);
    forall i | 0 <= i < |p.actions| ensures !(p.actions[i].Transfer? && p.actions[i].location == l) {
      ActionPlaced(w, env, partials, i);
    }
    if Run(Whole(w.ledger, p.all), w.holders, p.actions).Done? {
      RunSends(Whole(w.ledger, p.all), w.holders, p.actions, l);
    }
  }

  lemma WorldInv(w: World, all: map<Location, TransferProto>)
    requires WorldOk(w)
    ensures OneOwner(w.ledger.transfers) && Inv(Whole(w.ledger, all))
  {
    hide Inv, Whole, Run;
    RecordsIrrelevant(w.ledger, map[], all);
  }

  // ---- gone for good ----

  /** An output that was made, with nothing recorded at this offset any more. */
  ghost predicate Gone(w: World, l: Location)
  {
    l.outpoint in w.made && !At(w.offsets, l)
  }

  lemma LeakedInside(env: Env, leaked: map<nat, seq<LeakedKind>>, l: Location)
    requires Balanced(env.txs, env.prevouts) && LeakedAt(env, leaked, l)
    ensures !Outside(env.txs, l.outpoint)
  {
  }

  lemma SpentGone(w: World, env: Env, partials: map<OutPoint, Partials>, w': World, l: Location)
    requires WorldOk(w) && BlockOk(w, env) && Balanced(env.txs, env.prevouts) && BlockEffect(w, env, partials, w')
    requires l in LoadTransfers(w.ledger.transfers, env.prevouts)
    ensures Gone(w', l)
  {
    hide Balanced, LoadTransfers, Ok, Txs, MovesOf, Outside, LedgerOk, LedgerEffect, LeakedAt, At, ActsFit, Tracked;
    BlockBalanced(w, env);
    LoadedIff(w, env, l);
    assert l.outpoint in w.made && l.outpoint in env.prevouts;
    var p := LoadedWith(w, env, partials);
    TxsSend(env, |env.txs|, p, l);
    var k: nat, i: nat :| 1 <= k < |env.txs| && Spends(env.txs[k], i, l.outpoint);
    assert SpentIn(env.txs[k], |env.txs[k].inputs|, l.outpoint);
    assert SpentBefore(env.txs, |env.txs|, l.outpoint);
    ParsedRecords(w, env, partials);
    var q := Parsed(env, p);
    assert !At(q.offsets, l);
    if LeakedAt(env, q.leaked, l) {
      LeakedInside(env, q.leaked, l);
    }
  }

  lemma GoneStays(w: World, env: Env, partials: map<OutPoint, Partials>, w': World, l: Location)
    requires WorldOk(w) && BlockOk(w, env) && Balanced(env.txs, env.prevouts) && BlockEffect(w, env, partials, w')
    requires Gone(w, l)
    ensures Gone(w', l)
  {
    hide Balanced, Ok, Parsed, LedgerOk, LedgerEffect, At, Occupied, InBlock, LoadedWith, TransfersPlaced, OffsetsBounded, OutputsTrue;
    BlockBalanced(w, env);
    var p := LoadedWith(w, env, partials);
    if Occupied(env, Parsed(env, p), l) {
      OccupiedOrigin(env, p, l);
      if SomePlace(env, l) {
        var k: nat, u: nat :| 1 <= k < |env.txs| && Place(env.txs, env.prevouts, k, u) == Some(l);
        PlaceInBlock(env, k, u, l);
        var out :| InBlock(env, l.outpoint, out);
        InBlockInside(env, l.outpoint, out);
        MadeOutside(w, env, l.outpoint);
      } else {
        StartOccupied(w, env, partials, l);
      }
    }
  }

  lemma InBlockInside(env: Env, o: OutPoint, out: TxOut)
    requires InBlock(env, o, out)
    ensures !Outside(env.txs, o)
  {
  }

  /** Whatever run follows, a transfer whose output was spent is never outstanding again. */
  lemma {:induction false} NeverBack(ws: seq<World>, envs: seq<Env>, partials: seq<map<OutPoint, Partials>>, i: nat, j: nat, l: Location)
    requires RunOf(ws, envs, partials) && i < j < |ws|
    requires l in LoadTransfers(ws[i].ledger.transfers, envs[i].prevouts)
    ensures Gone(ws[j], l) && forall x :: x in ws[j].ledger.transfers ==> x.location != l
    decreases j
  {
    hide BlockOk, Balanced, BlockEffect, LedgerOk, OffsetsBounded, OutputsTrue, LoadTransfers, At;
    RunsStayOk(ws, envs, partials, j);
    RunsStayOk(ws, envs, partials, j - 1);
    if i == j - 1 {
      SpentGone(ws[i], envs[i], partials[i], ws[j], l);
    } else {
      NeverBack(ws, envs, partials, i, j - 1, l);
      GoneStays(ws[j - 1], envs[j - 1], partials[j - 1], ws[j], l);
    }
  }
}
