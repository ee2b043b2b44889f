/** The life of a token transfer across one block: every outstanding transfer sits at a recorded
    inscription, spending that inscription's output emits exactly one move of it, and what the parser
    pushes is a batch the ledger runs safely. */
module Lifecycle {
  import opened Base
  import opened Ledger
  import opened LedgerInvariants
  import opened Searcher
  import opened Routing
  import opened ScriptSig
  import opened TokenCacheStore
  import opened BlockParser
  import opened Positions
  import opened NoCollision

  // ---- which transfers may be outstanding after a batch ----

  function LiveStep(live: set<Location>, a: TokenAction): set<Location>
  {
    match a
    case Transfer(l, _, _, _, _, _) => live + {l}
    case Transferred(l, _, _, _) => live - {l}
    case _ => live
  }

  /** Locations that can hold an outstanding transfer once the batch has drained. */
  function Live(live: set<Location>, actions: seq<TokenAction>): set<Location>
  {
    if actions == [] then live
    else LiveStep(Live(live, actions[..|actions| - 1]), actions[|actions| - 1])
  }

  lemma LiveAppend(live: set<Location>, actions: seq<TokenAction>, a: TokenAction)
    ensures Live(live, actions + [a]) == LiveStep(Live(live, actions), a)
  {
    assert (actions + [a])[..|actions|] == actions;
  }

  /** Draining a batch leaves outstanding only transfers its actions left live. */
  lemma {:induction false} RunLive(s: State, h: Index, actions: seq<TokenAction>)
    requires Run(s, h, actions).Done?
    ensures Run(s, h, actions).state.valid.Keys <= Live(s.valid.Keys, actions)
    decreases |actions|
  {
    if actions != [] {
      var init, last := actions[..|actions| - 1], actions[|actions| - 1];
      assert actions == init + [last];
      RunAppend(s, h, init, [last]);
      RunLive(s, h, init);
      var o := Run(s, h, init);
      assert [last][1..] == [];
      assert Run(o.state, o.index, [last]).state == Step(o.state, o.index, last).state;
    }
  }

  lemma {:induction false} LiveSplit(a: set<Location>, b: set<Location>, actions: seq<TokenAction>)
    ensures Live(a + b, actions) <= Live(a, actions) + b
    decreases |actions|
  {
    if actions != [] {
      LiveSplit(a, b, actions[..|actions| - 1]);
    }
  }

  /** An outstanding transfer was outstanding before with the same sender, or one of the batch's
      transfers put it there for its owner. */
  ghost predicate OwnerFrom(valid: map<Location, ValidTransfer>, actions: seq<TokenAction>, l: Location, owner: FullHash)
  {
    (l in valid && valid[l].owner == owner)
    || exists i :: 0 <= i < |actions| && actions[i].Transfer? && actions[i].location == l && actions[i].owner == owner
  }

  lemma {:induction false} RunOwners(s: State, h: Index, actions: seq<TokenAction>, l: Location)
    requires Run(s, h, actions).Done? && l in Run(s, h, actions).state.valid
    ensures OwnerFrom(s.valid, actions, l, Run(s, h, actions).state.valid[l].owner)
    decreases |actions|
  {
    if actions != [] {
      var init, last := actions[..|actions| - 1], actions[|actions| - 1];
      assert actions == init + [last];
      RunAppend(s, h, init, [last]);
      var o := Run(s, h, init);
      assert [last][1..] == [];
      var s' := Step(o.state, o.index, last).state;
      assert Run(o.state, o.index, [last]).state == s';
      if last.Transfer? && last.location == l && l !in o.state.valid {
        assert actions[|actions| - 1].owner == s'.valid[l].owner;
      } else if l in o.state.valid && s'.valid[l] == o.state.valid[l] {
        RunOwners(s, h, init, l);
        OwnerLater(s.valid, init, last, l, s'.valid[l].owner);
      }
    }
  }

  lemma OwnerLater(valid: map<Location, ValidTransfer>, actions: seq<TokenAction>, a: TokenAction, l: Location, owner: FullHash)
    requires OwnerFrom(valid, actions, l, owner)
    ensures OwnerFrom(valid, actions + [a], l, owner)
  {
    if i :| 0 <= i < |actions| && actions[i].Transfer? && actions[i].location == l && actions[i].owner == owner {
      assert (actions + [a])[i] == actions[i];
    }
  }

  // ---- what the parser pushes ----

  /** Transaction `k` places an inscription completed at its input `i` at `l`, for `owner`. */
  ghost predicate MadeAt(env: Env, k: nat, i: nat, l: Location, owner: FullHash)
    requires Balanced(env.txs, env.prevouts)
  {
    && 1 <= k < |env.txs| && i < |env.txs[k].inputs|
    && l.outpoint.txid == env.txs[k].txid
    && Locate(env.txs[k].outputs, Unit(env, k, i, 0)) == Some((l.outpoint.vout, l.offset))
    && l.outpoint.vout < |env.txs[k].outputs|
    && Recipient(env.txs[k].outputs[l.outpoint.vout]) == owner != OP_RETURN_HASH
  }

  predicate Earlier(k': nat, i': nat, k: nat, n: nat)
  {
    k' < k || (k' == k && i' < n)
  }

  /** No input that can place a creation starts where an earlier input of its transaction starts, or only
      first inputs create. */
  ghost predicate DistinctStarts(env: Env)
    requires Balanced(env.txs, env.prevouts)
  {
    env.jubilee ==>
      forall k, i: nat, i': nat :: 1 <= k < |env.txs| && i' < i < |env.txs[k].inputs| && Locate(env.txs[k].outputs, Unit(env, k, i, 0)).Some? ==>
        Unit(env, k, i', 0) != Unit(env, k, i, 0)
  }

  /** An action pushed before input `n` of transaction `k` was read. */
  ghost predicate ActFits(env: Env, k: nat, n: nat, all: map<Location, TransferProto>, a: TokenAction)
    requires Balanced(env.txs, env.prevouts)
  {
    && ActionOk(a)
    && (a.Transferred? ==> a.location in all)
    && (a.Transfer? ==> a.location in all && exists k': nat, i': nat :: Earlier(k', i', k, n) && MadeAt(env, k', i', a.location, a.owner))
    && (a.Transfer? && DistinctStarts(env) ==> all[a.location].amt == a.amt.units && all[a.location].tick == a.tick)
  }

  ghost predicate ActsFit(env: Env, k: nat, n: nat, all: map<Location, TransferProto>, actions: seq<TokenAction>)
    requires Balanced(env.txs, env.prevouts)
  {
    forall i :: 0 <= i < |actions| ==> ActFits(env, k, n, all, actions[i])
  }

  /** The records: the loaded ones untouched, every other one at a location of this block. */
  ghost predicate RecordsFit(env: Env, loaded: map<Location, ValidTransfer>, all: map<Location, TransferProto>)
  {
    && (forall l :: l in loaded ==> Outside(env.txs, l.outpoint) && l in all && all[l] == loaded[l].proto)
    && (forall l :: l in all ==> l in loaded || !Outside(env.txs, l.outpoint))
  }

  /** Every transfer that may be outstanding has a record and sits at a recorded inscription, except
      those of output `o` still waiting in `todo`. */
  ghost predicate Tracked(live: set<Location>, p: Progress, o: OutPoint, todo: set<nat>)
  {
    forall l :: l in live ==> l in p.all && (At(p.offsets, l) || (l.outpoint == o && l.offset in todo))
  }

  ghost predicate Alive(env: Env, loaded: map<Location, ValidTransfer>, k: nat, n: nat, p: Progress)
    requires Balanced(env.txs, env.prevouts)
  {
    && RecordsFit(env, loaded, p.all)
    && ActsFit(env, k, n, p.all, p.actions)
    && Tracked(Live(loaded.Keys, p.actions), p, OutPoint(0, 0), {})
  }

  lemma ActsLater(env: Env, k: nat, n: nat, k2: nat, n2: nat, all: map<Location, TransferProto>, actions: seq<TokenAction>)
    requires Balanced(env.txs, env.prevouts) && ActsFit(env, k, n, all, actions)
    requires k < k2 || (k == k2 && n <= n2)
    ensures ActsFit(env, k2, n2, all, actions)
  {
    forall i | 0 <= i < |actions| ensures ActFits(env, k2, n2, all, actions[i]) {
      assert ActFits(env, k, n, all, actions[i]);
      if actions[i].Transfer? {
        var k': nat, i': nat :| Earlier(k', i', k, n) && MadeAt(env, k', i', actions[i].location, actions[i].owner);
        assert Earlier(k', i', k2, n2);
      }
    }
  }

  /** With distinct starts, a later creation never lands on an earlier one of the same block. */
  lemma MadeApart(env: Env, k: nat, i: nat, k': nat, i': nat, l: Location, owner: FullHash, owner': FullHash)
    requires Ok(env) && DistinctStarts(env) && MadeAt(env, k, i, l, owner) && (env.jubilee || i == 0)
    ensures !(Earlier(k', i', k, i) && MadeAt(env, k', i', l, owner'))
  {
    if Earlier(k', i', k, i) && MadeAt(env, k', i', l, owner') {
      assert k' == k;
      LocateInjective(env.txs[k].outputs, Unit(env, k, i, 0), Unit(env, k, i', 0));
    }
  }

  lemma ActsRecorded(env: Env, k: nat, i: nat, all: map<Location, TransferProto>, actions: seq<TokenAction>, a: TokenAction)
    requires Ok(env) && ActsFit(env, k, i, all, actions)
    requires a.Transfer? ==> MadeAt(env, k, i, a.location, a.owner) && (env.jubilee || i == 0)
    ensures ActsFit(env, k, i, Recorded(all, a, env.height), actions)
  {
    var all' := Recorded(all, a, env.height);
    forall j | 0 <= j < |actions| ensures ActFits(env, k, i, all', actions[j]) {
      var b := actions[j];
      assert ActFits(env, k, i, all, b);
      if a.Transfer? && b.Transfer? && DistinctStarts(env) && a.location == b.location {
        var k': nat, i': nat :| Earlier(k', i', k, i) && MadeAt(env, k', i', b.location, b.owner);
        MadeApart(env, k, i, k', i', a.location, a.owner, b.owner);
      }
    }
  }

  /** A move keeps all other positions and pushes at most one action: a move of a recorded transfer. */
  lemma MoveOneShape(env: Env, k: nat, i: nat, x: nat, p: Progress)
    requires Balanced(env.txs, env.prevouts) && 1 <= k < |env.txs| && i < |env.txs[k].inputs|
    ensures var q := MoveOne(env, k, i, x, p);
            var from := Location(env.txs[k].inputs[i].outpoint, x);
            && q.all == p.all
            && (forall l :: At(p.offsets, l) ==> At(q.offsets, l))
            && (from !in p.all ==> q.actions == p.actions)
            && (from in p.all ==>
                  |q.actions| == |p.actions| + 1 && q.actions == p.actions + [q.actions[|p.actions|]]
                  && q.actions[|p.actions|].Transferred? && q.actions[|p.actions|].location == from)
  {
    LocateIs(env.txs[k].outputs, Unit(env, k, i, x));
    assert p.actions + [] == p.actions;
  }

  lemma MoveOneAlive(env: Env, k: nat, i: nat, x: nat, p: Progress, live0: set<Location>, todo: set<nat>)
    requires Balanced(env.txs, env.prevouts) && 1 <= k < |env.txs| && i < |env.txs[k].inputs|
    requires ActsFit(env, k, i, p.all, p.actions)
    requires Tracked(Live(live0, p.actions), p, env.txs[k].inputs[i].outpoint, todo + {x})
    ensures var q := MoveOne(env, k, i, x, p);
            q.all == p.all && ActsFit(env, k, i, q.all, q.actions) && Tracked(Live(live0, q.actions), q, env.txs[k].inputs[i].outpoint, todo)
  {
    hide MoveOne, At, Balanced;
    MoveOneShape(env, k, i, x, p);
    var q := MoveOne(env, k, i, x, p);
    if Location(env.txs[k].inputs[i].outpoint, x) in p.all {
      LiveAppend(live0, p.actions, q.actions[|p.actions|]);
    }
  }

  function Elems(xs: seq<nat>): set<nat>
  {
    set x | x in xs
  }

  lemma {:induction false} MovesAlive(env: Env, k: nat, i: nat, xs: seq<nat>, n: nat, p: Progress, live0: set<Location>)
    requires Balanced(env.txs, env.prevouts) && 1 <= k < |env.txs| && i < |env.txs[k].inputs| && n <= |xs|
    requires ActsFit(env, k, i, p.all, p.actions)
    requires Tracked(Live(live0, p.actions), p, env.txs[k].inputs[i].outpoint, Elems(xs))
    ensures var q := Moves(env, k, i, xs, n, p);
            q.all == p.all && ActsFit(env, k, i, q.all, q.actions) && Tracked(Live(live0, q.actions), q, env.txs[k].inputs[i].outpoint, Elems(xs[n..]))
    decreases n
  {
    hide MoveOne, Balanced;
    if n == 0 {
      assert xs[0..] == xs;
    } else {
      MovesAlive(env, k, i, xs, n - 1, p, live0);
      assert xs[n - 1..] == [xs[n - 1]] + xs[n..];
      assert Elems(xs[n - 1..]) == Elems(xs[n..]) + {xs[n - 1]};
      MoveOneAlive(env, k, i, xs[n - 1], Moves(env, k, i, xs, n - 1, p), live0, Elems(xs[n..]));
    }
  }

  /** Spending an output leaves no transfer outstanding on it. */
  lemma MoveInputAlive(env: Env, loaded: map<Location, ValidTransfer>, k: nat, i: nat, p: Progress)
    requires Ok(env) && 1 <= k < |env.txs| && i < |env.txs[k].inputs| && Alive(env, loaded, k, i, p)
    ensures Alive(env, loaded, k, i, MoveInput(env, k, i, p))
  {
    hide Moves, Balanced, ActsFit, RecordsFit;
    var o := env.txs[k].inputs[i].outpoint;
    if o in p.offsets {
      var xs := env.order(o, p.offsets[o]);
      assert Lists(xs, p.offsets[o]);
      var p0 := p.(offsets := p.offsets - {o});
      assert Tracked(Live(loaded.Keys, p0.actions), p0, o, Elems(xs));
      MovesAlive(env, k, i, xs, |xs|, p0, loaded.Keys);
      assert xs[|xs|..] == [];
    }
  }

  /** An input's creation keeps all positions and pushes at most one action, which is never a move; a
      transfer is recorded at the position it is placed on. */
  lemma CreateShape(env: Env, k: nat, i: nat, p: Progress)
    requires Balanced(env.txs, env.prevouts) && 1 <= k < |env.txs| && i < |env.txs[k].inputs|
    ensures var q := CreateOne(env, k, i, p);
            && (forall l :: At(p.offsets, l) ==> At(q.offsets, l))
            && (q.actions == p.actions ==> q.all == p.all)
            && (q.actions != p.actions ==>
                  |q.actions| == |p.actions| + 1 && q.actions == p.actions + [q.actions[|p.actions|]]
                  && var a := q.actions[|p.actions|];
                     && ActionOk(a) && !a.Transferred? && q.all == Recorded(p.all, a, env.height)
                     && (a.Transfer? ==> MadeAt(env, k, i, a.location, a.owner) && (env.jubilee || i == 0) && At(q.offsets, a.location)))
  {
    hide Reads, ActionFor, FeesBefore, File;
    var u := Unit(env, k, i, 0);
    LocateIs(env.txs[k].outputs, u);
    var p1 := p.(partials := p.partials - {env.txs[k].inputs[i].outpoint});
    match Verdict(Reads(Continued(env, k, i, p).parts)) {
      case Single(contentType, body) =>
        if env.jubilee || i == 0 {
          match Locate(env.txs[k].outputs, u) {
            case Some((vout, offset)) =>
              CreatedShape(env, k, i, p1, Continued(env, k, i, p), vout, offset, contentType, body);
            case None =>
          }
        }
      case _ =>
    }
  }

  lemma CreatedShape(env: Env, k: nat, i: nat, p: Progress, partials: Partials, vout: nat, offset: nat, contentType: Bytes, body: Bytes)
    requires Balanced(env.txs, env.prevouts) && 1 <= k < |env.txs| && i < |env.txs[k].inputs| && vout < |env.txs[k].outputs|
    requires Locate(env.txs[k].outputs, Unit(env, k, i, 0)) == Some((vout, offset))
    ensures var q := Created(env, k, p, partials, vout, offset, contentType, body);
            && (forall l :: At(p.offsets, l) ==> At(q.offsets, l))
            && (q.actions == p.actions ==> q.all == p.all)
            && (q.actions != p.actions ==>
                  |q.actions| == |p.actions| + 1 && q.actions == p.actions + [q.actions[|p.actions|]]
                  && var a := q.actions[|p.actions|];
                     && ActionOk(a) && !a.Transferred? && q.all == Recorded(p.all, a, env.height)
                     && (a.Transfer? ==> MadeAt(env, k, i, a.location, a.owner) && At(q.offsets, a.location)))
  {
    var location := Location(OutPoint(env.txs[k].txid, vout), offset);
    var owner := Recipient(env.txs[k].outputs[vout]);
    var template := Template(env, k, partials, p.index, location, owner, contentType, body);
    ActionForOk(template, env.height, env.created);
    var a := ActionFor(template, env.height, env.created);
    assert a.Some? && a.value.Transfer? ==> a.value.location == location && a.value.owner == owner != OP_RETURN_HASH;
    hide ActionFor, Template, ActionOk;
    InsertAt(p.offsets, location.outpoint, offset, location);
    forall l | At(p.offsets, l) ensures At(Insert(p.offsets, location.outpoint, offset), l) {
      InsertAt(p.offsets, location.outpoint, offset, l);
    }
  }

  lemma CreateAlive(env: Env, loaded: map<Location, ValidTransfer>, k: nat, i: nat, p: Progress)
    requires Ok(env) && 1 <= k < |env.txs| && i < |env.txs[k].inputs| && Alive(env, loaded, k, i, p)
    ensures Alive(env, loaded, k, i + 1, CreateOne(env, k, i, p))
  {
    hide CreateOne, At, Balanced, ActionOk, Live;
    CreateShape(env, k, i, p);
    var q := CreateOne(env, k, i, p);
    if q.actions == p.actions {
      ActsLater(env, k, i, k, i + 1, q.all, q.actions);
    } else {
      var a := q.actions[|p.actions|];
      ActsRecorded(env, k, i, p.all, p.actions, a);
      ActsLater(env, k, i, k, i + 1, q.all, p.actions);
      LiveAppend(loaded.Keys, p.actions, a);
      assert Earlier(k, i, k, i + 1);
      assert ActFits(env, k, i + 1, q.all, a);
      if a.Transfer? {
        assert !Outside(env.txs, a.location.outpoint);
      }
    }
  }

  lemma {:induction false} InputsAlive(env: Env, loaded: map<Location, ValidTransfer>, k: nat, n: nat, p: Progress)
    requires Ok(env) && 1 <= k < |env.txs| && n <= |env.txs[k].inputs| && Alive(env, loaded, k, 0, p)
    ensures Alive(env, loaded, k, n, Inputs(env, k, n, p))
    decreases n
  {
    hide CreateOne, MoveInput, Balanced, ActsFit, RecordsFit;
    if n > 0 {
      InputsAlive(env, loaded, k, n - 1, p);
      var q := Inputs(env, k, n - 1, p);
      MoveInputAlive(env, loaded, k, n - 1, q);
      CreateAlive(env, loaded, k, n - 1, MoveInput(env, k, n - 1, q));
    }
  }

  lemma {:induction false} TxsAlive(env: Env, loaded: map<Location, ValidTransfer>, n: nat, p: Progress)
    requires Ok(env) && 1 <= n <= |env.txs| && Alive(env, loaded, 1, 0, p)
    ensures Alive(env, loaded, n, 0, Txs(env, n, p))
    decreases n
  {
    hide Inputs, Balanced, ActsFit, RecordsFit, Tracked;
    if n > 1 {
      TxsAlive(env, loaded, n - 1, p);
      var q := Txs(env, n - 1, p);
      var m := |env.txs[n - 1].inputs|;
      InputsAlive(env, loaded, n - 1, m, q);
      var r := Inputs(env, n - 1, m, q);
      ActsLater(env, n - 1, m, n, 0, r.all, r.actions);
    }
  }
}
