/** The parser's loops over transactions, inputs and inscriptions, proved against the specification. */
module ParseBlockLoop {
  import opened Base
  import opened Ledger
  import opened Searcher
  import opened Leaked
  import opened Routing
  import opened ScriptSig
  import opened TokenCacheStore
  import opened BlockParser

  /** What `calc_offsets` returned for transaction `k`. */
  ghost predicate CumOk(env: Env, k: nat, cum: seq<nat>)
    requires k < |env.txs| && Funded(env.txs[k], env.prevouts)
  {
    var tx := env.txs[k];
    && |cum| <= |tx.inputs|
    && (forall i :: 0 <= i < |tx.inputs| ==> (i < |cum| <==> StartOf(tx, env.prevouts, i) < OutTotal(tx.outputs)))
    && (forall i :: 0 <= i < |cum| ==> cum[i] == StartOf(tx, env.prevouts, i))
  }

  lemma UnitBound(tx: Tx, prevouts: map<OutPoint, TxPrevout>, i: nat, x: nat)
    requires Funded(tx, prevouts) && i < |tx.inputs| && x <= prevouts[tx.inputs[i].outpoint].value
    ensures StartOf(tx, prevouts, i) + x <= InTotal(tx, prevouts)
    ensures x < prevouts[tx.inputs[i].outpoint].value ==> StartOf(tx, prevouts, i) + x < InTotal(tx, prevouts)
  {
    var v := InValues(tx, prevouts);
    TotalStep(v, i);
    TotalMono(v, i + 1, |v|);
    assert v[..|v|] == v;
  }

  class Parser {
    const tokenCache: TokenCache

    constructor (cache: TokenCache)
      ensures tokenCache == cache
    {
      tokenCache := cache;
    }

    /** The in-place state is the specification's state. */
    ghost predicate Holds(p: Progress, leaked: LeakedInscriptions)
      reads tokenCache, leaked
    {
      leaked.inscriptions == p.leaked && tokenCache.tokenActions == p.actions && tokenCache.allTransfers == p.all
    }

    method MoveInscription(env: Env, k: nat, i: nat, x: nat, cum: seq<nat>, leaked: LeakedInscriptions, offsets: Offsets, ghost p: Progress)
      returns (offsets': Offsets)
      requires EnvOk(env) && 1 <= k < |env.txs| && i < |env.txs[k].inputs| && CumOk(env, k, cum)
      requires x < env.prevouts[env.txs[k].inputs[i].outpoint].value
      requires Holds(p, leaked) && offsets == p.offsets && leaked.totalAmount == FeesBefore(env.txs, env.prevouts, k + 1)
      modifies leaked`inscriptions, tokenCache`tokenActions
      ensures Holds(MoveOne(env, k, i, x, p), leaked) && offsets' == MoveOne(env, k, i, x, p).offsets
    {
      hide FeesBefore, Insert, LocateFrom, Total, InBounds, PrevoutsMatch, OrderOk;
      var tx := env.txs[k];
      FeesStep(env.txs, env.prevouts, k);
      var oldLocation := Location(tx.inputs[i].outpoint, x);
      var isTokenTransferMove := oldLocation in tokenCache.allTransfers;
      var entry := if i < |cum| then Some(cum[i]) else None;
      var offset := if entry.Some? then Some(entry.value + x) else None;
      var place := GetOutputIndexByInput(offset, tx.outputs);
      RoutingRule(tx, env.prevouts, i, x, entry);
      LocateIs(tx.outputs, StartOf(tx, env.prevouts, i) + x);
      UnitBound(tx, env.prevouts, i, x);
      assert p.actions + [] == p.actions;
      match place
      case Some((newVout, newOffset)) =>
        offsets' := Insert(offsets, OutPoint(tx.txid, newVout), newOffset);
        if isTokenTransferMove {
          if tx.outputs[newVout].opReturn {
            tokenCache.PushBurnedTransfer(oldLocation, tx.txid, newVout);
          } else {
            tokenCache.PushTransferred(oldLocation, tx.outputs[newVout].scriptHash, tx.txid, newVout);
          }
        }
      case None =>
        offsets' := offsets;
        if isTokenTransferMove {
          tokenCache.PushTransferred(oldLocation, env.prevouts[tx.inputs[i].outpoint].scriptHash, tx.txid, 0);
        }
        leaked.Add(i, tx, x, env.prevouts, Move);
    }

    method MoveInscriptions(env: Env, k: nat, i: nat, cum: seq<nat>, leaked: LeakedInscriptions, offsets: Offsets, ghost p: Progress)
      returns (offsets': Offsets)
      requires EnvOk(env) && 1 <= k < |env.txs| && i < |env.txs[k].inputs| && CumOk(env, k, cum)
      requires InBounds(env, offsets)
      requires Holds(p, leaked) && offsets == p.offsets && leaked.totalAmount == FeesBefore(env.txs, env.prevouts, k + 1)
      modifies leaked`inscriptions, tokenCache`tokenActions
      ensures Holds(MoveInput(env, k, i, p), leaked) && offsets' == MoveInput(env, k, i, p).offsets
    {
      hide MoveOne, FeesBefore, PrevoutsMatch;
      var o := env.txs[k].inputs[i].outpoint;
      offsets' := offsets;
      if o in offsets {
        var xs := env.order(o, offsets[o]);
        assert Lists(xs, offsets[o]);
        offsets' := offsets - {o};
        ghost var p0 := p.(offsets := offsets');
        for j := 0 to |xs|
          invariant Holds(Moves(env, k, i, xs, j, p0), leaked) && offsets' == Moves(env, k, i, xs, j, p0).offsets
          invariant leaked.totalAmount == FeesBefore(env.txs, env.prevouts, k + 1)
        {
          assert xs[j] in xs;
          offsets' := MoveInscription(env, k, i, xs[j], cum, leaked, offsets', Moves(env, k, i, xs, j, p0));
        }
      }
    }

    /** Reads the input's scripts as the next part of an inscription and records what that completes. */
    method CreateInscription(env: Env, k: nat, i: nat, cum: seq<nat>, leaked: LeakedInscriptions, offsets: Offsets,
                             partials: map<OutPoint, Partials>, index: nat, ghost p: Progress)
      returns (offsets': Offsets, partials': map<OutPoint, Partials>, index': nat)
      requires EnvOk(env) && 1 <= k < |env.txs| && i < |env.txs[k].inputs| && CumOk(env, k, cum)
      requires Holds(p, leaked) && offsets == p.offsets && partials == p.partials && index == p.index
      requires leaked.totalAmount == FeesBefore(env.txs, env.prevouts, k + 1)
      modifies leaked`inscriptions, tokenCache`tokenActions, tokenCache`allTransfers
      ensures var q := CreateOne(env, k, i, p);
              Holds(q, leaked) && offsets' == q.offsets && partials' == q.partials && index' == q.index
    {
      hide Reads, Created, FeesBefore, ActionFor, Insert, LocateFrom, Total, InBounds, PrevoutsMatch;
      offsets', partials', index' := offsets, partials, index;
      if !env.jubilee && i != 0 {
        return;
      }
      var tx := env.txs[k];
      var stored := Get(partials, tx.inputs[i].outpoint, Partials(0, tx.txid, []));
      partials' := partials - {tx.inputs[i].outpoint};
      stored := stored.(parts := stored.parts + [tx.inputs[i].scriptSig]);
      assert stored == Continued(env, k, i, p);
      var parsed := ParseScripts(stored.parts);
      match parsed
      case NoInscription =>
      case Partial =>
        if stored.genesisTxid == tx.txid {
          stored := stored.(inscriptionIndex := index);
          index' := index + 1;
        }
        if i < |tx.outputs| {
          partials' := partials'[OutPoint(tx.txid, i) := stored];
        }
      case Single(contentType, body) =>
        var place := GetOutputIndexByInput(if i < |cum| then Some(cum[i]) else None, tx.outputs);
        LocateIs(tx.outputs, StartOf(tx, env.prevouts, i));
        match place
        case None =>
          UnitBound(tx, env.prevouts, i, 0);
          FeesStep(env.txs, env.prevouts, k);
          leaked.Add(i, tx, 0, env.prevouts, Creation);
        case Some((vout, offset)) =>
          ghost var p1 := p.(partials := partials');
          offsets', index' := PlaceInscription(env, k, leaked, offsets, stored, vout, offset, contentType, body, index, p1);
    }

    method PlaceInscription(env: Env, k: nat, leaked: LeakedInscriptions, offsets: Offsets, partials: Partials, vout: nat, offset: nat,
                            contentType: Bytes, body: Bytes, index: nat, ghost p: Progress)
      returns (offsets': Offsets, index': nat)
      requires k < |env.txs| && vout < |env.txs[k].outputs|
      requires Holds(p, leaked) && offsets == p.offsets && index == p.index
      modifies tokenCache`tokenActions, tokenCache`allTransfers
      ensures var q := Created(env, k, p, partials, vout, offset, contentType, body);
              Holds(q, leaked) && offsets' == q.offsets && index' == q.index && p.partials == q.partials
    {
      hide ActionFor, Recorded, Template;
      var tx := env.txs[k];
      index' := if partials.genesisTxid == tx.txid then index + 1 else index;
      var location := Location(OutPoint(tx.txid, vout), offset);
      var owner := if tx.outputs[vout].opReturn then OP_RETURN_HASH else tx.outputs[vout].scriptHash;
      var template := Template(env, k, partials, index, location, owner, contentType, body);
      var offsetOccupied := offset in Get(offsets, location.outpoint, {});
      offsets' := Insert(offsets, location.outpoint, offset);
      if env.bells {
        offsetOccupied := false;
      }
      if offsetOccupied && !env.jubilee {
        return;
      }
      assert p.actions + [] == p.actions;
      tokenCache.ParseTokenAction(template, env.height, env.created);
    }

    method ParseTx(env: Env, k: nat, leaked: LeakedInscriptions, offsets: Offsets, partials: map<OutPoint, Partials>, ghost p: Progress)
      returns (offsets': Offsets, partials': map<OutPoint, Partials>)
      requires EnvOk(env) && 1 <= k < |env.txs| && InBounds(env, offsets)
      requires Holds(p, leaked) && offsets == p.offsets && partials == p.partials
      requires leaked.totalAmount == FeesBefore(env.txs, env.prevouts, k)
      modifies leaked`inscriptions, leaked`totalAmount, tokenCache`tokenActions, tokenCache`allTransfers
      ensures var q := Inputs(env, k, |env.txs[k].inputs|, p);
              Holds(q, leaked) && offsets' == q.offsets && partials' == q.partials
      ensures leaked.totalAmount == FeesBefore(env.txs, env.prevouts, k + 1)
    {
      var tx := env.txs[k];
      var _ := leaked.AddTxFee(tx, env.prevouts);
      var cum := CalcOffsets(tx, env.prevouts);
      offsets', partials' := offsets, partials;
      var index := 0;
      for i := 0 to |tx.inputs|
        invariant var q := Inputs(env, k, i, p);
                  Holds(q, leaked) && offsets' == q.offsets && partials' == q.partials && index == q.index
        invariant leaked.totalAmount == FeesBefore(env.txs, env.prevouts, k + 1)
      {
        ghost var q := Inputs(env, k, i, p);
        InputsInBounds(env, k, i, p);
        offsets' := MoveInscriptions(env, k, i, cum.value, leaked, offsets', q);
        MoveKeeps(env, k, i, q);
        offsets', partials', index := CreateInscription(env, k, i, cum.value, leaked, offsets', partials', index, MoveInput(env, k, i, q));
      }
    }

    method ParseTxs(env: Env, leaked: LeakedInscriptions, offsets0: Offsets, partials0: map<OutPoint, Partials>, ghost p0: Progress)
      returns (offsets: Offsets, partials: map<OutPoint, Partials>)
      requires EnvOk(env) && InBounds(env, offsets0)
      requires Holds(p0, leaked) && offsets0 == p0.offsets && partials0 == p0.partials && leaked.totalAmount == 0
      modifies leaked`inscriptions, leaked`totalAmount, tokenCache`tokenActions, tokenCache`allTransfers
      ensures var q := Parsed(env, p0); Holds(q, leaked) && offsets == q.offsets && partials == q.partials
      ensures leaked.totalAmount == FeesBefore(env.txs, env.prevouts, |env.txs|)
    {
      hide Inputs, InBounds, FeesBefore, OrderOk, PrevoutsMatch;
      FeesStart(env.txs, env.prevouts);
      offsets, partials := offsets0, partials0;
      for k := 1 to |env.txs|
        invariant var q := Txs(env, k, p0);
                  Holds(q, leaked) && offsets == q.offsets && partials == q.partials
        invariant leaked.totalAmount == FeesBefore(env.txs, env.prevouts, k)
      {
        TxsInBounds(env, k, p0);
        offsets, partials := ParseTx(env, k, leaked, offsets, partials, Txs(env, k, p0));
      }
    }

    /** The whole block: final positions are the specification's plus the leaked ones in the coinbase. */
    method ParseBlock(env: Env, offsets0: Offsets, partials0: map<OutPoint, Partials>)
      returns (offsets: Offsets, partials: map<OutPoint, Partials>)
      requires EnvOk(env) && InBounds(env, offsets0)
      modifies tokenCache`tokenActions, tokenCache`allTransfers
      ensures var p := Parsed(env, Progress(offsets0, partials0, map[], 0, old(tokenCache.tokenActions), old(tokenCache.allTransfers)));
              && tokenCache.tokenActions == p.actions && tokenCache.allTransfers == p.all
              && partials == p.partials
              && (forall l :: At(offsets, l) <==> At(p.offsets, l) || LeakedAt(env, p.leaked, l))
              && (forall o :: o in offsets ==> o in p.offsets || exists x :: At(offsets, Location(o, x)))
    {
      hide Txs, InBounds, FeesBefore, CoinbaseLocation, OrderOk, PrevoutsMatch;
      ghost var p0 := Progress(offsets0, partials0, map[], 0, tokenCache.tokenActions, tokenCache.allTransfers);
      var leaked := new LeakedInscriptions(env.txs[0]);
      offsets, partials := ParseTxs(env, leaked, offsets0, partials0, p0);
      var locations := leaked.GetLeakedInscriptions();
      offsets := InsertLocations(offsets, locations);
      assert Reward(env.txs, env.prevouts) == OutTotal(env.txs[0].outputs) - leaked.totalAmount;
      assert leaked.inscriptions == Parsed(env, p0).leaked;
      forall l ensures l in locations <==> LeakedAt(env, Parsed(env, p0).leaked, l) {
      }
    }

    method InsertLocations(offsets: Offsets, locations: set<Location>) returns (offsets': Offsets)
      ensures forall l :: At(offsets', l) <==> At(offsets, l) || l in locations
      ensures forall o :: o in offsets' ==> o in offsets || exists x :: At(offsets', Location(o, x))
    {
      offsets' := offsets;
      var rest := locations;
      while rest != {}
        invariant rest <= locations
        invariant forall l :: At(offsets', l) <==> At(offsets, l) || (l in locations && l !in rest)
        invariant forall o :: o in offsets' ==> o in offsets || exists l :: l in locations && l !in rest && l.outpoint == o
        decreases rest
      {
        var l :| l in rest;
        ghost var before := offsets';
        offsets' := Insert(offsets', l.outpoint, l.offset);
        rest := rest - {l};
        forall m ensures At(offsets', m) <==> At(before, m) || m == l {
        }
      }
      forall o | o in offsets' && o !in offsets ensures exists x :: At(offsets', Location(o, x)) {
        var l :| l in locations && l.outpoint == o;
        assert At(offsets', Location(o, l.offset));
      }
    }
  }

  lemma {:induction false} MovesKeep(env: Env, k: nat, i: nat, xs: seq<nat>, n: nat, p: Progress)
    requires Balanced(env.txs, env.prevouts) && 1 <= k < |env.txs| && i < |env.txs[k].inputs| && n <= |xs|
    ensures var q := Moves(env, k, i, xs, n, p); q.partials == p.partials && q.index == p.index && q.all == p.all
  {
    if n > 0 {
      MovesKeep(env, k, i, xs, n - 1, p);
    }
  }

  /** Moves leave unfinished inscriptions, the index counter and the transfer records alone. */
  lemma MoveKeeps(env: Env, k: nat, i: nat, p: Progress)
    requires Balanced(env.txs, env.prevouts) && 1 <= k < |env.txs| && i < |env.txs[k].inputs|
    ensures var q := MoveInput(env, k, i, p); q.partials == p.partials && q.index == p.index && q.all == p.all
  {
    var o := env.txs[k].inputs[i].outpoint;
    if o in p.offsets {
      var xs := env.order(o, p.offsets[o]);
      MovesKeep(env, k, i, xs, |xs|, p.(offsets := p.offsets - {o}));
    }
  }
}
