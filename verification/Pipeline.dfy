/** Whole runs: one block takes good tables to good tables, so every block of every run does. */
module Pipeline {
  import opened Base
  import Sums
  import opened Ledger
  import opened LedgerInvariants
  import opened HolderIndex
  import opened LedgerSafety
  import opened StaleHolders
  import opened LogReplay
  import opened CacheRefinement
  import opened Searcher
  import opened Routing
  import opened BlockParser
  import opened Positions
  import opened NoCollision
  import opened Lifecycle
  import opened OwnRecords

  /** The tables between blocks, with what the proofs remember of the chain they stand for: the outputs it
      left unspent, every output it made, its transaction ids, and the whole history log. After a rollback
      `prevouts` may hold more than `unspent`, and `holders` need not agree with the balances. */
  datatype World = World(
    ledger: Tables,
    holders: Index,
    offsets: Offsets,
    prevouts: map<OutPoint, TxPrevout>,
    unspent: map<OutPoint, TxPrevout>,
    made: map<OutPoint, TxOut>,
    txids: set<nat>,
    log: seq<HistoryAction>)

  function AsPrevout(out: TxOut): TxPrevout
  {
    TxPrevout(out.scriptHash, out.value)
  }

  /** Each outstanding transfer sits at a recorded inscription and belongs to the script hash of the output
      it sits on. */
  ghost predicate TransfersPlaced(w: World)
  {
    forall x :: x in w.ledger.transfers ==>
      At(w.offsets, x.location) && x.location.outpoint in w.made && w.made[x.location.outpoint].scriptHash == x.address
  }

  /** Every inscription offset is strictly below the value of its output. */
  ghost predicate OffsetsBounded(w: World)
  {
    forall l :: At(w.offsets, l) ==> l.outpoint in w.made && l.offset < w.made[l.outpoint].value
  }

  /** The table holds every unspent output of the chain, and of the chain's outputs only true values. */
  ghost predicate OutputsTrue(w: World)
  {
    && (forall o :: o in w.unspent ==> o in w.made && w.unspent[o] == AsPrevout(w.made[o]) && o in w.prevouts)
    && (forall o :: o in w.prevouts && o in w.made ==> w.prevouts[o] == AsPrevout(w.made[o]))
    && (forall o :: o in w.made ==> o.txid in w.txids)
  }

  /** The ledger's own promises: accounting exact, supply explained, the log complete. */
  ghost predicate LedgerOk(w: World)
  {
    && OneOwner(w.ledger.transfers)
    && Inv(Whole(w.ledger, map[]))
    && (forall t :: Gap(Whole(w.ledger, map[]), t) == Burned(w.log, t))
    && Replay(View(map[], map[]), w.log) == ViewOf(Whole(w.ledger, map[]))
  }

  ghost predicate WorldOk(w: World)
  {
    LedgerOk(w) && TransfersPlaced(w) && OffsetsBounded(w) && OutputsTrue(w)
  }

  /** The holder index agrees with the balances, as it does until a rollback. */
  ghost predicate HoldersOk(w: World)
  {
    Agree(w.holders, w.ledger.balances)
  }

  /** New transactions, and outputs a rollback left in the table made again as they were. */
  ghost predicate NewTxs(w: World, env: Env)
  {
    && (forall k :: 0 <= k < |env.txs| ==> env.txs[k].txid !in w.txids)
    && (forall o, out :: o in w.prevouts && InBlock(env, o, out) ==> w.prevouts[o] == AsPrevout(out))
  }

  /** A block the chain can extend `w` with, and the outputs the indexer looked up for it: outputs of the
      block, or unspent ones of the chain. */
  ghost predicate BlockOk(w: World, env: Env)
  {
    && Ok(env) && NewTxs(w, env)
    && (forall o :: o in env.prevouts ==> exists k: nat, i: nat :: 1 <= k < |env.txs| && Spends(env.txs[k], i, o))
    && (forall o :: o in env.prevouts && Outside(env.txs, o) ==> o in w.unspent && env.prevouts[o] == w.unspent[o])
  }

  /** The one guard the block must pass beyond consensus: no two transfers it pushes on one location differ
      in amount or tick. */
  ghost predicate RecordsApart(w: World, env: Env, partials: map<OutPoint, Partials>)
    requires Balanced(env.txs, env.prevouts)
  {
    SameTransfers(Parsed(env, LoadedWith(w, env, partials)).actions)
  }

  ghost predicate InBlock(env: Env, o: OutPoint, out: TxOut)
  {
    exists k: nat :: k < |env.txs| && o.txid == env.txs[k].txid && o.vout < |env.txs[k].outputs| && env.txs[k].outputs[o.vout] == out
  }

  /** What the parser starts from: the loaded rows of the spent outputs. */
  ghost function Loaded(w: World, env: Env): Progress
  {
    Progress(map o | o in w.offsets && o in env.prevouts :: w.offsets[o], map[], map[], 0, [],
             Protos(LoadTransfers(w.ledger.transfers, env.prevouts)))
  }

  // The unfinished inscriptions loaded with the block are arbitrary.
  ghost function LoadedWith(w: World, env: Env, partials: map<OutPoint, Partials>): Progress
  {
    Loaded(w, env).(partials := partials)
  }

  /** Drained cache written back, holders and log as the drain left them. */
  ghost predicate LedgerEffect(w: World, env: Env, p: Progress, w': World)
  {
    var o := Run(LoadedCache(w.ledger, env.prevouts, p.all, p.actions), w.holders, p.actions);
    && o.Done?
    && w'.ledger == WriteBack(w.ledger, LoadTransfers(w.ledger.transfers, env.prevouts), o.state)
    && w'.holders == o.index
    && w'.log == w.log + o.log
  }

  /** Loaded positions replaced by what the parser leaves, leaked ones in the coinbase. */
  ghost predicate PositionEffect(w: World, env: Env, p: Progress, w': World)
    requires Balanced(env.txs, env.prevouts)
  {
    forall l :: At(w'.offsets, l) <==> (At(w.offsets, l) && l.outpoint !in env.prevouts) || Occupied(env, p, l)
  }

  /** A table of unspent outputs after the block: spendable outputs added, spent ones removed. */
  ghost predicate SpendEffect(before: map<OutPoint, TxPrevout>, env: Env, after: map<OutPoint, TxPrevout>)
  {
    && (forall q :: q in after <==> q !in env.prevouts && (q in before || exists out :: InBlock(env, q, out) && !out.unspendable))
    && (forall q :: q in after && q in before ==> after[q] == before[q])
    && (forall q, out :: InBlock(env, q, out) && q in after ==> after[q] == AsPrevout(out))
  }

  ghost predicate OutputEffect(w: World, env: Env, w': World)
  {
    && w'.txids == w.txids + (set k | 0 <= k < |env.txs| :: env.txs[k].txid)
    && (forall q :: q in w'.made <==> q in w.made || exists out :: InBlock(env, q, out))
    && (forall q :: q in w.made ==> w'.made[q] == w.made[q])
    && (forall q, out :: InBlock(env, q, out) ==> q in w'.made && w'.made[q] == out)
    && SpendEffect(w.prevouts, env, w'.prevouts) && SpendEffect(w.unspent, env, w'.unspent)
  }

  /** The tables after the block: what `parse_block`, the drained cache and the table writes leave. */
  ghost predicate BlockEffect(w: World, env: Env, partials: map<OutPoint, Partials>, w': World)
    requires Balanced(env.txs, env.prevouts)
  {
    var p := Parsed(env, LoadedWith(w, env, partials));
    LedgerEffect(w, env, p, w') && PositionEffect(w, env, p, w') && OutputEffect(w, env, w')
  }

  // ---- the block starts well ----

  lemma MadeOutside(w: World, env: Env, o: OutPoint)
    requires OutputsTrue(w) && NewTxs(w, env) && o in w.made
    ensures Outside(env.txs, o)
  {
  }

  lemma LoadedIff(w: World, env: Env, l: Location)
    requires WorldOk(w) && BlockOk(w, env)
    ensures l in LoadTransfers(w.ledger.transfers, env.prevouts) <==>
            l in ByLocation(w.ledger.transfers) && l.outpoint in env.prevouts
    ensures l in LoadTransfers(w.ledger.transfers, env.prevouts) ==>
            LoadTransfers(w.ledger.transfers, env.prevouts)[l] == ByLocation(w.ledger.transfers)[l]
    ensures l in ByLocation(w.ledger.transfers) ==> At(w.offsets, l) && Outside(env.txs, l.outpoint)
  {
    hide Ok, Inv;
    if l in ByLocation(w.ledger.transfers) {
      var x :| x in w.ledger.transfers && x.location == l;
      MadeOutside(w, env, l.outpoint);
    }
  }

  lemma LoadedAt(w: World, env: Env, partials: map<OutPoint, Partials>, l: Location)
    ensures At(LoadedWith(w, env, partials).offsets, l) <==> At(w.offsets, l) && l.outpoint in env.prevouts
  {
  }

  lemma StartsWell(w: World, env: Env, partials: map<OutPoint, Partials>)
    requires OffsetsBounded(w) && OutputsTrue(w) && BlockOk(w, env)
    ensures Start(env, LoadedWith(w, env, partials))
  {
    hide Ok, Outside;
    var p := LoadedWith(w, env, partials);
    forall l | At(p.offsets, l) ensures Outside(env.txs, l.outpoint) && l.offset < env.prevouts[l.outpoint].value {
      LoadedAt(w, env, partials, l);
      MadeOutside(w, env, l.outpoint);
      assert env.prevouts[l.outpoint] == w.unspent[l.outpoint];
    }
    forall o, x | o in p.offsets && o in env.prevouts && x in p.offsets[o] ensures x < env.prevouts[o].value {
      assert At(p.offsets, Location(o, x));
    }
  }

  lemma StartsAlive(w: World, env: Env, partials: map<OutPoint, Partials>)
    requires WorldOk(w) && BlockOk(w, env)
    ensures Alive(env, LoadTransfers(w.ledger.transfers, env.prevouts), 1, 0, LoadedWith(w, env, partials))
  {
    hide LedgerOk, OffsetsBounded, OutputsTrue, TransfersPlaced, DistinctStarts, LoadTransfers, Outside, BlockOk, At;
    assert Balanced(env.txs, env.prevouts) by { BlockBalanced(w, env); }
    var p := LoadedWith(w, env, partials);
    var loaded := LoadTransfers(w.ledger.transfers, env.prevouts);
    forall l | l in loaded ensures Outside(env.txs, l.outpoint) && l in p.all && p.all[l] == loaded[l].proto && At(p.offsets, l) {
      LoadedIff(w, env, l);
      LoadedAt(w, env, partials, l);
    }
  }

  lemma BlockBalanced(w: World, env: Env)
    requires BlockOk(w, env)
    ensures Ok(env) && Balanced(env.txs, env.prevouts)
  {
  }

  /** What the parser pushes is a batch the cache covers and the ledger runs safely. */
  lemma BlockBatch(w: World, env: Env, partials: map<OutPoint, Partials>)
    requires WorldOk(w) && BlockOk(w, env) && Balanced(env.txs, env.prevouts) && RecordsApart(w, env, partials)
    ensures var p := Parsed(env, LoadedWith(w, env, partials));
            && BatchFits(w.ledger, env.prevouts, p.all, p.actions)
            && BatchOk(Whole(w.ledger, p.all), p.actions)
  {
    hide Parsed, LoadedWith, LoadTransfers, BlockOk, WorldOk, ActionOk, Balanced;
    OwnersUnique(w);
    var p := Parsed(env, LoadedWith(w, env, partials));
    ParsedRecords(w, env, partials);
    ParsedOwn(w, env, partials);
    forall i | 0 <= i < |p.actions|
      ensures ActionOk(p.actions[i]) && RecordOk(Whole(w.ledger, p.all), p.actions[i])
      ensures p.actions[i].Transfer? ==> p.actions[i].location !in ByLocation(w.ledger.transfers)
      ensures p.actions[i].Transferred? ==>
                p.actions[i].location in LoadTransfers(w.ledger.transfers, env.prevouts) || p.actions[i].location !in ByLocation(w.ledger.transfers)
      ensures p.actions[i].Transfer? && p.actions[i].location in p.all ==> p.all[p.actions[i].location].tick.lower == p.actions[i].tick.lower
    {
      ActionPlaced(w, env, partials, i);
      assert FindsOwn(p.all, p.actions[i]);
    }
  }

  lemma ParsedOwn(w: World, env: Env, partials: map<OutPoint, Partials>)
    requires Balanced(env.txs, env.prevouts) && RecordsApart(w, env, partials)
    ensures var p := Parsed(env, LoadedWith(w, env, partials));
            forall i :: 0 <= i < |p.actions| ==> FindsOwn(p.all, p.actions[i])
  {
    hide Parsed, Balanced, FindsOwn, SameTransfers;
    OwnRecordsExactly(env, LoadedWith(w, env, partials));
  }

  lemma OwnersUnique(w: World)
    requires WorldOk(w)
    ensures OneOwner(w.ledger.transfers)
  {
  }

  lemma ParsedRecords(w: World, env: Env, partials: map<OutPoint, Partials>)
    requires WorldOk(w) && BlockOk(w, env)
    ensures var p := Parsed(env, LoadedWith(w, env, partials));
            var loaded := LoadTransfers(w.ledger.transfers, env.prevouts);
            forall l :: l in loaded ==> l in p.all && p.all[l] == loaded[l].proto
  {
    hide Parsed, LoadedWith, LoadTransfers, WorldOk, BlockOk, Balanced, ActsFit, Tracked;
    BlockBalanced(w, env);
    ParsedAlive(w, env, partials);
  }

  lemma ParsedAlive(w: World, env: Env, partials: map<OutPoint, Partials>)
    requires WorldOk(w) && BlockOk(w, env)
    ensures Alive(env, LoadTransfers(w.ledger.transfers, env.prevouts), |env.txs|, 0, Parsed(env, LoadedWith(w, env, partials)))
  {
    hide Txs, LoadedWith, LoadTransfers, Alive, WorldOk;
    BlockBalanced(w, env);
    StartsAlive(w, env, partials);
    TxsAlive(env, LoadTransfers(w.ledger.transfers, env.prevouts), |env.txs|, LoadedWith(w, env, partials));
  }

  /** A pushed move names a loaded transfer or a location of this block; a pushed transfer sits at a
      location of this block, with a record. */
  lemma ActionPlaced(w: World, env: Env, partials: map<OutPoint, Partials>, i: nat)
    requires WorldOk(w) && BlockOk(w, env)
    requires i < |Parsed(env, LoadedWith(w, env, partials)).actions|
    ensures var p := Parsed(env, LoadedWith(w, env, partials));
            var a := p.actions[i];
            && ActionOk(a)
            && (a.Transferred? ==> a.location in LoadTransfers(w.ledger.transfers, env.prevouts) || a.location !in ByLocation(w.ledger.transfers))
            && (a.Transfer? ==>
                  && a.location !in ByLocation(w.ledger.transfers)
                  && a.location in p.all
                  && exists k: nat, j: nat :: MadeAt(env, k, j, a.location, a.owner))
  {
    hide Parsed, LoadedWith, LoadTransfers, ByLocation, BlockOk, WorldOk, DistinctStarts, ActionOk, Live, LedgerOk, At;
    BlockBalanced(w, env);
    ParsedAlive(w, env, partials);
    var p := Parsed(env, LoadedWith(w, env, partials));
    var a := p.actions[i];
    assert ActFits(env, |env.txs|, 0, p.all, a);
    if a.Transfer? || a.Transferred? {
      LoadedIff(w, env, a.location);
    }
    if a.Transfer? {
      var k: nat, j: nat :| MadeAt(env, k, j, a.location, a.owner);
      assert !Outside(env.txs, a.location.outpoint);
    }
  }

  // ---- the ledger after the block ----

  /** The parser's records are no part of the ledger's promises. */
  lemma RecordsIrrelevant(g: Tables, all: map<Location, TransferProto>, all': map<Location, TransferProto>)
    requires OneOwner(g.transfers) && Inv(Whole(g, all))
    ensures Inv(Whole(g, all')) && Folded(Whole(g, all')) && AccountsOk(Whole(g, all'))
    ensures forall t :: Gap(Whole(g, all'), t) == Gap(Whole(g, all), t)
    ensures ViewOf(Whole(g, all')) == ViewOf(Whole(g, all))
  {
    var s, s' := Whole(g, all), Whole(g, all');
    forall t ensures Known(s', t) <==> Known(s, t) {}
    forall t ensures Gap(s', t) == Gap(s, t) {}
    forall key ensures AccountedAt(s', key) { assert AccountedAt(s, key); }
    forall key | key in s'.accounts ensures Known(s', key.token) { assert Known(s, key.token); }
  }

  /** Draining the block's batch in the cache panics only where the holder count would go below zero, never
      while the holder index agrees; written back, it is the whole ledger's run. */
  lemma BlockRuns(w: World, env: Env, partials: map<OutPoint, Partials>)
    requires WorldOk(w) && BlockOk(w, env) && Balanced(env.txs, env.prevouts) && RecordsApart(w, env, partials)
    ensures OneOwner(w.ledger.transfers)
    ensures var p := Parsed(env, LoadedWith(w, env, partials));
            var o := Run(LoadedCache(w.ledger, env.prevouts, p.all, p.actions), w.holders, p.actions);
            && (o.Panic? <==> Sticks(Whole(w.ledger, p.all), w.holders, p.actions))
            && (HoldersOk(w) ==> o.Done? && Agree(o.index, WriteBack(w.ledger, LoadTransfers(w.ledger.transfers, env.prevouts), o.state).balances))
            && (o.Done? ==>
                  var g' := WriteBack(w.ledger, LoadTransfers(w.ledger.transfers, env.prevouts), o.state);
                  && OneOwner(g'.transfers)
                  && Run(Whole(w.ledger, p.all), w.holders, p.actions) == Done(Whole(g', o.state.all), o.index, o.log)
                  && Sound(Whole(w.ledger, p.all), Run(Whole(w.ledger, p.all), w.holders, p.actions)))
  {
    hide Parsed, LoadedWith, LoadTransfers, BlockOk, Inv, Safe, Run, BatchFits, BatchOk, LoadedCache, WriteBack, Agree, RecordsApart, Sticks, Sound, Gap, Folded, AccountsOk;
    OwnersUnique(w);
    BlockBatch(w, env, partials);
    var p := Parsed(env, LoadedWith(w, env, partials));
    var s := Whole(w.ledger, p.all);
    RecordsIrrelevant(w.ledger, map[], p.all);
    BlockRefines(w.ledger, env.prevouts, p.all, p.actions, w.holders);
    RunPanicsExactly(s, w.holders, p.actions);
    if Run(s, w.holders, p.actions).Done? {
      RunSound(s, w.holders, p.actions);
    }
    if HoldersOk(w) {
      RunSafe(s, w.holders, p.actions);
      SafeDone(s, Run(s, w.holders, p.actions));
    }
  }

  lemma SafeDone(s: State, o: Outcome)
    requires Safe(s, o)
    ensures o.Done? && Agree(o.index, o.state.accounts)
  {
  }

  lemma SoundDone(s: State, o: Outcome)
    requires Sound(s, o)
    ensures o.Done? && Inv(o.state) && forall t :: Gap(o.state, t) == Gap(s, t) + Burned(o.log, t)
  {
  }

  lemma RunKeepsLedger(w: World, w': World, actions: seq<TokenAction>, all: map<Location, TransferProto>, all': map<Location, TransferProto>, log: seq<HistoryAction>)
    requires LedgerOk(w) && OneOwner(w'.ledger.transfers)
    requires forall i :: 0 <= i < |actions| ==> ActionOk(actions[i])
    requires Run(Whole(w.ledger, all), w.holders, actions) == Done(Whole(w'.ledger, all'), w'.holders, log)
    requires Sound(Whole(w.ledger, all), Run(Whole(w.ledger, all), w.holders, actions))
    requires w'.log == w.log + log
    ensures LedgerOk(w')
  {
    hide Inv, Sound, Run, Whole, Gap, ViewOf, ActionOk, Folded, AccountsOk;
    var s := Whole(w.ledger, all);
    RecordsIrrelevant(w.ledger, map[], all);
    SoundDone(s, Run(s, w.holders, actions));
    RecordsIrrelevant(w'.ledger, all', map[]);
    RunReplays(s, w.holders, actions);
    ReplayAppend(View(map[], map[]), w.log, log);
    forall t { BurnedAppend(w.log, log, t); }
  }

  lemma LedgerKeeps(w: World, env: Env, partials: map<OutPoint, Partials>, w': World)
    requires WorldOk(w) && BlockOk(w, env) && Balanced(env.txs, env.prevouts) && RecordsApart(w, env, partials)
    requires LedgerEffect(w, env, Parsed(env, LoadedWith(w, env, partials)), w')
    ensures LedgerOk(w') && (HoldersOk(w) ==> HoldersOk(w'))
  {
    hide Parsed, LoadedWith, LoadTransfers, BlockOk, LedgerOk, Sound, Sticks, Run, LoadedCache, WriteBack, Whole, ActionOk, Balanced, Agree, RecordsApart, TransfersPlaced, OffsetsBounded, OutputsTrue;
    BlockRuns(w, env, partials);
    var p := Parsed(env, LoadedWith(w, env, partials));
    forall i | 0 <= i < |p.actions| ensures ActionOk(p.actions[i]) {
      ActionPlaced(w, env, partials, i);
    }
    var o := Run(LoadedCache(w.ledger, env.prevouts, p.all, p.actions), w.holders, p.actions);
    RunKeepsLedger(w, w', p.actions, p.all, o.state.all, o.log);
  }

  // ---- transfers after the block ----

  lemma TransferRow(g: Tables, all: map<Location, TransferProto>, x: AddressLocation)
    requires OneOwner(g.transfers) && x in g.transfers
    ensures x.location in Whole(g, all).valid && Whole(g, all).valid[x.location].owner == x.address
  {
    assert ByLocation(g.transfers)[x.location] == ValidTransfer(x.address, g.transfers[x]);
  }

  /** Each row left after the block is an untouched old one, or sits at a position the parser left. */
  lemma RowSurvives(w: World, env: Env, partials: map<OutPoint, Partials>, w': World, x: AddressLocation)
    requires WorldOk(w) && BlockOk(w, env) && Balanced(env.txs, env.prevouts) && RecordsApart(w, env, partials)
    requires LedgerEffect(w, env, Parsed(env, LoadedWith(w, env, partials)), w') && x in w'.ledger.transfers
    ensures OneOwner(w.ledger.transfers)
    ensures var p := Parsed(env, LoadedWith(w, env, partials));
            && (At(p.offsets, x.location) || (x.location in ByLocation(w.ledger.transfers) && x.location.outpoint !in env.prevouts))
            && OwnerFrom(ByLocation(w.ledger.transfers), p.actions, x.location, x.address)
  {
    hide Parsed, LoadedWith, LoadTransfers, BlockOk, LedgerOk, Sound, Sticks, Run, LoadedCache, WriteBack, ActionOk, Balanced, Agree, RecordsApart, TransfersPlaced, OffsetsBounded, OutputsTrue, ActsFit, RecordsFit, OwnerFrom, Live;
    BlockRuns(w, env, partials);
    ParsedAlive(w, env, partials);
    var p := Parsed(env, LoadedWith(w, env, partials));
    var c := Run(LoadedCache(w.ledger, env.prevouts, p.all, p.actions), w.holders, p.actions).state;
    var s := Whole(w.ledger, p.all);
    TransferRow(w'.ledger, c.all, x);
    RunLive(s, w.holders, p.actions);
    RunOwners(s, w.holders, p.actions, x.location);
    var loaded := LoadTransfers(w.ledger.transfers, env.prevouts);
    var left := s.valid.Keys - loaded.Keys;
    LoadedSubset(w, env);
    assert s.valid.Keys == loaded.Keys + left;
    LiveSplit(loaded.Keys, left, p.actions);
    if x.location in left {
      LoadedIff(w, env, x.location);
    }
  }

  lemma LoadedSubset(w: World, env: Env)
    requires WorldOk(w) && BlockOk(w, env)
    ensures OneOwner(w.ledger.transfers) && LoadTransfers(w.ledger.transfers, env.prevouts).Keys <= ByLocation(w.ledger.transfers).Keys
  {
    hide WorldOk, BlockOk, LoadTransfers, ByLocation;
    OwnersUnique(w);
    forall l | l in LoadTransfers(w.ledger.transfers, env.prevouts) ensures l in ByLocation(w.ledger.transfers) {
      LoadedIff(w, env, l);
    }
  }

  /** A transfer made in the block belongs to the script of the output it sits on. */
  lemma MadeOwner(w: World, env: Env, w': World, k: nat, i: nat, l: Location, owner: FullHash)
    requires Balanced(env.txs, env.prevouts) && OutputEffect(w, env, w') && MadeAt(env, k, i, l, owner)
    ensures l.outpoint in w'.made && w'.made[l.outpoint].scriptHash == owner
  {
    assert InBlock(env, l.outpoint, env.txs[k].outputs[l.outpoint.vout]);
  }

  lemma OldOwner(w: World, env: Env, w': World, x: AddressLocation)
    requires TransfersPlaced(w) && OutputEffect(w, env, w') && x in w.ledger.transfers
    ensures x.location.outpoint in w'.made && w'.made[x.location.outpoint].scriptHash == x.address
  {
  }

  lemma TransfersKeep(w: World, env: Env, partials: map<OutPoint, Partials>, w': World)
    requires WorldOk(w) && BlockOk(w, env) && Balanced(env.txs, env.prevouts) && RecordsApart(w, env, partials)
    requires BlockEffect(w, env, partials, w')
    ensures TransfersPlaced(w')
  {
    hide Parsed, LoadedWith, BlockOk, LedgerOk, OffsetsBounded, OutputsTrue, TransfersPlaced, LedgerEffect, OutputEffect, RecordsApart, MadeAt, Balanced, At, LeakedAt;
    var p := Parsed(env, LoadedWith(w, env, partials));
    forall x | x in w'.ledger.transfers
      ensures At(w'.offsets, x.location) && x.location.outpoint in w'.made && w'.made[x.location.outpoint].scriptHash == x.address
    {
      RowSurvives(w, env, partials, w', x);
      LoadedIff(w, env, x.location);
      var whole := ByLocation(w.ledger.transfers);
      if x.location in whole && whole[x.location].owner == x.address {
        RowOf(w.ledger.transfers, x);
        OldOwner(w, env, w', x);
      } else {
        var i :| 0 <= i < |p.actions| && p.actions[i].Transfer? && p.actions[i].location == x.location && p.actions[i].owner == x.address;
        ActionPlaced(w, env, partials, i);
        var k: nat, j: nat :| MadeAt(env, k, j, x.location, x.address);
        MadeOwner(w, env, w', k, j, x.location, x.address);
      }
    }
    PlacedAll(w');
  }

  lemma PlacedAll(w: World)
    requires forall x :: x in w.ledger.transfers ==>
      At(w.offsets, x.location) && x.location.outpoint in w.made && w.made[x.location.outpoint].scriptHash == x.address
    ensures TransfersPlaced(w)
  {
  }

  /** So while its output is unspent, a transfer belongs to the script hash the table has for it. */
  lemma TransferOwner(w: World, x: AddressLocation)
    requires WorldOk(w) && x in w.ledger.transfers && x.location.outpoint in w.prevouts
    ensures At(w.offsets, x.location) && w.prevouts[x.location.outpoint].scriptHash == x.address
  {
  }

  lemma RowOf(transfers: map<AddressLocation, TransferProto>, x: AddressLocation)
    requires OneOwner(transfers) && x.location in ByLocation(transfers) && ByLocation(transfers)[x.location].owner == x.address
    ensures x in transfers
  {
  }

  // ---- positions and outputs after the block ----

  /** Whatever unit it places, a place is strictly inside one of the block's outputs. */
  lemma PlaceInBlock(env: Env, k: nat, u: nat, l: Location)
    requires Balanced(env.txs, env.prevouts) && 1 <= k < |env.txs| && Place(env.txs, env.prevouts, k, u) == Some(l)
    ensures exists out :: InBlock(env, l.outpoint, out) && l.offset < out.value
  {
    LocateIs(env.txs[k].outputs, u);
    if u < OutTotal(env.txs[k].outputs) {
      assert FallsInto(env.txs[k].outputs, u, l.outpoint.vout, l.offset);
      assert InBlock(env, l.outpoint, env.txs[k].outputs[l.outpoint.vout]);
    } else {
      var pos := Reward(env.txs, env.prevouts) + FeeKey(env.txs, env.prevouts, k, u);
      LocateIs(env.txs[0].outputs, pos);
      assert FallsInto(env.txs[0].outputs, pos, l.outpoint.vout, l.offset);
      assert InBlock(env, l.outpoint, env.txs[0].outputs[l.outpoint.vout]);
    }
  }

  ghost predicate SomePlace(env: Env, l: Location)
    requires Balanced(env.txs, env.prevouts)
  {
    exists k: nat, u: nat :: 1 <= k < |env.txs| && Place(env.txs, env.prevouts, k, u) == Some(l)
  }

  lemma {:induction false} InputsOrigin(env: Env, k: nat, n: nat, m: Location)
    requires Balanced(env.txs, env.prevouts) && 1 <= k < |env.txs| && n <= |env.txs[k].inputs|
    ensures var l := MovedByInputs(env, k, n, m); l.Some? ==> l.value == m || SomePlace(env, l.value)
    decreases n
  {
    hide Place, Balanced;
    if n > 0 {
      InputsOrigin(env, k, n - 1, m);
    }
  }

  lemma {:induction false} TraceOrigin(env: Env, a: nat, n: nat, m: Location)
    requires Balanced(env.txs, env.prevouts) && 1 <= a <= n <= |env.txs|
    ensures var l := Trace(env, a, n, m); l.Some? ==> l.value == m || SomePlace(env, l.value)
    decreases n - a
  {
    hide SomePlace, MovedByInputs, Balanced;
    if a < n {
      TraceOrigin(env, a, n - 1, m);
      if Trace(env, a, n - 1, m).Some? {
        InputsOrigin(env, n - 1, |env.txs[n - 1].inputs|, Trace(env, a, n - 1, m).value);
      }
    }
  }

  /** Every position the parser leaves was there before or is the place of a unit. */
  lemma OccupiedOrigin(env: Env, p: Progress, l: Location)
    requires Ok(env) && Occupied(env, Parsed(env, p), l)
    ensures Occupied(env, p, l) || SomePlace(env, l)
  {
    hide Place, Occupied, Txs, Trace, BeforeCreate;
    var n := |env.txs|;
    ExactImage(env, p, l);
    if Routed(env, n, p, l) {
      var m :| Occupied(env, p, m) && Trace(env, 1, n, m) == Some(l);
      TraceOrigin(env, 1, n, m);
    } else {
      var k: nat, i: nat, c :| 1 <= k < n && CreatedIn(env, k, i, p, c) && Trace(env, k + 1, n, c) == Some(l);
      TraceOrigin(env, k + 1, n, c);
      assert Place(env.txs, env.prevouts, k, Unit(env, k, i, 0)) == Some(c);
    }
  }

  lemma OffsetsKeep(w: World, env: Env, partials: map<OutPoint, Partials>, w': World)
    requires WorldOk(w) && BlockOk(w, env) && Balanced(env.txs, env.prevouts) && BlockEffect(w, env, partials, w')
    ensures OffsetsBounded(w')
  {
    hide LedgerOk, TransfersPlaced, OutputsTrue, BlockOk, LedgerEffect, SpendEffect, Parsed, Balanced, Occupied, InBlock;
    BlockBalanced(w, env);
    var p0 := LoadedWith(w, env, partials);
    forall l | At(w'.offsets, l) ensures l.outpoint in w'.made && l.offset < w'.made[l.outpoint].value {
      if !At(w.offsets, l) {
        OccupiedOrigin(env, p0, l);
        if SomePlace(env, l) {
          var k: nat, u: nat :| 1 <= k < |env.txs| && Place(env.txs, env.prevouts, k, u) == Some(l);
          PlaceInBlock(env, k, u, l);
        } else {
          StartOccupied(w, env, partials, l);
        }
      }
    }
  }

  lemma StartOccupied(w: World, env: Env, partials: map<OutPoint, Partials>, l: Location)
    requires Balanced(env.txs, env.prevouts) && Occupied(env, LoadedWith(w, env, partials), l)
    ensures At(w.offsets, l)
  {
  }

  /** One table of outputs after the block, against all outputs ever made. */
  lemma SpendKeeps(w: World, env: Env, w': World, before: map<OutPoint, TxPrevout>, after: map<OutPoint, TxPrevout>)
    requires OutputsTrue(w) && NewTxs(w, env) && OutputEffect(w, env, w') && SpendEffect(before, env, after)
    requires forall o :: o in before && o in w.made ==> before[o] == AsPrevout(w.made[o])
    ensures forall o :: o in after && o in w'.made ==> after[o] == AsPrevout(w'.made[o])
  {
    forall o | o in after && o in w'.made ensures after[o] == AsPrevout(w'.made[o]) {
      if o in w.made {
        MadeOutside(w, env, o);
      } else {
        var out :| InBlock(env, o, out);
      }
    }
  }

  lemma UnspentKeeps(w: World, env: Env, w': World, o: OutPoint)
    requires OutputsTrue(w) && OutputEffect(w, env, w') && o in w'.unspent
    ensures o in w'.made && o in w'.prevouts
  {
    hide AsPrevout, InBlock;
    if o !in w.unspent {
      var out :| InBlock(env, o, out) && !out.unspendable;
    }
  }

  lemma TxidKeeps(w: World, env: Env, w': World, o: OutPoint)
    requires OutputsTrue(w) && OutputEffect(w, env, w') && o in w'.made
    ensures o.txid in w'.txids
  {
    hide SpendEffect, AsPrevout;
    if o !in w.made {
      var out :| InBlock(env, o, out);
    }
  }

  lemma OutputsKeep(w: World, env: Env, w': World)
    requires OutputsTrue(w) && NewTxs(w, env) && OutputEffect(w, env, w')
    ensures OutputsTrue(w')
  {
    SpendKeeps(w, env, w', w.prevouts, w'.prevouts);
    SpendKeeps(w, env, w', w.unspent, w'.unspent);
    forall o | o in w'.unspent ensures o in w'.made && o in w'.prevouts {
      UnspentKeeps(w, env, w', o);
    }
    forall o | o in w'.made ensures o.txid in w'.txids {
      TxidKeeps(w, env, w', o);
    }
    hide OutputEffect, SpendEffect, AsPrevout, NewTxs;
  }

  // ---- whole runs ----

  /** Good tables stay good: one block from WorldOk leads to WorldOk, and an agreeing holder index agrees. */
  lemma BlockKeeps(w: World, env: Env, partials: map<OutPoint, Partials>, w': World)
    requires WorldOk(w) && BlockOk(w, env) && Balanced(env.txs, env.prevouts) && RecordsApart(w, env, partials)
    requires BlockEffect(w, env, partials, w')
    ensures WorldOk(w') && (HoldersOk(w) ==> HoldersOk(w'))
  {
    hide LedgerOk, TransfersPlaced, OutputsTrue, OffsetsBounded, Balanced, Ok, LedgerEffect, OutputEffect, PositionEffect, RecordsApart, HoldersOk, NewTxs;
    LedgerKeeps(w, env, partials, w');
    TransfersKeep(w, env, partials, w');
    OffsetsKeep(w, env, partials, w');
    OutputsKeep(w, env, w');
  }

  const GENESIS := World(Tables(map[], map[], map[]), Index(map[], map[]), map[], map[], map[], map[], {}, [])

  lemma GenesisGood()
    ensures Inv(Whole(GENESIS.ledger, map[])) && HoldersOk(GENESIS)
    ensures forall t :: Gap(Whole(GENESIS.ledger, map[]), t) == 0
  {
    var s := Whole(GENESIS.ledger, map[]);
    assert ByLocation(GENESIS.ledger.transfers) == map[];
    forall t ensures Gap(s, t) == 0 {
      Sums.SumZero(HeldMap(s.accounts, t));
    }
    forall key ensures AccountedAt(s, key) {
      Sums.SumZero(AmountMap(s.valid, key));
      Sums.SumZero(CountMap(s.valid, key));
    }
    forall t ensures AgreeAt(GENESIS.holders, s.accounts, t) {}
  }

  lemma GenesisLedger()
    ensures LedgerOk(GENESIS) && HoldersOk(GENESIS)
  {
    hide Inv, Gap, Agree;
    GenesisGood();
    assert ViewOf(Whole(GENESIS.ledger, map[])) == View(map[], map[]);
  }

  lemma GenesisOk()
    ensures WorldOk(GENESIS) && HoldersOk(GENESIS)
  {
    hide LedgerOk, HoldersOk;
    GenesisLedger();
  }

  /** A run: blocks applied one after the other from the empty database. */
  ghost predicate RunOf(ws: seq<World>, envs: seq<Env>, partials: seq<map<OutPoint, Partials>>)
  {
    && |ws| == |envs| + 1 && |partials| == |envs| && ws[0] == GENESIS
    && forall i :: 0 <= i < |envs| ==>
         && BlockOk(ws[i], envs[i]) && Balanced(envs[i].txs, envs[i].prevouts) && RecordsApart(ws[i], envs[i], partials[i])
         && BlockEffect(ws[i], envs[i], partials[i], ws[i + 1])
  }

  /** In every state of every run: supply equals what is held plus what was burned, transferable
      balances are the outstanding transfers, the holder index agrees with the balances, the history
      replays to the ledger, and every transfer sits at a recorded inscription of its owner. */
  lemma {:induction false} RunsStayOk(ws: seq<World>, envs: seq<Env>, partials: seq<map<OutPoint, Partials>>, i: nat)
    requires RunOf(ws, envs, partials) && i < |ws|
    ensures WorldOk(ws[i]) && HoldersOk(ws[i])
    decreases i
  {
    hide WorldOk, HoldersOk, BlockOk, Balanced, BlockEffect, RecordsApart;
    if i == 0 {
      GenesisOk();
    } else {
      RunsStayOk(ws, envs, partials, i - 1);
      BlockKeeps(ws[i - 1], envs[i - 1], partials[i - 1], ws[i]);
    }
  }
}
