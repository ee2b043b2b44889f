/** One block handled: the order of steps, and the data they leave to be written. */
module Handler {
  import opened Base
  import opened Ledger
  import opened HolderIndex
  import opened StaleHolders
  import opened CacheRefinement
  import opened HoldersStore
  import opened TokenCacheStore
  import opened Routing
  import opened BlockParser
  import opened ParseBlockLoop
  import opened OwnRecords
  import opened Pipeline
  import opened HistoryIds
  import opened UndoLog
  import opened ReorgStore
  import Prevouts

  /** The ledger's part of the database. */
  function LedgerOf(r: Rows): CacheRefinement.Tables
  {
    CacheRefinement.Tables(r.tokens.metas, r.tokens.balances, r.tokens.transfers)
  }

  /** The world the proofs speak of, read off the database's tables and the holder index. */
  ghost predicate Reflects(w: World, r: Rows, h: Index)
  {
    w.ledger == LedgerOf(r) && w.offsets == r.ordinals.offsets && w.prevouts == r.ordinals.prevouts && w.holders == h
  }

  /** The outputs a block's inputs spend, if all are found. */
  ghost function LookedUp(r: Rows, env: Env): Option<map<OutPoint, TxPrevout>>
  {
    Prevouts.Batch(r.ordinals.prevouts, Prevouts.Written(env.txs), Prevouts.Spent(env.txs))
  }

  /** What the parser starts from: the rows stored for the spent outputs. */
  function StartOn(r: Rows, env: Env): Progress
  {
    Progress(Only(r.ordinals.offsets, env.prevouts.Keys), Only(r.ordinals.partials, env.prevouts.Keys), map[], 0, [],
             Protos(LoadTransfers(r.tokens.transfers, env.prevouts)))
  }

  ghost function ParsedOn(r: Rows, env: Env): Progress
    requires Balanced(env.txs, env.prevouts)
  {
    Parsed(env, StartOn(r, env))
  }

  ghost function Drained(r: Rows, h: Index, env: Env): Outcome
    requires Balanced(env.txs, env.prevouts)
  {
    var p := ParsedOn(r, env);
    Run(LoadedCache(LedgerOf(r), env.prevouts, p.all, p.actions), h, p.actions)
  }

  /** The positions left for the offset table: the parser's, with the leaked ones in the coinbase. */
  ghost predicate OffsetsLeft(env: Env, p: Progress, offsets: Offsets)
    requires Balanced(env.txs, env.prevouts)
  {
    && (forall l :: At(offsets, l) <==> At(p.offsets, l) || LeakedAt(env, p.leaked, l))
    && (forall o :: o in offsets ==> o in p.offsets || exists x :: At(offsets, Location(o, x)))
  }

  /** A block as the handler leaves it for writing: the holder index before and after it, and for a full
      block what the parser and the drained cache left. */
  datatype Handled = Handled(env: Env, start: nat, before: Index, p: Progress, offsets: Offsets,
                             state: State, after: Index, log: seq<HistoryAction>, addresses: map<FullHash, string>, info: BlockInfo, proof: nat)

  /** Not below the start height, and more than a coinbase. */
  predicate Full(b: Handled)
  {
    b.start <= b.env.height && |b.env.txs| != 1
  }

  /** `b` is the work done for its block on tables `r` under index `h`. */
  ghost predicate WorkedOut(r: Rows, h: Index, b: Handled)
  {
    && b.before == h && LookedUp(r, b.env) == Some(b.env.prevouts)
    && (Full(b) ==>
          && Balanced(b.env.txs, b.env.prevouts)
          && b.p == ParsedOn(r, b.env) && Drained(r, h, b.env) == Done(b.state, b.after, b.log) && OffsetsLeft(b.env, b.p, b.offsets))
    && (!Full(b) ==> b.after == h && b.log == [])
  }

  /** What a full block leaves to be written, in the order it is written. */
  function FullData(r: Rows, b: Handled): seq<ProcessedData>
  {
    [PrevoutsData(Prevouts.Written(b.env.txs), Prevouts.Spent(b.env.txs)),
     FullHashData(b.addresses),
     PartialsData(Only(r.ordinals.partials, b.env.prevouts.Keys), b.p.partials),
     OffsetsData(Only(r.ordinals.offsets, b.env.prevouts.Keys), b.offsets),
     HistoryData(b.env.height, LastId(r.tokens.LastHistoryId(), b.log), Assigned(r.tokens.LastHistoryId(), b.env.height, b.log)),
     TokensData(b.state.tokens, b.state.accounts, TransferRows(b.state.valid), TransferKeys(LoadTransfers(r.tokens.transfers, b.env.prevouts))),
     InfoData(b.env.height, b.info, b.proof)]
  }

  /** What a block below the start height, or of a coinbase alone, leaves. */
  function ShortData(b: Handled): seq<ProcessedData>
  {
    [PrevoutsData(Prevouts.Written(b.env.txs), Prevouts.Spent(b.env.txs)), FullHashData(b.addresses)]
    + (if b.env.height < b.start then [] else [InfoData(b.env.height, b.info, b.proof)])
  }

  function DataOf(r: Rows, b: Handled): seq<ProcessedData>
  {
    if Full(b) then FullData(r, b) else ShortData(b)
  }

  /** What the handler answers: the error about a missing output, a panic, or data to write. */
  datatype Answer = Missing | Panicked | Processed(data: seq<ProcessedData>)

  lemma LoadedRows(w: World, r: Rows, env: Env)
    requires w.offsets == r.ordinals.offsets && w.ledger == LedgerOf(r)
    ensures LoadedWith(w, env, Only(r.ordinals.partials, env.prevouts.Keys)) == StartOn(r, env)
  {
    assert (map o | o in w.offsets && o in env.prevouts :: w.offsets[o]) == Only(r.ordinals.offsets, env.prevouts.Keys);
  }

  /** The block may be handled: its looked-up outputs make it a block the chain can be extended with. */
  ghost predicate Handleable(w: World, r: Rows, h: Index, block: Env, startHeight: nat)
  {
    && Reflects(w, r, h) && WorldOk(w)
    && (startHeight <= block.height && |block.txs| != 1 && LookedUp(r, block).Some? ==>
          BlockOk(w, block.(prevouts := LookedUp(r, block).value)))
  }

  /** What the parser and the drained cache leave. */
  datatype Work = Work(partials: map<OutPoint, Partials>, offsets: Offsets, state: State, history: seq<HistoryAction>)

  /** Cache loaded, block parsed, tokens loaded, actions drained. */
  method DoWork(db: Database, holders: Holders, env: Env, ghost w: World) returns (panicked: bool, done: Work)
    requires Reflects(w, db.Tables(), holders.Contents()) && WorldOk(w) && BlockOk(w, env)
    modifies holders
    ensures Balanced(env.txs, env.prevouts) && (panicked <==> Drained(db.Tables(), old(holders.Contents()), env).Panic?)
    ensures !panicked ==>
              && Drained(db.Tables(), old(holders.Contents()), env) == Done(done.state, holders.Contents(), done.history)
              && done.partials == ParsedOn(db.Tables(), env).partials && OffsetsLeft(env, ParsedOn(db.Tables(), env), done.offsets)
  {
    hide WorldOk, BlockOk, Parsed, Run, LoadTransfers, Protos, Only, At, LeakedAt, LoadedCache, Balanced;
    ghost var r := db.Tables();
    var tokenCache := new TokenCache.Load(env.prevouts, db.tokens.transfers);
    var parser := new Parser(tokenCache);
    CanParse(w, r, env);
    var offsets, partials := parser.ParseBlock(env, Only(db.ordinals.offsets, env.prevouts.Keys), Only(db.ordinals.partials, env.prevouts.Keys));
    ghost var p := ParsedOn(r, env);
    tokenCache.LoadTokensData(db.tokens.metas, db.tokens.balances);
    assert tokenCache.Contents() == LoadedCache(LedgerOf(r), env.prevouts, p.all, p.actions) by {
      CacheLoaded(LedgerOf(r), env, p);
    }
    var history;
    panicked, history := tokenCache.ProcessTokenActions(holders);
    done := Work(partials, offsets, tokenCache.Contents(), history);
  }

  /** `b` is the work behind data that are answered. */
  method HandleBlock(db: Database, holders: Holders, block: Env, startHeight: nat,
                     addresses: map<FullHash, string>, info: BlockInfo, proof: nat, ghost w: World)
    returns (answer: Answer, ghost b: Handled)
    requires Handleable(w, db.Tables(), holders.Contents(), block, startHeight)
    modifies holders
    ensures answer.Missing? <==> LookedUp(db.Tables(), block).None?
    ensures answer.Panicked? <==>
              && LookedUp(db.Tables(), block).Some? && startHeight <= block.height && |block.txs| != 1
              && var env := block.(prevouts := LookedUp(db.Tables(), block).value);
                 Balanced(env.txs, env.prevouts) && Drained(db.Tables(), old(holders.Contents()), env).Panic?
    ensures answer.Processed? ==>
              && WorkedOut(db.Tables(), old(holders.Contents()), b)
              && b.env == block.(prevouts := b.env.prevouts) && b.start == startHeight
              && b.addresses == addresses && b.info == info && b.proof == proof
              && answer.data == DataOf(db.Tables(), b) && holders.Contents() == b.after
  {
    hide WorldOk, BlockOk, LoadTransfers, Only, OffsetsLeft, Assigned, LastId, Prevouts.Batch, Prevouts.Written, Prevouts.Spent, Balanced, ParsedOn, Drained, TransferRows, TransferKeys;
    ghost var before := holders.Contents();
    b := Handled(block, startHeight, before, Progress(map[], map[], map[], 0, [], map[]), map[],
                 State(map[], map[], map[], map[]), before, [], addresses, info, proof);
    var found, toWrite, toRemove := Prevouts.ProcessPrevouts(db.ordinals.prevouts, block.txs);
    if found.None? {
      return Missing, b;
    }
    var processed := [PrevoutsData(toWrite, Prevouts.Listed(toRemove)), FullHashData(addresses)];
    var env := block.(prevouts := found.value);
    b := b.(env := env);
    if block.height < startHeight {
      return Processed(processed), b;
    }
    if |block.txs| == 1 {
      return Processed(processed + [InfoData(block.height, info, proof)]), b;
    }
    var transfersToRemove := TransferKeys(LoadTransfers(db.tokens.transfers, env.prevouts));
    var panicked, done := DoWork(db, holders, env, w);
    if panicked {
      return Panicked, b;
    }
    b := b.(p := ParsedOn(db.Tables(), env), offsets := done.offsets, state := done.state, after := holders.Contents(), log := done.history);
    processed := processed
      + [PartialsData(Only(db.ordinals.partials, env.prevouts.Keys), done.partials), OffsetsData(Only(db.ordinals.offsets, env.prevouts.Keys), done.offsets)];
    var lastHistoryId, entries := AssignIds(db.tokens.LastHistoryId(), block.height, done.history);
    processed := processed
      + [HistoryData(block.height, lastHistoryId, entries),
         TokensData(done.state.tokens, done.state.accounts, TransferRows(done.state.valid), transfersToRemove),
         InfoData(block.height, info, proof)];
    assert processed == FullData(db.Tables(), b);
    return Processed(processed), b;
  }

  lemma CanParse(w: World, r: Rows, env: Env)
    requires WorldOk(w) && BlockOk(w, env) && w.offsets == r.ordinals.offsets && w.ledger == LedgerOf(r)
    ensures EnvOk(env) && Balanced(env.txs, env.prevouts) && InBounds(env, Only(r.ordinals.offsets, env.prevouts.Keys))
  {
    hide LedgerOk;
    StartsWell(w, env, Only(r.ordinals.partials, env.prevouts.Keys));
    LoadedRows(w, r, env);
  }

  lemma CacheLoaded(g: CacheRefinement.Tables, env: Env, p: Progress)
    ensures var valid := LoadTransfers(g.transfers, env.prevouts);
            var tokens := LoadTokens(g.metas, Tickers(p.actions, p.all, valid));
            LoadedCache(g, env.prevouts, p.all, p.actions) ==
            State(tokens, LoadAccounts(g.balances, AccountKeys(tokens, Users(p.actions, p.all, valid))), p.all, valid)
  {
  }

  /** A panic is the holder count going below zero, and only an index that has left the balances behind
      gets there. */
  lemma PanicsOnlyStale(w: World, r: Rows, h: Index, env: Env)
    requires Reflects(w, r, h) && WorldOk(w) && BlockOk(w, env) && Balanced(env.txs, env.prevouts) && SameTransfers(ParsedOn(r, env).actions)
    ensures OneOwner(r.tokens.transfers)
    ensures Drained(r, h, env).Panic? <==> Sticks(Whole(LedgerOf(r), ParsedOn(r, env).all), h, ParsedOn(r, env).actions)
    ensures Drained(r, h, env).Panic? ==> !Agree(h, r.tokens.balances)
  {
    hide WorldOk, BlockOk, Parsed, LoadedWith, StartOn, Run, LoadedCache, Balanced, SameTransfers, Sticks, Agree, LoadTransfers, WriteBack, Sound;
    LoadedRows(w, r, env);
    BlockRuns(w, env, Only(r.ordinals.partials, env.prevouts.Keys));
  }
}
