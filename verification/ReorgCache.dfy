/** The reorg cache as the indexer keeps it: a height-ordered map of logs, written by the block
    writes and popped by the restore loop. */
module ReorgStore {
  import opened Base
  import opened Ledger
  import opened HistoryIds
  import opened UndoLog

  const REORG_CACHE_MAX_LEN: nat := 30

  type Blocks = map<nat, HistoryBlock>

  predicate IsLast(s: set<nat>, k: nat)
  {
    k in s && forall x :: x in s ==> x <= k
  }

  predicate IsFirst(s: set<nat>, k: nat)
  {
    k in s && forall x :: x in s ==> k <= x
  }

  lemma {:induction false} LastExists(s: set<nat>)
    requires s != {}
    ensures exists k :: IsLast(s, k)
    decreases |s|
  {
    var x :| x in s;
    if s == {x} {
      assert IsLast(s, x);
    } else {
      LastExists(s - {x});
      var k: nat :| IsLast(s - {x}, k);
      assert s == (s - {x}) + {x};
      assert IsLast(s, if x <= k then k else x);
    }
  }

  lemma {:induction false} FirstExists(s: set<nat>)
    requires s != {}
    ensures exists k :: IsFirst(s, k)
    decreases |s|
  {
    var x :| x in s;
    if s == {x} {
      assert IsFirst(s, x);
    } else {
      FirstExists(s - {x});
      var k: nat :| IsFirst(s - {x}, k);
      assert s == (s - {x}) + {x};
      assert IsFirst(s, if k <= x then k else x);
    }
  }

  ghost function Last(s: set<nat>): (k: nat)
    requires s != {}
    ensures IsLast(s, k)
  {
    LastExists(s);
    var k: nat :| IsLast(s, k);
    k
  }

  ghost function First(s: set<nat>): (k: nat)
    requires s != {}
    ensures IsFirst(s, k)
  {
    FirstExists(s);
    var k: nat :| IsFirst(s, k);
    k
  }

  // ---- specifications ----

  /** A new log on top; a full cache gives up its lowest one first. */
  ghost function Opened(blocks: Blocks, height: nat): Blocks
  {
    (if |blocks| == REORG_CACHE_MAX_LEN then blocks - {First(blocks.Keys)} else blocks)[height := HistoryBlock([], [])]
  }

  /** Entries appended to the log of the highest block. */
  ghost function Logged(blocks: Blocks, tokens: seq<TokenHistoryEntry>, ordinals: seq<OrdinalsEntry>): Blocks
    requires blocks != map[]
  {
    var k := Last(blocks.Keys);
    blocks[k := HistoryBlock(blocks[k].tokenHistory + tokens, blocks[k].ordinalsHistory + ordinals)]
  }

  ghost function Popped(r: Rows, blocks: Blocks, height: nat): (Rows, Blocks)
    decreases |blocks|
  {
    if blocks == map[] || Last(blocks.Keys) <= height then (r, blocks)
    else
      var k := Last(blocks.Keys);
      assert |blocks - {k}| < |blocks| by { PopShrinks(blocks, k); }
      Popped(RestoreBlock(r, k, blocks[k]), blocks - {k}, height)
  }

  lemma PopShrinks(blocks: Blocks, k: nat)
    requires k in blocks
    ensures |blocks - {k}| == |blocks| - 1
  {
    assert (blocks - {k}).Keys == blocks.Keys - {k};
    assert |blocks.Keys - {k}| == |blocks.Keys| - 1;
    assert |blocks.Keys| == |blocks| && |(blocks - {k}).Keys| == |blocks - {k}|;
  }

  // ---- the database ----

  class Database {
    var tokens: TokenTables
    var ordinals: OrdinalTables
    var lastBlock: Option<nat>
    var blockInfo: map<nat, BlockInfo>
    var proofs: map<nat, nat>
    var addresses: map<FullHash, string>

    function Tables(): Rows
      reads this
    {
      Rows(tokens, ordinals, lastBlock, blockInfo, proofs, addresses)
    }

    constructor (rows: Rows)
      ensures Tables() == rows
    {
      tokens := rows.tokens;
      ordinals := rows.ordinals;
      lastBlock := rows.lastBlock;
      blockInfo := rows.blockInfo;
      proofs := rows.proofs;
      addresses := rows.addresses;
    }

    method ProceedToken(entry: TokenHistoryEntry)
      modifies this`tokens
      ensures tokens == UndoToken(old(tokens), entry)
    {
      match entry {
        case DeploysToRemove(ticks) => tokens := tokens.(metas := tokens.metas - ticks);
        case DeploysToRestore(items) => tokens := tokens.(metas := tokens.metas + items);
        case BalancesBefore(items) => tokens := tokens.(balances := tokens.balances + items);
        case BalancesToRemove(accounts) => tokens := tokens.(balances := tokens.balances - accounts);
        case RestoreTransfers(items) => tokens := tokens.(transfers := tokens.transfers + items);
        case RemoveTransfers(locations) => tokens := tokens.(transfers := tokens.transfers - locations);
        case RemoveHistory(toRemove, last, outpoints, height, tokenIds) =>
          tokens := tokens.(lastHistoryId := Some(last));
          tokens := tokens.(blockEvents := tokens.blockEvents - {height});
          tokens := tokens.(history := tokens.history - toRemove);
          tokens := tokens.(outpointToEvent := tokens.outpointToEvent - outpoints);
          tokens := tokens.(tokenIdToEvent := tokens.tokenIdToEvent - tokenIds);
      }
    }

    method ProceedOrdinals(entry: OrdinalsEntry)
      modifies this`ordinals
      ensures ordinals == UndoOrdinal(old(ordinals), entry)
    {
      match entry {
        case RestoreOffsets(items) => ordinals := ordinals.(offsets := ordinals.offsets + items);
        case RemoveOffsets(outpoints) => ordinals := ordinals.(offsets := ordinals.offsets - outpoints);
        case RestorePrevouts(items) => ordinals := ordinals.(prevouts := ordinals.prevouts + items);
        case RestorePartial(items) => ordinals := ordinals.(partials := ordinals.partials + items);
        case RemovePartials(outpoints) => ordinals := ordinals.(partials := ordinals.partials - outpoints);
      }
    }

    /** One popped block, which is above the height restored to: last block and info first, then both logs,
        last entry first. */
    method Undo(height: nat, data: HistoryBlock)
      requires height > 0
      modifies this
      ensures Tables() == RestoreBlock(old(Tables()), height, data)
    {
      hide UndoToken, UndoOrdinal;
      lastBlock := Some(height - 1);
      blockInfo := blockInfo - {height};
      assert data.tokenHistory[..|data.tokenHistory|] == data.tokenHistory;
      assert data.ordinalsHistory[..|data.ordinalsHistory|] == data.ordinalsHistory;
      var i := |data.tokenHistory|;
      while i > 0
        invariant 0 <= i <= |data.tokenHistory|
        invariant UndoTokens(tokens, data.tokenHistory[..i]) == UndoTokens(old(tokens), data.tokenHistory)
        invariant ordinals == old(ordinals) && proofs == old(proofs) && addresses == old(addresses)
        invariant lastBlock == Some(height - 1) && blockInfo == old(blockInfo) - {height}
      {
        i := i - 1;
        assert data.tokenHistory[..i + 1][..i] == data.tokenHistory[..i];
        ProceedToken(data.tokenHistory[i]);
      }
      i := |data.ordinalsHistory|;
      while i > 0
        invariant 0 <= i <= |data.ordinalsHistory|
        invariant UndoOrdinals(ordinals, data.ordinalsHistory[..i]) == UndoOrdinals(old(ordinals), data.ordinalsHistory)
        invariant tokens == UndoTokens(old(tokens), data.tokenHistory) && proofs == old(proofs) && addresses == old(addresses)
        invariant lastBlock == Some(height - 1) && blockInfo == old(blockInfo) - {height}
      {
        i := i - 1;
        assert data.ordinalsHistory[..i + 1][..i] == data.ordinalsHistory[..i];
        ProceedOrdinals(data.ordinalsHistory[i]);
      }
    }

    /** The table writes of one kind of data. */
    method Store(d: ProcessedData)
      modifies this
      ensures Tables() == UndoLog.Write(old(Tables()), d)
    {
      match d {
        case InfoData(height, info, proof) =>
          lastBlock := Some(height);
          blockInfo := blockInfo[height := info];
          proofs := proofs[height := proof];
        case PrevoutsData(outputs, inputs) =>
          ordinals := ordinals.(prevouts := ordinals.prevouts + outputs);
          ordinals := ordinals.(prevouts := ordinals.prevouts - inputs);
        case FullHashData(items) =>
          addresses := addresses + items;
        case HistoryData(height, last, history) =>
          tokens := tokens.(tokenIdToEvent := Extend(tokens.tokenIdToEvent, TokenIdItems(history)));
          tokens := tokens.(blockEvents := tokens.blockEvents[height := SortKeys(history)]);
          tokens := tokens.(lastHistoryId := Some(last));
          tokens := tokens.(outpointToEvent := Extend(tokens.outpointToEvent, OutPointItems(history)));
          tokens := tokens.(history := Extend(tokens.history, history));
        case TokensData(metas, balances, toWrite, toRemove) =>
          tokens := tokens.(metas := tokens.metas + metas);
          tokens := tokens.(balances := tokens.balances + balances);
          tokens := tokens.(transfers := tokens.transfers - toRemove);
          tokens := tokens.(transfers := tokens.transfers + toWrite);
        case PartialsData(before, after) =>
          ordinals := ordinals.(partials := ordinals.partials - before.Keys);
          ordinals := ordinals.(partials := ordinals.partials + after);
        case OffsetsData(before, after) =>
          ordinals := ordinals.(offsets := ordinals.offsets - before.Keys);
          ordinals := ordinals.(offsets := ordinals.offsets + after);
      }
    }
  }

  // ---- the cache ----

  class ReorgCache {
    var blocks: Blocks

    constructor ()
      ensures blocks == map[]
    {
      blocks := map[];
    }

    method NewBlock(height: nat)
      modifies this
      ensures blocks == Opened(old(blocks), height)
    {
      if |blocks| == REORG_CACHE_MAX_LEN {
        FirstExists(blocks.Keys);
        var k: nat :| IsFirst(blocks.Keys, k);
        blocks := blocks - {k};
      }
      blocks := blocks[height := HistoryBlock([], [])];
    }

    method PushOrdinalsEntry(entry: OrdinalsEntry)
      requires blocks != map[]
      modifies this
      ensures blocks == Logged(old(blocks), [], [entry])
    {
      LastExists(blocks.Keys);
      var k: nat :| IsLast(blocks.Keys, k);
      assert blocks[k].tokenHistory + [] == blocks[k].tokenHistory;
      blocks := blocks[k := HistoryBlock(blocks[k].tokenHistory, blocks[k].ordinalsHistory + [entry])];
    }

    method PushTokenEntry(entry: TokenHistoryEntry)
      requires blocks != map[]
      modifies this
      ensures blocks == Logged(old(blocks), [entry], [])
    {
      LastExists(blocks.Keys);
      var k: nat :| IsLast(blocks.Keys, k);
      assert blocks[k].ordinalsHistory + [] == blocks[k].ordinalsHistory;
      blocks := blocks[k := HistoryBlock(blocks[k].tokenHistory + [entry], blocks[k].ordinalsHistory)];
    }

    /** Pops and undoes every block above `height`. */
    method Restore(db: Database, height: nat)
      modifies this, db
      ensures (db.Tables(), blocks) == Popped(old(db.Tables()), old(blocks), height)
    {
      while blocks != map[]
        invariant Popped(db.Tables(), blocks, height) == Popped(old(db.Tables()), old(blocks), height)
        decreases |blocks|
      {
        LastExists(blocks.Keys);
        var k: nat :| IsLast(blocks.Keys, k);
        if k <= height {
          break;
        }
        PopShrinks(blocks, k);
        db.Undo(k, blocks[k]);
        blocks := blocks - {k};
      }
    }

    method RestoreAll(db: Database)
      modifies this, db
      ensures (db.Tables(), blocks) == Popped(old(db.Tables()), old(blocks), 0)
    {
      Restore(db, 0);
    }

    method PushTwoTokenEntries(a: TokenHistoryEntry, b: TokenHistoryEntry)
      requires blocks != map[]
      modifies this
      ensures blocks == Logged(old(blocks), [a, b], [])
    {
      PushTokenEntry(a);
      PushTokenEntry(b);
      LoggedTwice(old(blocks), [a], [], [b], []);
      assert [a] + [b] == [a, b];
    }

    method PushTwoOrdinalsEntries(a: OrdinalsEntry, b: OrdinalsEntry)
      requires blocks != map[]
      modifies this
      ensures blocks == Logged(old(blocks), [], [a, b])
    {
      PushOrdinalsEntry(a);
      PushOrdinalsEntry(b);
      LoggedTwice(old(blocks), [], [a], [], [b]);
      assert [a] + [b] == [a, b];
    }

    /** The inverse entries of the token tables: deploys, balances, transfers. */
    method PushTokens(t: TokenTables, d: ProcessedData)
      requires blocks != map[] && d.TokensData?
      modifies this
      ensures blocks == Logged(old(blocks), TokenEntries(t, d), [])
    {
      hide Only, Logged;
      var es := TokenEntries(t, d);
      assert Logged(old(blocks), [], []) != map[] && Logged(old(blocks), [es[0], es[1]], []) != map[] by {
        LoggedSome(old(blocks), [], []);
        LoggedSome(old(blocks), [es[0], es[1]], []);
      }
      PushTwoTokenEntries(DeploysToRemove(d.metas.Keys - t.metas.Keys), DeploysToRestore(Only(t.metas, d.metas.Keys)));
      LoggedSome(blocks, [es[2], es[3]], []);
      PushTwoTokenEntries(BalancesBefore(Only(t.balances, d.balances.Keys)), BalancesToRemove(d.balances.Keys - t.balances.Keys));
      LoggedTwice(old(blocks), [es[0], es[1]], [], [es[2], es[3]], []);
      PushTwoTokenEntries(RestoreTransfers(Only(t.transfers, d.transfersToRemove)), RemoveTransfers(d.transfersToWrite.Keys));
      LoggedTwice(old(blocks), [es[0], es[1]] + [es[2], es[3]], [], [es[4], es[5]], []);
      assert [es[0], es[1]] + [es[2], es[3]] + [es[4], es[5]] == es;
    }

    /** One kind of data written, its inverse entries pushed first. */
    method Write(d: ProcessedData, db: Database)
      requires blocks != map[] && Writable(db.Tables(), d)
      modifies this, db
      ensures db.Tables() == UndoLog.Write(old(db.Tables()), d)
      ensures blocks == Logged(old(blocks), TokenEntries(old(db.tokens), d), OrdinalEntries(old(db.ordinals), d))
    {
      hide Only, Logged, Firsts, TokenIdItems, OutPointItems, SpentBefore, UndoLog.Write;
      match d {
        case PrevoutsData(outputs, inputs) =>
          PushOrdinalsEntry(RestorePrevouts(SpentBefore(db.ordinals.prevouts, outputs, inputs)));
        case HistoryData(height, _, history) =>
          PushTokenEntry(RemoveHistory(Firsts(history), db.tokens.LastHistoryId(), Firsts(OutPointItems(history)), height, Firsts(TokenIdItems(history))));
        case TokensData(_, _, _, _) =>
          PushTokens(db.tokens, d);
        case PartialsData(before, after) =>
          PushTwoOrdinalsEntries(RestorePartial(before), RemovePartials(after.Keys));
        case OffsetsData(before, after) =>
          PushTwoOrdinalsEntries(RestoreOffsets(before), RemoveOffsets(after.Keys));
        case _ =>
          NothingLogged(blocks);
      }
      db.Store(d);
    }
  }

  lemma LoggedSome(blocks: Blocks, ts: seq<TokenHistoryEntry>, os: seq<OrdinalsEntry>)
    requires blocks != map[]
    ensures Logged(blocks, ts, os) != map[]
  {
    assert Last(blocks.Keys) in Logged(blocks, ts, os);
  }

  lemma NothingLogged(blocks: Blocks)
    requires blocks != map[]
    ensures Logged(blocks, [], []) == blocks
  {
    var b := blocks[Last(blocks.Keys)];
    assert b.tokenHistory + [] == b.tokenHistory && b.ordinalsHistory + [] == b.ordinalsHistory;
  }

  lemma LoggedTwice(blocks: Blocks, ts: seq<TokenHistoryEntry>, os: seq<OrdinalsEntry>, ts': seq<TokenHistoryEntry>, os': seq<OrdinalsEntry>)
    requires blocks != map[]
    ensures Logged(Logged(blocks, ts, os), ts', os') == Logged(blocks, ts + ts', os + os')
    ensures os == os' == [] ==> os + os' == []
    ensures ts == ts' == [] ==> ts + ts' == []
  {
    var k := Last(blocks.Keys);
    var b := blocks[k];
    assert Logged(blocks, ts, os).Keys == blocks.Keys;
    assert (b.tokenHistory + ts) + ts' == b.tokenHistory + (ts + ts');
    assert (b.ordinalsHistory + os) + os' == b.ordinalsHistory + (os + os');
  }
}
