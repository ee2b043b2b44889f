/** Table writes of a block and the inverse entries recorded for them: what undoing restores. */
module UndoLog {
  import opened Base
  import opened Ledger
  import opened CacheRefinement
  import opened BlockParser
  import opened HistoryIds

  // ---- tables ----

  datatype TokenId = TokenId(token: Tick, id: nat)

  datatype BlockInfo = BlockInfo(hash: nat, created: nat)

  datatype TokenTables = TokenTables(
    metas: map<LowerTick, TokenMeta>,
    balances: map<AddressToken, TokenBalance>,
    transfers: map<AddressLocation, TransferProto>,
    lastHistoryId: Option<nat>,
    blockEvents: map<nat, seq<AddressTokenId>>,
    history: map<AddressTokenId, HistoryValue>,
    outpointToEvent: map<OutPoint, AddressTokenId>,
    tokenIdToEvent: map<TokenId, AddressTokenId>)
  {
    /** The stored last id, read with `unwrap_or_default`. */
    function LastHistoryId(): nat {
      if lastHistoryId.Some? then lastHistoryId.value else 0
    }
  }

  datatype OrdinalTables = OrdinalTables(prevouts: map<OutPoint, TxPrevout>, partials: map<OutPoint, Partials>, offsets: Offsets)

  datatype Rows = Rows(
    tokens: TokenTables,
    ordinals: OrdinalTables,
    lastBlock: Option<nat>,
    blockInfo: map<nat, BlockInfo>,
    proofs: map<nat, nat>,
    addresses: map<FullHash, string>)

  // ---- what a block writes; vectors collected from hash maps are maps here ----

  datatype ProcessedData =
    | InfoData(height: nat, info: BlockInfo, proof: nat)
    | PrevoutsData(outputs: map<OutPoint, TxPrevout>, inputs: set<OutPoint>)
    | FullHashData(addresses: map<FullHash, string>)
    | HistoryData(height: nat, lastHistoryId: nat, history: seq<Entry>)
    | TokensData(metas: map<LowerTick, TokenMeta>, balances: map<AddressToken, TokenBalance>,
                 transfersToWrite: map<AddressLocation, TransferProto>, transfersToRemove: set<AddressLocation>)
    | PartialsData(oldPartials: map<OutPoint, Partials>, newPartials: map<OutPoint, Partials>)
    | OffsetsData(oldOffsets: Offsets, newOffsets: Offsets)

  datatype TokenHistoryEntry =
    | BalancesBefore(balances: map<AddressToken, TokenBalance>)
    | BalancesToRemove(accounts: set<AddressToken>)
    | DeploysToRemove(ticks: set<LowerTick>)
    | DeploysToRestore(metas: map<LowerTick, TokenMeta>)
    | RestoreTransfers(transfers: map<AddressLocation, TransferProto>)
    | RemoveTransfers(locations: set<AddressLocation>)
    | RemoveHistory(toRemove: set<AddressTokenId>, lastHistoryId: nat, outpoints: set<OutPoint>, height: nat, tokenIds: set<TokenId>)

  datatype OrdinalsEntry =
    | RestoreOffsets(offsets: Offsets)
    | RemoveOffsets(outpoints: set<OutPoint>)
    | RestorePrevouts(prevouts: map<OutPoint, TxPrevout>)
    | RestorePartial(partials: map<OutPoint, Partials>)
    | RemovePartials(outpoints: set<OutPoint>)

  // ---- batch writes of pairs, in order ----

  function Extend<K, V>(m: map<K, V>, items: seq<(K, V)>): map<K, V>
  {
    if items == [] then m else Extend(m, items[..|items| - 1])[items[|items| - 1].0 := items[|items| - 1].1]
  }

  function Firsts<K, V>(items: seq<(K, V)>): set<K>
  {
    set i | 0 <= i < |items| :: items[i].0
  }

  function Only<K, V>(m: map<K, V>, keys: set<K>): map<K, V>
  {
    map k | k in m && k in keys :: m[k]
  }

  function EventItem(e: Entry): (OutPoint, AddressTokenId)
  {
    (EventOutPoint(e.1.event), e.0)
  }

  function IdItem(e: Entry): (TokenId, AddressTokenId)
  {
    (TokenId(e.0.token, e.0.id), e.0)
  }

  function OutPointItems(es: seq<Entry>): seq<(OutPoint, AddressTokenId)>
  {
    seq(|es|, i requires 0 <= i < |es| => EventItem(es[i]))
  }

  function TokenIdItems(es: seq<Entry>): seq<(TokenId, AddressTokenId)>
  {
    seq(|es|, i requires 0 <= i < |es| => IdItem(es[i]))
  }

  // ---- forward writes ----

  function WriteTokens(t: TokenTables, d: ProcessedData): TokenTables
  {
    match d
    case HistoryData(height, last, history) =>
      t.(tokenIdToEvent := Extend(t.tokenIdToEvent, TokenIdItems(history)),
         blockEvents := t.blockEvents[height := SortKeys(history)],
         lastHistoryId := Some(last),
         outpointToEvent := Extend(t.outpointToEvent, OutPointItems(history)),
         history := Extend(t.history, history))
    case TokensData(metas, balances, toWrite, toRemove) =>
      t.(metas := t.metas + metas, balances := t.balances + balances, transfers := (t.transfers - toRemove) + toWrite)
    case _ => t
  }

  function WriteOrdinals(o: OrdinalTables, d: ProcessedData): OrdinalTables
  {
    match d
    case PrevoutsData(outputs, inputs) => o.(prevouts := (o.prevouts + outputs) - inputs)
    case PartialsData(before, after) => o.(partials := (o.partials - before.Keys) + after)
    case OffsetsData(before, after) => o.(offsets := (o.offsets - before.Keys) + after)
    case _ => o
  }

  function Write(r: Rows, d: ProcessedData): Rows
  {
    var s := r.(tokens := WriteTokens(r.tokens, d), ordinals := WriteOrdinals(r.ordinals, d));
    match d
    case InfoData(height, info, proof) =>
      s.(lastBlock := Some(height), blockInfo := r.blockInfo[height := info], proofs := r.proofs[height := proof])
    case FullHashData(addresses) => s.(addresses := r.addresses + addresses)
    case _ => s
  }

  // ---- the inverse entries ----

  /** The write finds what it expects: inputs looked up before, and the transfers it removes. */
  predicate Writable(r: Rows, d: ProcessedData)
  {
    match d
    case PrevoutsData(outputs, inputs) => inputs <= r.ordinals.prevouts.Keys + outputs.Keys
    case TokensData(_, _, _, toRemove) => toRemove <= r.tokens.transfers.Keys
    case _ => true
  }

  function TokenEntries(t: TokenTables, d: ProcessedData): seq<TokenHistoryEntry>
  {
    match d
    case HistoryData(height, _, history) =>
      [RemoveHistory(Firsts(history), t.LastHistoryId(), Firsts(OutPointItems(history)), height, Firsts(TokenIdItems(history)))]
    case TokensData(metas, balances, toWrite, toRemove) =>
      [DeploysToRemove(metas.Keys - t.metas.Keys), DeploysToRestore(Only(t.metas, metas.Keys)),
       BalancesBefore(Only(t.balances, balances.Keys)), BalancesToRemove(balances.Keys - t.balances.Keys),
       RestoreTransfers(Only(t.transfers, toRemove)), RemoveTransfers(toWrite.Keys)]
    case _ => []
  }

  function SpentBefore(prevouts: map<OutPoint, TxPrevout>, outputs: map<OutPoint, TxPrevout>, inputs: set<OutPoint>): map<OutPoint, TxPrevout>
  {
    map k | k in inputs && (k in prevouts || k in outputs) :: if k in prevouts then prevouts[k] else outputs[k]
  }

  function OrdinalEntries(o: OrdinalTables, d: ProcessedData): seq<OrdinalsEntry>
  {
    match d
    case PrevoutsData(outputs, inputs) => [RestorePrevouts(SpentBefore(o.prevouts, outputs, inputs))]
    case PartialsData(before, after) => [RestorePartial(before), RemovePartials(after.Keys)]
    case OffsetsData(before, after) => [RestoreOffsets(before), RemoveOffsets(after.Keys)]
    case _ => []
  }

  // ---- undoing ----

  function UndoToken(t: TokenTables, e: TokenHistoryEntry): TokenTables
  {
    match e
    case DeploysToRemove(ticks) => t.(metas := t.metas - ticks)
    case DeploysToRestore(metas) => t.(metas := t.metas + metas)
    case BalancesBefore(balances) => t.(balances := t.balances + balances)
    case BalancesToRemove(accounts) => t.(balances := t.balances - accounts)
    case RestoreTransfers(transfers) => t.(transfers := t.transfers + transfers)
    case RemoveTransfers(locations) => t.(transfers := t.transfers - locations)
    case RemoveHistory(toRemove, last, outpoints, height, tokenIds) =>
      t.(lastHistoryId := Some(last), blockEvents := t.blockEvents - {height}, history := t.history - toRemove,
         outpointToEvent := t.outpointToEvent - outpoints, tokenIdToEvent := t.tokenIdToEvent - tokenIds)
  }

  function UndoOrdinal(o: OrdinalTables, e: OrdinalsEntry): OrdinalTables
  {
    match e
    case RestoreOffsets(offsets) => o.(offsets := o.offsets + offsets)
    case RemoveOffsets(outpoints) => o.(offsets := o.offsets - outpoints)
    case RestorePrevouts(prevouts) => o.(prevouts := o.prevouts + prevouts)
    case RestorePartial(partials) => o.(partials := o.partials + partials)
    case RemovePartials(outpoints) => o.(partials := o.partials - outpoints)
  }

  /** Entries are undone last first. */
  function UndoTokens(t: TokenTables, es: seq<TokenHistoryEntry>): TokenTables
    decreases |es|
  {
    if es == [] then t else UndoTokens(UndoToken(t, es[|es| - 1]), es[..|es| - 1])
  }

  function UndoOrdinals(o: OrdinalTables, es: seq<OrdinalsEntry>): OrdinalTables
    decreases |es|
  {
    if es == [] then o else UndoOrdinals(UndoOrdinal(o, es[|es| - 1]), es[..|es| - 1])
  }

  // ---- a block: its writes, its log, its restore ----

  datatype HistoryBlock = HistoryBlock(tokenHistory: seq<TokenHistoryEntry>, ordinalsHistory: seq<OrdinalsEntry>)

  datatype Block = Block(height: nat, data: seq<ProcessedData>)

  function WriteAll(r: Rows, ds: seq<ProcessedData>): Rows
  {
    if ds == [] then r else Write(WriteAll(r, ds[..|ds| - 1]), ds[|ds| - 1])
  }

  function LogOf(r: Rows, ds: seq<ProcessedData>): HistoryBlock
  {
    if ds == [] then HistoryBlock([], [])
    else
      var init := ds[..|ds| - 1];
      var log := LogOf(r, init);
      var at := WriteAll(r, init);
      HistoryBlock(log.tokenHistory + TokenEntries(at.tokens, ds[|ds| - 1]), log.ordinalsHistory + OrdinalEntries(at.ordinals, ds[|ds| - 1]))
  }

  /** One pass of the restore loop. */
  function RestoreBlock(r: Rows, height: nat, log: HistoryBlock): Rows
  {
    r.(lastBlock := if height == 0 then None else Some(height - 1),
       blockInfo := r.blockInfo - {height},
       tokens := UndoTokens(r.tokens, log.tokenHistory),
       ordinals := UndoOrdinals(r.ordinals, log.ordinalsHistory))
  }

  // ---- the tables one by one ----

  /** The tables undo has to answer for. Last id, event lists, history and ids form one. */
  datatype Table = History | OutPointEvents | Metas | Balances | Transfers | PartialTable | OffsetTable | PrevoutTable

  datatype Content =
    | HistoryContent(last: nat, blockEvents: map<nat, seq<AddressTokenId>>, history: map<AddressTokenId, HistoryValue>, ids: map<TokenId, AddressTokenId>)
    | EventContent(events: map<OutPoint, AddressTokenId>)
    | MetaContent(metas: map<LowerTick, TokenMeta>)
    | BalanceContent(balances: map<AddressToken, TokenBalance>)
    | TransferContent(transfers: map<AddressLocation, TransferProto>)
    | PartialContent(partials: map<OutPoint, Partials>)
    | OffsetContent(offsets: Offsets)
    | PrevoutContent(prevouts: map<OutPoint, TxPrevout>)

  function ContentOf(t: TokenTables, o: OrdinalTables, k: Table): Content
  {
    match k
    case History => HistoryContent(t.LastHistoryId(), t.blockEvents, t.history, t.tokenIdToEvent)
    case OutPointEvents => EventContent(t.outpointToEvent)
    case Metas => MetaContent(t.metas)
    case Balances => BalanceContent(t.balances)
    case Transfers => TransferContent(t.transfers)
    case PartialTable => PartialContent(o.partials)
    case OffsetTable => OffsetContent(o.offsets)
    case PrevoutTable => PrevoutContent(o.prevouts)
  }

  function Part(r: Rows, k: Table): Content
  {
    ContentOf(r.tokens, r.ordinals, k)
  }

  predicate Touches(d: ProcessedData, k: Table)
  {
    match k
    case History => d.HistoryData?
    case OutPointEvents => d.HistoryData?
    case Metas => d.TokensData?
    case Balances => d.TokensData?
    case Transfers => d.TokensData?
    case PartialTable => d.PartialsData?
    case OffsetTable => d.OffsetsData?
    case PrevoutTable => d.PrevoutsData?
  }

  /** What a write must meet for its undo to give table `k` back: keys it adds are new or among those
      it removes, and what it says it removes is what is stored. */
  predicate Fresh(r: Rows, d: ProcessedData, k: Table)
  {
    match d
    case HistoryData(height, _, history) =>
      if k.History? then
        && height !in r.tokens.blockEvents && r.tokens.history.Keys !! Firsts(history)
        && r.tokens.tokenIdToEvent.Keys !! Firsts(TokenIdItems(history))
      else k.OutPointEvents? ==> r.tokens.outpointToEvent.Keys !! Firsts(OutPointItems(history))
    case TokensData(_, _, toWrite, toRemove) => k.Transfers? ==> FreshKeys(r.tokens.transfers, toRemove, toWrite.Keys)
    case PrevoutsData(outputs, inputs) =>
      k.PrevoutTable? ==> outputs.Keys <= r.ordinals.prevouts.Keys && OverwritesSame(r.ordinals.prevouts, outputs, inputs)
    case PartialsData(before, after) => k.PartialTable? ==> Stored(r.ordinals.partials, before) && FreshKeys(r.ordinals.partials, before.Keys, after.Keys)
    case OffsetsData(before, after) => k.OffsetTable? ==> Stored(r.ordinals.offsets, before) && FreshKeys(r.ordinals.offsets, before.Keys, after.Keys)
    case _ => true
  }

  predicate FreshKeys<K, V>(m: map<K, V>, removed: set<K>, written: set<K>)
  {
    forall k :: k in written && k in m ==> k in removed
  }

  predicate Stored<K, V(==)>(m: map<K, V>, part: map<K, V>)
  {
    forall k :: k in part ==> k in m && m[k] == part[k]
  }

  /** A stored output that is written again is spent by the same block or written as it was. */
  predicate OverwritesSame(prevouts: map<OutPoint, TxPrevout>, outputs: map<OutPoint, TxPrevout>, inputs: set<OutPoint>)
  {
    forall o :: o in outputs && o in prevouts && o !in inputs ==> outputs[o] == prevouts[o]
  }
}
