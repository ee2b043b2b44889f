/** The token cache of one block, in place: parsing pushes actions, loading fills the partial tables,
    draining applies the actions. Each method is proved against the ledger's step functions. */
module TokenCacheStore {
  import opened Base
  import opened Ledger
  import opened LedgerInvariants
  import opened CacheRefinement
  import opened HoldersStore

  /** A protocol message, as deserialization leaves it. */
  datatype Brc4 =
    | DeployMessage(tick: Tick, max: nat, lim: Option<nat>, dec: nat)
    | MintMessage(tick: Tick, amt: Amount)
    | TransferMessage(tick: Tick, amt: Amount)

  datatype InscriptionTemplate = InscriptionTemplate(
    genesis: OutPoint, location: Location, owner: FullHash, leaked: bool, message: Option<Brc4>)

  const MAX_DEC: nat := 18

  /** The checks between a deserialized message and an accepted one. */
  predicate Accepted(m: Brc4)
  {
    match m
    case DeployMessage(_, max, lim, dec) =>
      var l := match lim case Some(x) => x case None => max;
      dec <= MAX_DEC && 0 < l <= MAX_AMOUNT && 0 < max <= MAX_AMOUNT
    case MintMessage(_, amt) => 0 < amt.units <= MAX_AMOUNT
    case TransferMessage(_, amt) => 0 < amt.units <= MAX_AMOUNT
  }

  /** The action an inscription asks for, if any. */
  function ActionFor(inc: InscriptionTemplate, height: nat, created: nat): Option<TokenAction>
  {
    if inc.owner == OP_RETURN_HASH || inc.leaked || inc.message.None? || !Accepted(inc.message.value) then None
    else
      match inc.message.value
      case DeployMessage(tick, max, lim, dec) =>
        var l := match lim case Some(x) => x case None => max;
        Some(Deploy(inc.genesis, DeployProto(tick, max, l, dec, 0, 0, 0, height, created, inc.owner, 1), inc.owner))
      case MintMessage(tick, amt) =>
        Some(Mint(inc.owner, tick, amt, inc.location.outpoint.txid, inc.location.outpoint.vout))
      case TransferMessage(tick, amt) =>
        Some(Transfer(inc.location, inc.owner, tick, amt, inc.location.outpoint.txid, inc.location.outpoint.vout))
  }

  function Recorded(all: map<Location, TransferProto>, a: TokenAction, height: nat): map<Location, TransferProto>
  {
    if a.Transfer? then all[a.location := TransferProto(a.tick, a.amt.units, height)] else all
  }

  /** What an accepted message bounds; a transfer or mint is of at most the protocol's maximum. */
  predicate InRange(a: TokenAction)
  {
    match a
    case Deploy(_, p, _) => p.dec <= MAX_DEC && 0 < p.lim <= MAX_AMOUNT && 0 < p.max <= MAX_AMOUNT
    case Mint(_, _, amt, _, _) => 0 < amt.units <= MAX_AMOUNT
    case Transfer(_, _, _, amt, _, _) => 0 < amt.units <= MAX_AMOUNT
    case Transferred(_, _, _, _) => true
  }

  /** What is asked for is in range and belongs to the inscription's owner, never to the burn script; a
      mint or transfer names the output it sits on. */
  lemma ActionForOk(inc: InscriptionTemplate, height: nat, created: nat)
    ensures var a := ActionFor(inc, height, created);
            a.Some? ==>
              && ActionOk(a.value) && InRange(a.value) && !a.value.Transferred? && a.value.owner == inc.owner != OP_RETURN_HASH
              && (a.value.Transfer? ==> a.value.location == inc.location)
              && (!a.value.Deploy? ==> OutPoint(a.value.txid, a.value.vout) == inc.location.outpoint)
  {
  }

  class TokenCache {
    var tokens: map<LowerTick, TokenMeta>
    var tokenAccounts: map<AddressToken, TokenBalance>
    var tokenActions: seq<TokenAction>
    var allTransfers: map<Location, TransferProto>
    var validTransfers: map<Location, ValidTransfer>

    function Contents(): State
      reads this
    {
      State(tokens, tokenAccounts, allTransfers, validTransfers)
    }

    /** Loads the outstanding transfers of the spent outputs; their records start out as all records. */
    constructor Load(prevouts: map<OutPoint, TxPrevout>, transfers: map<AddressLocation, TransferProto>)
      ensures Contents() == State(map[], map[], Protos(LoadTransfers(transfers, prevouts)), LoadTransfers(transfers, prevouts))
      ensures tokenActions == []
    {
      tokens, tokenAccounts, tokenActions := map[], map[], [];
      validTransfers := LoadTransfers(transfers, prevouts);
      allTransfers := Protos(LoadTransfers(transfers, prevouts));
    }

    method ParseTokenAction(inc: InscriptionTemplate, height: nat, created: nat)
      modifies this`tokenActions, this`allTransfers
      ensures var a := ActionFor(inc, height, created);
              && tokenActions == old(tokenActions) + (if a.Some? then [a.value] else [])
              && allTransfers == (if a.Some? then Recorded(old(allTransfers), a.value, height) else old(allTransfers))
    {
      if inc.owner == OP_RETURN_HASH || inc.leaked {
        return;
      }
      if inc.message.None? || !Accepted(inc.message.value) {
        return;
      }
      match inc.message.value
      case DeployMessage(tick, max, lim, dec) =>
        var l := match lim case Some(x) => x case None => max;
        tokenActions := tokenActions + [Deploy(inc.genesis, DeployProto(tick, max, l, dec, 0, 0, 0, height, created, inc.owner, 1), inc.owner)];
      case MintMessage(tick, amt) =>
        tokenActions := tokenActions + [Mint(inc.owner, tick, amt, inc.location.outpoint.txid, inc.location.outpoint.vout)];
      case TransferMessage(tick, amt) =>
        tokenActions := tokenActions + [Transfer(inc.location, inc.owner, tick, amt, inc.location.outpoint.txid, inc.location.outpoint.vout)];
        allTransfers := allTransfers[inc.location := TransferProto(tick, amt.units, height)];
    }

    method PushTransferred(location: Location, recipient: FullHash, txid: nat, vout: nat)
      modifies this`tokenActions
      ensures tokenActions == old(tokenActions) + [Transferred(location, recipient, txid, vout)]
    {
      tokenActions := tokenActions + [Transferred(location, recipient, txid, vout)];
    }

    method PushBurnedTransfer(location: Location, txid: nat, vout: nat)
      modifies this`tokenActions
      ensures tokenActions == old(tokenActions) + [Transferred(location, OP_RETURN_HASH, txid, vout)]
    {
      tokenActions := tokenActions + [Transferred(location, OP_RETURN_HASH, txid, vout)];
    }

    method FillTickersAndUsers() returns (tickers: set<LowerTick>, users: set<AddressToken>)
      ensures tickers == Tickers(tokenActions, allTransfers, validTransfers)
      ensures users == Users(tokenActions, allTransfers, validTransfers)
    {
      tickers, users := {}, {};
      for i := 0 to |tokenActions|
        invariant tickers == Tickers(tokenActions[..i], allTransfers, validTransfers)
        invariant users == Users(tokenActions[..i], allTransfers, validTransfers)
      {
        assert tokenActions[..i + 1][..i] == tokenActions[..i];
        match tokenActions[i]
        case Deploy(_, proto, _) =>
          tickers := tickers + {proto.tick.lower};
        case Mint(owner, tick, _, _, _) =>
          tickers, users := tickers + {tick.lower}, users + {AddressToken(owner, tick)};
        case Transfer(_, owner, tick, _, _, _) =>
          tickers, users := tickers + {tick.lower}, users + {AddressToken(owner, tick)};
        case Transferred(location, recipient, _, _) =>
          var proto := RecordFor(allTransfers, validTransfers, location);
          if proto.Some? {
            if recipient != OP_RETURN_HASH {
              users := users + {AddressToken(recipient, proto.value.tick)};
            }
            if location in validTransfers {
              users := users + {AddressToken(validTransfers[location].owner, proto.value.tick)};
            }
            tickers := tickers + {proto.value.tick.lower};
          }
      }
      assert tokenActions[..|tokenActions|] == tokenActions;
    }

    /** Loads exactly the rows the block's actions can touch. */
    method LoadTokensData(metas: map<LowerTick, TokenMeta>, balances: map<AddressToken, TokenBalance>)
      modifies this`tokens, this`tokenAccounts
      ensures tokens == LoadTokens(metas, Tickers(tokenActions, allTransfers, validTransfers))
      ensures tokenAccounts == LoadAccounts(balances, AccountKeys(tokens, Users(tokenActions, allTransfers, validTransfers)))
    {
      var tickers, users := FillTickersAndUsers();
      tokens := LoadTokens(metas, tickers);
      tokenAccounts := LoadAccounts(balances, AccountKeys(tokens, users));
    }

    method ProcessDeploy(a: TokenAction) returns (history: seq<HistoryAction>)
      requires a.Deploy?
      modifies this`tokens
      ensures forall h :: StepDeploy(old(Contents()), h, a) == Done(Contents(), h, history)
    {
      history := [];
      var p := a.proto;
      if p.tick.lower !in tokens {
        tokens := tokens[p.tick.lower := TokenMeta(a.genesis, p)];
        history := [DeployEvent(p.tick, p.max, p.lim, p.dec, a.owner, a.genesis.txid, a.genesis.vout)];
      }
    }

    method ProcessMint(a: TokenAction, holders: Holders) returns (panicked: bool, history: seq<HistoryAction>)
      requires a.Mint?
      modifies this`tokens, this`tokenAccounts, holders
      ensures panicked <==> StepMint(old(Contents()), old(holders.Contents()), a).Panic?
      ensures !panicked ==> StepMint(old(Contents()), old(holders.Contents()), a) == Done(Contents(), holders.Contents(), history)
    {
      panicked, history := false, [];
      if a.tick.lower !in tokens {
        return;
      }
      var p := tokens[a.tick.lower].proto;
      if a.amt.scale > p.dec {
        return;
      }
      if p.lim < a.amt.units {
        return;
      }
      if p.supply == p.max {
        return;
      }
      if p.max < p.supply {
        return true, [];
      }
      var amt := Min(a.amt.units, p.max - p.supply);
      var key := AddressToken(a.owner, p.tick);
      if key in tokenAccounts {
        holders.IncreaseHolder(key, tokenAccounts[key], amt);
      } else {
        holders.IncreaseHolder(key, TokenBalance(0, 0, 0), amt);
      }
      tokenAccounts := Credit(tokenAccounts, key, amt);
      tokens := CountMint(tokens, a.tick.lower, amt);
      history := [MintEvent(p.tick, amt, a.owner, a.txid, a.vout)];
    }

    method ProcessTransfer(a: TokenAction) returns (history: seq<HistoryAction>)
      requires a.Transfer?
      modifies this`tokens, this`tokenAccounts, this`allTransfers, this`validTransfers
      ensures forall h :: StepTransfer(old(Contents()), h, a) == Done(Contents(), h, history)
    {
      history := [];
      if a.location !in allTransfers {
        return;
      }
      var data := allTransfers[a.location];
      allTransfers := allTransfers - {a.location};
      if a.tick.lower !in tokens {
        return;
      }
      var p := tokens[a.tick.lower].proto;
      data := data.(tick := p.tick);
      if a.amt.scale > p.dec {
        return;
      }
      var key := AddressToken(a.owner, p.tick);
      if key !in tokenAccounts {
        return;
      }
      if a.amt.units > tokenAccounts[key].balance {
        return;
      }
      tokenAccounts := Lock(tokenAccounts, key, a.amt.units);
      history := [DeployTransferEvent(p.tick, a.amt.units, a.owner, a.txid, a.vout)];
      validTransfers := validTransfers[a.location := ValidTransfer(a.owner, data)];
      tokens := CountTransfer(tokens, a.tick.lower);
    }

    method ProcessTransferred(a: TokenAction, holders: Holders) returns (panicked: bool, history: seq<HistoryAction>)
      requires a.Transferred?
      modifies this`tokens, this`tokenAccounts, this`validTransfers, holders
      ensures panicked <==> StepTransferred(old(Contents()), old(holders.Contents()), a).Panic?
      ensures !panicked ==> StepTransferred(old(Contents()), old(holders.Contents()), a) == Done(Contents(), holders.Contents(), history)
    {
      panicked, history := false, [];
      if a.location !in validTransfers {
        return;
      }
      var sender, proto := validTransfers[a.location].owner, validTransfers[a.location].proto;
      validTransfers := validTransfers - {a.location};
      if proto.tick.lower !in tokens {
        return true, [];
      }
      var tick := tokens[proto.tick.lower].proto.tick;
      var oldKey := AddressToken(sender, tick);
      if oldKey !in tokenAccounts {
        return true, [];
      }
      var oldAccount := tokenAccounts[oldKey];
      if oldAccount.transfers == 0 || oldAccount.transferable < proto.amt {
        return true, [];
      }
      var ok := holders.DecreaseHolder(oldKey, oldAccount, proto.amt);
      if !ok {
        return true, [];
      }
      tokenAccounts := Unlock(tokenAccounts, oldKey, proto.amt);
      tokens := CountSend(tokens, proto.tick.lower);
      if a.recipient != OP_RETURN_HASH {
        var recipientKey := AddressToken(a.recipient, tick);
        if recipientKey in tokenAccounts {
          holders.IncreaseHolder(recipientKey, tokenAccounts[recipientKey], proto.amt);
        } else {
          holders.IncreaseHolder(recipientKey, TokenBalance(0, 0, 0), proto.amt);
        }
        tokenAccounts := Credit(tokenAccounts, recipientKey, proto.amt);
      }
      history := [SendEvent(tick, proto.amt, a.recipient, sender, a.txid, a.vout)];
    }

    method ProcessOne(a: TokenAction, holders: Holders) returns (panicked: bool, history: seq<HistoryAction>)
      modifies this`tokens, this`tokenAccounts, this`allTransfers, this`validTransfers, holders
      ensures panicked <==> Step(old(Contents()), old(holders.Contents()), a).Panic?
      ensures !panicked ==> Step(old(Contents()), old(holders.Contents()), a) == Done(Contents(), holders.Contents(), history)
    {
      panicked := false;
      match a
      case Deploy(_, _, _) => history := ProcessDeploy(a);
      case Mint(_, _, _, _, _) => panicked, history := ProcessMint(a, holders);
      case Transfer(_, _, _, _, _, _) => history := ProcessTransfer(a);
      case Transferred(_, _, _, _) => panicked, history := ProcessTransferred(a, holders);
    }

    /** Drains the block's actions: exactly the ledger's `Run`, panics included. */
    method ProcessTokenActions(holders: Holders) returns (panicked: bool, history: seq<HistoryAction>)
      modifies this, holders
      ensures panicked <==> Run(old(Contents()), old(holders.Contents()), old(tokenActions)).Panic?
      ensures !panicked ==>
                && Run(old(Contents()), old(holders.Contents()), old(tokenActions)) == Done(Contents(), holders.Contents(), history)
                && tokenActions == []
    {
      history := [];
      ghost var s0, h0, drained := Contents(), holders.Contents(), [];
      while tokenActions != []
        invariant old(tokenActions) == drained + tokenActions
        invariant Run(s0, h0, drained) == Done(Contents(), holders.Contents(), history)
        decreases |tokenActions|
      {
        var action := tokenActions[0];
        tokenActions := tokenActions[1..];
        ghost var s1, h1 := Contents(), holders.Contents();
        var p, events := ProcessOne(action, holders);
        RunOne(s0, h0, drained, s1, h1, history, action);
        assert old(tokenActions) == drained + [action] + tokenActions;
        RunAppend(s0, h0, drained + [action], tokenActions);
        if p {
          return true, [];
        }
        drained := drained + [action];
        history := history + events;
      }
      assert old(tokenActions) == drained;
      return false, history;
    }
  }

  /** Draining one more action extends the run. */
  lemma RunOne(s0: State, h0: Index, drained: seq<TokenAction>, s: State, h: Index, log: seq<HistoryAction>, a: TokenAction)
    requires Run(s0, h0, drained) == Done(s, h, log)
    ensures Run(s0, h0, drained + [a]) ==
            match Step(s, h, a)
            case Panic => Panic
            case Done(s1, h1, log1) => Done(s1, h1, log + log1)
  {
    RunAppend(s0, h0, drained, [a]);
    assert [a][1..] == [];
    match Step(s, h, a) {
      case Panic =>
      case Done(s1, h1, log1) => assert log1 + [] == log1;
    }
  }
}
