/** Running a block's actions on only the loaded tokens, accounts and transfers, and writing them
    back, is running them on the whole ledger. */
module CacheRefinement {
  import opened Base
  import opened Ledger
  import opened LedgerInvariants
  import opened LogReplay

  // ---- the tables and what the cache loads of them ----

  datatype AddressLocation = AddressLocation(address: FullHash, location: Location)

  datatype Tables = Tables(
    metas: map<LowerTick, TokenMeta>,
    balances: map<AddressToken, TokenBalance>,
    transfers: map<AddressLocation, TransferProto>)

  /** No location holds transfers of two senders. */
  ghost predicate OneOwner(transfers: map<AddressLocation, TransferProto>)
  {
    forall x, y :: x in transfers && y in transfers && x.location == y.location ==> x == y
  }

  ghost function ByLocation(transfers: map<AddressLocation, TransferProto>): map<Location, ValidTransfer>
    requires OneOwner(transfers)
  {
    map x | x in transfers :: x.location := ValidTransfer(x.address, transfers[x])
  }

  /** The whole ledger as one state, with the records the parser collected. */
  ghost function Whole(g: Tables, all: map<Location, TransferProto>): State
    requires OneOwner(g.transfers)
  {
    State(g.metas, g.balances, all, ByLocation(g.transfers))
  }

  /** The transfers found under the script hash and outpoint of each spent output. */
  function LoadTransfers(transfers: map<AddressLocation, TransferProto>, prevouts: map<OutPoint, TxPrevout>): map<Location, ValidTransfer>
  {
    map x | x in transfers && x.location.outpoint in prevouts && prevouts[x.location.outpoint].scriptHash == x.address
      :: x.location := ValidTransfer(x.address, transfers[x])
  }

  function Protos(valid: map<Location, ValidTransfer>): map<Location, TransferProto>
  {
    map l | l in valid :: valid[l].proto
  }

  /** The record `fill_tickers_and_users` consults for a spent transfer: parsed first, loaded second. */
  function RecordFor(all: map<Location, TransferProto>, valid: map<Location, ValidTransfer>, l: Location): Option<TransferProto>
  {
    if l in all then Some(all[l])
    else if l in valid then Some(valid[l].proto)
    else None
  }

  function TickersOf(a: TokenAction, all: map<Location, TransferProto>, valid: map<Location, ValidTransfer>): set<LowerTick>
  {
    match a
    case Deploy(_, p, _) => {p.tick.lower}
    case Mint(_, tick, _, _, _) => {tick.lower}
    case Transfer(_, _, tick, _, _, _) => {tick.lower}
    case Transferred(l, _, _, _) =>
      match RecordFor(all, valid, l)
      case Some(p) => {p.tick.lower}
      case None => {}
  }

  function UsersOf(a: TokenAction, all: map<Location, TransferProto>, valid: map<Location, ValidTransfer>): set<AddressToken>
  {
    match a
    case Deploy(_, _, _) => {}
    case Mint(owner, tick, _, _, _) => {AddressToken(owner, tick)}
    case Transfer(_, owner, tick, _, _, _) => {AddressToken(owner, tick)}
    case Transferred(l, recipient, _, _) =>
      match RecordFor(all, valid, l)
      case Some(p) =>
        (if recipient != OP_RETURN_HASH then {AddressToken(recipient, p.tick)} else {})
        + (if l in valid then {AddressToken(valid[l].owner, p.tick)} else {})
      case None => {}
  }

  function Tickers(actions: seq<TokenAction>, all: map<Location, TransferProto>, valid: map<Location, ValidTransfer>): set<LowerTick>
  {
    if actions == [] then {}
    else Tickers(actions[..|actions| - 1], all, valid) + TickersOf(actions[|actions| - 1], all, valid)
  }

  function Users(actions: seq<TokenAction>, all: map<Location, TransferProto>, valid: map<Location, ValidTransfer>): set<AddressToken>
  {
    if actions == [] then {}
    else Users(actions[..|actions| - 1], all, valid) + UsersOf(actions[|actions| - 1], all, valid)
  }

  function LoadTokens(metas: map<LowerTick, TokenMeta>, tickers: set<LowerTick>): map<LowerTick, TokenMeta>
  {
    map k | k in metas && k in tickers :: metas[k]
  }

  /** The users' accounts, keyed by the tick as deployed; users of unknown ticks have none. */
  function AccountKeys(tokens: map<LowerTick, TokenMeta>, users: set<AddressToken>): set<AddressToken>
  {
    set u | u in users && u.token.lower in tokens :: AddressToken(u.address, tokens[u.token.lower].proto.tick)
  }

  function LoadAccounts(balances: map<AddressToken, TokenBalance>, keys: set<AddressToken>): map<AddressToken, TokenBalance>
  {
    map k | k in balances && k in keys :: balances[k]
  }

  /** The cache as it stands when the actions of a block start draining. */
  function LoadedCache(g: Tables, prevouts: map<OutPoint, TxPrevout>, all: map<Location, TransferProto>, actions: seq<TokenAction>): State
  {
    var valid := LoadTransfers(g.transfers, prevouts);
    var tokens := LoadTokens(g.metas, Tickers(actions, all, valid));
    State(tokens, LoadAccounts(g.balances, AccountKeys(tokens, Users(actions, all, valid))), all, valid)
  }

  function TransferKeys(valid: map<Location, ValidTransfer>): set<AddressLocation>
  {
    set l | l in valid :: AddressLocation(valid[l].owner, l)
  }

  function TransferRows(valid: map<Location, ValidTransfer>): map<AddressLocation, TransferProto>
  {
    map x | x in TransferKeys(valid) :: valid[x.location].proto
  }

  /** The block's table writes: loaded transfers removed, then everything the cache holds written. */
  function WriteBack(g: Tables, loaded: map<Location, ValidTransfer>, c: State): Tables
  {
    Tables(g.metas + c.tokens, g.balances + c.accounts, (g.transfers - TransferKeys(loaded)) + TransferRows(c.valid))
  }

  // ---- a cache over the rest of the ledger ----

  /** The ledger seen through a cache: cached rows win. */
  function Overlay(b: State, c: State): State
  {
    State(b.tokens + c.tokens, b.accounts + c.accounts, c.all, b.valid + c.valid)
  }

  function Lift(b: State, o: Outcome): Outcome
  {
    match o
    case Panic => Panic
    case Done(s, h, log) => Done(Overlay(b, s), h, log)
  }

  ghost predicate TickCovered(b: State, c: State, k: LowerTick)
  {
    k in b.tokens ==> k in c.tokens
  }

  ghost predicate UserCovered(b: State, c: State, address: FullHash, k: LowerTick)
  {
    forall key :: key in b.accounts && key.address == address && key.token.lower == k ==> key in c.accounts
  }

  /** Everything action `a` may read or overwrite is in the cache if it exists at all. */
  ghost predicate Covered(b: State, c: State, a: TokenAction)
  {
    match a
    case Deploy(_, p, _) => TickCovered(b, c, p.tick.lower)
    case Mint(owner, tick, _, _, _) => TickCovered(b, c, tick.lower) && UserCovered(b, c, owner, tick.lower)
    case Transfer(l, owner, tick, _, _, _) =>
      && TickCovered(b, c, tick.lower) && UserCovered(b, c, owner, tick.lower)
      && l !in b.valid
      && (l in c.all ==> c.all[l].tick.lower == tick.lower)
    case Transferred(l, recipient, _, _) =>
      && l !in b.valid
      && (l in c.valid ==>
            var k := c.valid[l].proto.tick.lower;
            && TickCovered(b, c, k) && UserCovered(b, c, c.valid[l].owner, k)
            && (recipient != OP_RETURN_HASH ==> UserCovered(b, c, recipient, k)))
      && (l in c.all ==>
            var k := c.all[l].tick.lower;
            TickCovered(b, c, k) && (recipient != OP_RETURN_HASH ==> UserCovered(b, c, recipient, k)))
  }

  lemma OverlaySet<K, V>(b: map<K, V>, c: map<K, V>, k: K, v: V)
    ensures (b + c)[k := v] == b + c[k := v]
  {
  }

  lemma OverlayCredit(b: map<AddressToken, TokenBalance>, c: map<AddressToken, TokenBalance>, key: AddressToken, amt: nat)
    requires key in b ==> key in c
    ensures Credit(b + c, key, amt) == b + Credit(c, key, amt)
    ensures TotalOf(b + c, key) == TotalOf(c, key)
  {
    OverlaySet(b, c, key, Credit(c, key, amt)[key]);
  }

  lemma OverlayLock(b: map<AddressToken, TokenBalance>, c: map<AddressToken, TokenBalance>, key: AddressToken, amt: nat)
    requires key in c && amt <= c[key].balance
    ensures Lock(b + c, key, amt) == b + Lock(c, key, amt)
  {
    OverlaySet(b, c, key, Lock(c, key, amt)[key]);
  }

  lemma OverlayUnlock(b: map<AddressToken, TokenBalance>, c: map<AddressToken, TokenBalance>, key: AddressToken, amt: nat)
    requires key in c && amt <= c[key].transferable && 0 < c[key].transfers
    ensures Unlock(b + c, key, amt) == b + Unlock(c, key, amt)
  {
    OverlaySet(b, c, key, Unlock(c, key, amt)[key]);
  }

  lemma OverlayCountMint(b: map<LowerTick, TokenMeta>, c: map<LowerTick, TokenMeta>, k: LowerTick, amt: nat)
    requires k in c
    ensures CountMint(b + c, k, amt) == b + CountMint(c, k, amt)
  {
    OverlaySet(b, c, k, CountMint(c, k, amt)[k]);
  }

  lemma OverlayCountTransfer(b: map<LowerTick, TokenMeta>, c: map<LowerTick, TokenMeta>, k: LowerTick)
    requires k in c
    ensures CountTransfer(b + c, k) == b + CountTransfer(c, k)
  {
    OverlaySet(b, c, k, CountTransfer(c, k)[k]);
  }

  lemma OverlayCountSend(b: map<LowerTick, TokenMeta>, c: map<LowerTick, TokenMeta>, k: LowerTick)
    requires k in c
    ensures CountSend(b + c, k) == b + CountSend(c, k)
  {
    OverlaySet(b, c, k, CountSend(c, k)[k]);
  }

  lemma OverlayRemove(b: map<Location, ValidTransfer>, c: map<Location, ValidTransfer>, l: Location)
    requires l !in b
    ensures (b + c) - {l} == b + (c - {l})
  {
  }

  lemma DoMintRefines(b: State, c: State, h: Index, k: LowerTick, key: AddressToken, amt: nat, txid: nat, vout: nat)
    requires k in c.tokens && (key in b.accounts ==> key in c.accounts)
    ensures DoMint(Overlay(b, c), h, k, key, amt, txid, vout) == Lift(b, DoMint(c, h, k, key, amt, txid, vout))
  {
    OverlayCountMint(b.tokens, c.tokens, k, amt);
    OverlayCredit(b.accounts, c.accounts, key, amt);
  }

  lemma MintRefines(b: State, c: State, h: Index, a: TokenAction)
    requires a.Mint? && Folded(c) && Covered(b, c, a)
    ensures StepMint(Overlay(b, c), h, a) == Lift(b, StepMint(c, h, a))
  {
    hide DoMint;
    if a.tick.lower in c.tokens {
      var p := c.tokens[a.tick.lower].proto;
      if p.supply <= p.max {
        DoMintRefines(b, c, h, a.tick.lower, AddressToken(a.owner, p.tick), Min(a.amt.units, p.max - p.supply), a.txid, a.vout);
      }
    }
  }

  lemma TransferRefines(b: State, c: State, h: Index, a: TokenAction)
    requires a.Transfer? && Folded(c) && Covered(b, c, a)
    ensures StepTransfer(Overlay(b, c), h, a) == Lift(b, StepTransfer(c, h, a))
  {
    hide CountTransfer, Lock;
    if a.tick.lower in c.tokens && a.location in c.all {
      var p := c.tokens[a.tick.lower].proto;
      var key := AddressToken(a.owner, p.tick);
      OverlayCountTransfer(b.tokens, c.tokens, a.tick.lower);
      if key in c.accounts && a.amt.units <= c.accounts[key].balance {
        OverlayLock(b.accounts, c.accounts, key, a.amt.units);
        var v := ValidTransfer(a.owner, c.all[a.location].(tick := p.tick));
        OverlaySet(b.valid, c.valid, a.location, v);
      }
    }
  }

  lemma UnlockKeys(accounts: map<AddressToken, TokenBalance>, key: AddressToken, amt: nat)
    requires key in accounts && amt <= accounts[key].transferable && 0 < accounts[key].transfers
    ensures Unlock(accounts, key, amt).Keys == accounts.Keys
  {
  }

  lemma SendRefines(b: State, c: State, h: Index, a: TokenAction)
    requires a.Transferred? && a.location in c.valid && a.location !in b.valid && c.valid[a.location].proto.tick.lower in c.tokens
    requires var v := c.valid[a.location]; var tick := c.tokens[v.proto.tick.lower].proto.tick;
             && (AddressToken(v.owner, tick) in b.accounts ==> AddressToken(v.owner, tick) in c.accounts)
             && (a.recipient != OP_RETURN_HASH && AddressToken(a.recipient, tick) in b.accounts ==> AddressToken(a.recipient, tick) in c.accounts)
    ensures StepTransferred(Overlay(b, c), h, a) == Lift(b, StepTransferred(c, h, a))
  {
    hide CountSend, Unlock, Credit, Increase, Decrease, TotalOf;
    var v := c.valid[a.location];
    var k := v.proto.tick.lower;
    var tick := c.tokens[k].proto.tick;
    var from := AddressToken(v.owner, tick);
    OverlayRemove(b.valid, c.valid, a.location);
    OverlayCountSend(b.tokens, c.tokens, k);
    if from in c.accounts && 0 < c.accounts[from].transfers && v.proto.amt <= c.accounts[from].transferable {
      OverlayUnlock(b.accounts, c.accounts, from, v.proto.amt);
      UnlockKeys(c.accounts, from, v.proto.amt);
      if a.recipient != OP_RETURN_HASH {
        OverlayCredit(b.accounts, Unlock(c.accounts, from, v.proto.amt), AddressToken(a.recipient, tick), v.proto.amt);
      }
    }
  }

  lemma TransferredRefines(b: State, c: State, h: Index, a: TokenAction)
    requires a.Transferred? && Folded(c) && Covered(b, c, a)
    ensures StepTransferred(Overlay(b, c), h, a) == Lift(b, StepTransferred(c, h, a))
  {
    if a.location in c.valid && c.valid[a.location].proto.tick.lower in c.tokens {
      hide StepTransferred;
      SendRefines(b, c, h, a);
    }
  }

  lemma StepRefines(b: State, c: State, h: Index, a: TokenAction)
    requires Folded(c) && Covered(b, c, a)
    ensures Step(Overlay(b, c), h, a) == Lift(b, Step(c, h, a))
  {
    match a {
      case Deploy(genesis, p, _) =>
        if p.tick.lower !in c.tokens {
          var m := TokenMeta(genesis, p);
          OverlaySet(b.tokens, c.tokens, p.tick.lower, m);
        }
      case Mint(_, _, _, _, _) => MintRefines(b, c, h, a);
      case Transfer(_, _, _, _, _, _) => TransferRefines(b, c, h, a);
      case Transferred(_, _, _, _) => TransferredRefines(b, c, h, a);
    }
  }

  // ---- coverage is kept, so whole batches refine ----

  /** The cache and the rest of the ledger fit together. */
  ghost predicate Fits(b: State, c: State, pending: seq<TokenAction>)
  {
    && Folded(c)
    && b.valid.Keys !! c.valid.Keys
    && forall i :: 0 <= i < |pending| ==> Covered(b, c, pending[i])
  }

  /** What is covered stays covered while the cache only grows in tokens and accounts, and a transfer
      joins the cache only under a tick that was covered. */
  lemma CoverGrows(b: State, c: State, c': State, a: TokenAction, x: TokenAction)
    requires Covered(b, c, a) && Covered(b, c, x)
    requires c.tokens.Keys <= c'.tokens.Keys && c.accounts.Keys <= c'.accounts.Keys
    requires forall l :: l in c'.all ==> l in c.all && c'.all[l] == c.all[l]
    requires forall l :: l in c'.valid ==>
               (l in c.valid && c'.valid[l] == c.valid[l])
               || (a.Transfer? && l == a.location && l in c.all && c'.valid[l].owner == a.owner && c'.valid[l].proto.tick.lower == a.tick.lower)
    ensures Covered(b, c', x)
  {
  }

  lemma CoverStays(b: State, c: State, h: Index, a: TokenAction, x: TokenAction)
    requires Folded(c) && Covered(b, c, a) && Covered(b, c, x) && Step(c, h, a).Done?
    ensures Covered(b, Step(c, h, a).state, x)
  {
    hide Covered, Increase, Decrease;
    CoverGrows(b, c, Step(c, h, a).state, a, x);
  }

  lemma ShapeStays(b: State, c: State, h: Index, a: TokenAction)
    requires Folded(c) && b.valid.Keys !! c.valid.Keys && Covered(b, c, a) && Step(c, h, a).Done?
    ensures Folded(Step(c, h, a).state) && b.valid.Keys !! Step(c, h, a).state.valid.Keys
  {
  }

  lemma FitsStays(b: State, c: State, h: Index, actions: seq<TokenAction>)
    requires actions != [] && Fits(b, c, actions) && Step(c, h, actions[0]).Done?
    ensures Fits(b, Step(c, h, actions[0]).state, actions[1..])
  {
    hide Covered, Step, Folded;
    assert Covered(b, c, actions[0]);
    ShapeStays(b, c, h, actions[0]);
    forall i | 0 <= i < |actions[1..]| ensures Covered(b, Step(c, h, actions[0]).state, actions[1..][i]) {
      CoverStays(b, c, h, actions[0], actions[i + 1]);
    }
  }

  /** Draining a batch in the cache is draining it on the whole ledger: same panic, same log, same
      index, and the cache laid over the rest is the ledger's own result. */
  lemma {:induction false} RunRefines(b: State, c: State, h: Index, actions: seq<TokenAction>)
    requires Fits(b, c, actions)
    ensures Run(Overlay(b, c), h, actions) == Lift(b, Run(c, h, actions))
    ensures Run(c, h, actions).Done? ==> Fits(b, Run(c, h, actions).state, [])
    decreases |actions|
  {
    if actions != [] {
      assert Covered(b, c, actions[0]);
      StepRefines(b, c, h, actions[0]);
      match Step(c, h, actions[0]) {
        case Panic =>
        case Done(c1, h1, _) =>
          FitsStays(b, c, h, actions);
          RunRefines(b, c1, h1, actions[1..]);
      }
    }
  }

  // ---- loading covers the batch, writing back closes the circle ----

  /** What the block parser hands over: loaded transfers are among the records, new transfers sit at
      fresh locations under their own record, and a move names a loaded or a fresh location. */
  ghost predicate BatchFits(g: Tables, prevouts: map<OutPoint, TxPrevout>, all: map<Location, TransferProto>, actions: seq<TokenAction>)
    requires OneOwner(g.transfers)
  {
    var valid := LoadTransfers(g.transfers, prevouts);
    var whole := ByLocation(g.transfers);
    && (forall l :: l in valid ==> l in all && all[l] == valid[l].proto)
    && (forall i :: 0 <= i < |actions| && actions[i].Transfer? ==>
          actions[i].location !in whole
          && (actions[i].location in all ==> all[actions[i].location].tick.lower == actions[i].tick.lower))
    && (forall i :: 0 <= i < |actions| && actions[i].Transferred? ==>
          actions[i].location in valid || actions[i].location !in whole)
  }

  /** The part of the ledger the cache leaves in the tables. */
  ghost function Rest(g: Tables, prevouts: map<OutPoint, TxPrevout>): State
    requires OneOwner(g.transfers)
  {
    State(g.metas, g.balances, map[], ByLocation(g.transfers) - LoadTransfers(g.transfers, prevouts).Keys)
  }

  lemma {:induction false} TickersCover(actions: seq<TokenAction>, all: map<Location, TransferProto>, valid: map<Location, ValidTransfer>, i: nat)
    requires i < |actions|
    ensures TickersOf(actions[i], all, valid) <= Tickers(actions, all, valid)
    ensures UsersOf(actions[i], all, valid) <= Users(actions, all, valid)
    decreases |actions|
  {
    if i < |actions| - 1 {
      TickersCover(actions[..|actions| - 1], all, valid, i);
    }
  }

  lemma LoadedOverlay(g: Tables, prevouts: map<OutPoint, TxPrevout>, all: map<Location, TransferProto>, actions: seq<TokenAction>)
    requires OneOwner(g.transfers)
    ensures Overlay(Rest(g, prevouts), LoadedCache(g, prevouts, all, actions)) == Whole(g, all)
  {
    hide Tickers, Users, AccountKeys;
    var b, c := Rest(g, prevouts), LoadedCache(g, prevouts, all, actions);
    Submap(g.metas, c.tokens);
    Submap(g.balances, c.accounts);
    Submap(ByLocation(g.transfers), c.valid);
  }

  lemma Submap<K, V>(m: map<K, V>, sub: map<K, V>)
    requires forall k :: k in sub ==> k in m && m[k] == sub[k]
    ensures m + sub == m
    ensures (m - sub.Keys) + sub == m
  {
  }

  /** A user whose tick is loaded has all its accounts of that tick loaded. */
  lemma UserLoaded(g: Tables, prevouts: map<OutPoint, TxPrevout>, all: map<Location, TransferProto>, actions: seq<TokenAction>, u: AddressToken)
    requires OneOwner(g.transfers) && AccountsOk(Whole(g, all))
    requires var valid := LoadTransfers(g.transfers, prevouts);
             u in Users(actions, all, valid) && u.token.lower in Tickers(actions, all, valid)
    ensures var b, c := Rest(g, prevouts), LoadedCache(g, prevouts, all, actions);
            TickCovered(b, c, u.token.lower) && UserCovered(b, c, u.address, u.token.lower)
  {
    var b, c := Rest(g, prevouts), LoadedCache(g, prevouts, all, actions);
    forall key | key in b.accounts && key.address == u.address && key.token.lower == u.token.lower ensures key in c.accounts {
      assert Known(Whole(g, all), key.token);
      assert c.tokens[u.token.lower].proto.tick == key.token;
    }
  }

  lemma ActionLoaded(g: Tables, prevouts: map<OutPoint, TxPrevout>, all: map<Location, TransferProto>, actions: seq<TokenAction>, i: nat)
    requires OneOwner(g.transfers) && AccountsOk(Whole(g, all)) && BatchFits(g, prevouts, all, actions) && i < |actions|
    ensures Covered(Rest(g, prevouts), LoadedCache(g, prevouts, all, actions), actions[i])
  {
    hide Tickers, Users, UserCovered, AccountsOk;
    TickersCover(actions, all, LoadTransfers(g.transfers, prevouts), i);
    match actions[i] {
      case Deploy(_, _, _) =>
      case Mint(owner, tick, _, _, _) =>
        UserLoaded(g, prevouts, all, actions, AddressToken(owner, tick));
      case Transfer(_, owner, tick, _, _, _) =>
        UserLoaded(g, prevouts, all, actions, AddressToken(owner, tick));
      case Transferred(l, recipient, _, _) =>
        if l in all {
          if recipient != OP_RETURN_HASH {
            UserLoaded(g, prevouts, all, actions, AddressToken(recipient, all[l].tick));
          }
          if l in LoadTransfers(g.transfers, prevouts) {
            UserLoaded(g, prevouts, all, actions, AddressToken(LoadTransfers(g.transfers, prevouts)[l].owner, all[l].tick));
          }
        }
    }
  }

  lemma LoadedFits(g: Tables, prevouts: map<OutPoint, TxPrevout>, all: map<Location, TransferProto>, actions: seq<TokenAction>)
    requires OneOwner(g.transfers) && AccountsOk(Whole(g, all)) && Folded(Whole(g, all)) && BatchFits(g, prevouts, all, actions)
    ensures Fits(Rest(g, prevouts), LoadedCache(g, prevouts, all, actions), actions)
  {
    forall i | 0 <= i < |actions| ensures Covered(Rest(g, prevouts), LoadedCache(g, prevouts, all, actions), actions[i]) {
      ActionLoaded(g, prevouts, all, actions, i);
    }
  }

  /** A transfer table is the table of `m` when its rows are exactly the entries of `m`. */
  lemma ByLocationIs(transfers: map<AddressLocation, TransferProto>, m: map<Location, ValidTransfer>)
    requires forall x :: x in transfers ==> x.location in m && m[x.location] == ValidTransfer(x.address, transfers[x])
    requires forall l :: l in m ==> AddressLocation(m[l].owner, l) in transfers
    ensures OneOwner(transfers) && ByLocation(transfers) == m
  {
    forall x, y | x in transfers && y in transfers && x.location == y.location ensures x == y {
      assert x.address == m[x.location].owner == y.address;
    }
    forall l | l in m ensures l in ByLocation(transfers) && ByLocation(transfers)[l] == m[l] {
      var x := AddressLocation(m[l].owner, l);
      assert x in transfers && x.location == l;
    }
  }

  lemma TransferKeysAre(valid: map<Location, ValidTransfer>, x: AddressLocation)
    ensures x in TransferKeys(valid) <==> x.location in valid && valid[x.location].owner == x.address
  {
    assert x == AddressLocation(x.address, x.location);
  }

  lemma WriteBackWhole(g: Tables, prevouts: map<OutPoint, TxPrevout>, c: State)
    requires OneOwner(g.transfers) && Rest(g, prevouts).valid.Keys !! c.valid.Keys
    ensures var g' := WriteBack(g, LoadTransfers(g.transfers, prevouts), c);
            OneOwner(g'.transfers) && Whole(g', c.all) == Overlay(Rest(g, prevouts), c)
  {
    hide TransferKeys;
    var loaded := LoadTransfers(g.transfers, prevouts);
    var b := Rest(g, prevouts).valid;
    var rows := WriteBack(g, loaded, c).transfers;
    forall x | x in rows ensures x.location in b + c.valid && (b + c.valid)[x.location] == ValidTransfer(x.address, rows[x]) {
      TransferKeysAre(c.valid, x);
      TransferKeysAre(loaded, x);
      KeptRow(g, prevouts, x);
    }
    forall l | l in b + c.valid ensures AddressLocation((b + c.valid)[l].owner, l) in rows {
      var x := AddressLocation((b + c.valid)[l].owner, l);
      TransferKeysAre(c.valid, x);
      TransferKeysAre(loaded, x);
      KeptRow(g, prevouts, x);
    }
    ByLocationIs(rows, b + c.valid);
  }

  /** A row survives the removal of the loaded transfers exactly when the cache left it behind. */
  lemma KeptRow(g: Tables, prevouts: map<OutPoint, TxPrevout>, x: AddressLocation)
    requires OneOwner(g.transfers)
    ensures var loaded, b := LoadTransfers(g.transfers, prevouts), Rest(g, prevouts).valid;
            && ((x in g.transfers && !(x.location in loaded && loaded[x.location].owner == x.address)) ==>
                  (x.location in b && b[x.location] == ValidTransfer(x.address, g.transfers[x])))
            && ((x.location in b && b[x.location].owner == x.address) ==> (x in g.transfers && x.location !in loaded))
  {
    var whole := ByLocation(g.transfers);
    if x in g.transfers {
      assert whole[x.location] == ValidTransfer(x.address, g.transfers[x]);
    }
  }

  /** The main result: the block's cache run reaches the same tables, the same history and the same
      holder index as the whole ledger would, and panics exactly when it would. */
  lemma BlockRefines(g: Tables, prevouts: map<OutPoint, TxPrevout>, all: map<Location, TransferProto>, actions: seq<TokenAction>, h: Index)
    requires OneOwner(g.transfers) && AccountsOk(Whole(g, all)) && Folded(Whole(g, all)) && BatchFits(g, prevouts, all, actions)
    ensures match Run(LoadedCache(g, prevouts, all, actions), h, actions)
            case Panic => Run(Whole(g, all), h, actions).Panic?
            case Done(c, h', log) =>
              var g' := WriteBack(g, LoadTransfers(g.transfers, prevouts), c);
              OneOwner(g'.transfers) && Run(Whole(g, all), h, actions) == Done(Whole(g', c.all), h', log)
  {
    hide LoadedCache, Rest, Whole, WriteBack;
    LoadedOverlay(g, prevouts, all, actions);
    LoadedFits(g, prevouts, all, actions);
    RunRefines(Rest(g, prevouts), LoadedCache(g, prevouts, all, actions), h, actions);
    match Run(LoadedCache(g, prevouts, all, actions), h, actions) {
      case Panic =>
      case Done(c, _, _) => WriteBackWhole(g, prevouts, c);
    }
  }
}
