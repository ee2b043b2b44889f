/** The token ledger as a step function: what one drained action does to the cache's tables, to the
    holder index and to the returned log. Every `expect`, `unwrap`, `panic!` and unsigned
    subtraction of the source that can fail is an explicit `Panic` outcome. */
module Ledger {
  import opened Base

  /** The largest protocol amount: u64::MAX whole tokens in units of 10^-18. */
  const MAX_AMOUNT: nat := 0xFFFF_FFFF_FFFF_FFFF * 1_000_000_000_000_000_000

  /** A decimal amount: its value in units of 10^-18 and the number of digits `scale()` reports. */
  datatype Amount = Amount(units: nat, scale: nat)

  datatype DeployProto = DeployProto(
    tick: Tick, max: nat, lim: nat, dec: nat, supply: nat, transferCount: nat, mintCount: nat,
    height: nat, created: nat, deployer: FullHash, transactions: nat)

  datatype TokenMeta = TokenMeta(genesis: OutPoint, proto: DeployProto)

  datatype TokenBalance = TokenBalance(balance: nat, transferable: nat, transfers: nat)
  {
    function Total(): nat {
      balance + transferable
    }
  }

  datatype AddressToken = AddressToken(address: FullHash, token: Tick)

  datatype TransferProto = TransferProto(tick: Tick, amt: nat, height: nat)

  /** An outstanding transfer: its sender and the recorded prototype. */
  datatype ValidTransfer = ValidTransfer(owner: FullHash, proto: TransferProto)
  {
    function Key(): AddressToken {
      AddressToken(owner, proto.tick)
    }
  }

  datatype TokenAction =
    | Deploy(genesis: OutPoint, proto: DeployProto, owner: FullHash)
    | Mint(owner: FullHash, tick: Tick, amt: Amount, txid: nat, vout: nat)
    | Transfer(location: Location, owner: FullHash, tick: Tick, amt: Amount, txid: nat, vout: nat)
    | Transferred(location: Location, recipient: FullHash, txid: nat, vout: nat)

  datatype HistoryAction =
    | DeployEvent(tick: Tick, max: nat, lim: nat, dec: nat, recipient: FullHash, txid: nat, vout: nat)
    | MintEvent(tick: Tick, amt: nat, recipient: FullHash, txid: nat, vout: nat)
    | DeployTransferEvent(tick: Tick, amt: nat, recipient: FullHash, txid: nat, vout: nat)
    | SendEvent(tick: Tick, amt: nat, recipient: FullHash, sender: FullHash, txid: nat, vout: nat)

  /** The tables a `TokenCache` works on. */
  datatype State = State(
    tokens: map<LowerTick, TokenMeta>,
    accounts: map<AddressToken, TokenBalance>,
    all: map<Location, TransferProto>,
    valid: map<Location, ValidTransfer>)

  /** A holder, as the sorted set stores it. */
  datatype SortedByBalance = SortedByBalance(total: nat, address: FullHash)

  /** The holder index: per tick the sorted set of holders and their number. */
  datatype Index = Index(balances: map<Tick, set<SortedByBalance>>, stats: map<Tick, nat>)

  datatype Outcome =
    | Panic
    | Done(state: State, index: Index, log: seq<HistoryAction>)

  function Get<K, V>(m: map<K, V>, k: K, default: V): V
  {
    if k in m then m[k] else default
  }

  // ---- holder index ----

  /** `total` is the holder's total before the change: balance plus transferable balance. */
  function Increase(h: Index, key: AddressToken, total: nat, amt: nat): Index
  {
    var v := Get(h.balances, key.token, {});
    var entry := SortedByBalance(total, key.address);
    Index(
      h.balances[key.token := v - {entry} + {SortedByBalance(total + amt, key.address)}],
      if entry in v then h.stats else h.stats[key.token := Get(h.stats, key.token, 0) + 1])
  }

  function Decrease(h: Index, key: AddressToken, total: nat, amt: nat): Option<Index>
  {
    var v := Get(h.balances, key.token, {}) - {SortedByBalance(total, key.address)};
    if total < amt then
      None
    else if total != amt then
      Some(h.(balances := h.balances[key.token := v + {SortedByBalance(total - amt, key.address)}]))
    else if key.token !in h.stats then
      Some(h.(balances := h.balances[key.token := v]))
    else if h.stats[key.token] == 0 then
      None
    else
      Some(Index(h.balances[key.token := v], h.stats[key.token := h.stats[key.token] - 1]))
  }

  // ---- what actions do to one account and to one token ----

  /** Balance plus transferable balance, zero for an account that does not exist. */
  function TotalOf(accounts: map<AddressToken, TokenBalance>, key: AddressToken): nat
  {
    if key in accounts then accounts[key].Total() else 0
  }

  /** `entry(key).or_default().balance += amt` */
  function Credit(accounts: map<AddressToken, TokenBalance>, key: AddressToken, amt: nat): map<AddressToken, TokenBalance>
  {
    accounts[key := if key in accounts
                    then TokenBalance(accounts[key].balance + amt, accounts[key].transferable, accounts[key].transfers)
                    else TokenBalance(amt, 0, 0)]
  }

  /** Moves `amt` from the balance into a new outstanding transfer. */
  function Lock(accounts: map<AddressToken, TokenBalance>, key: AddressToken, amt: nat): map<AddressToken, TokenBalance>
    requires key in accounts && amt <= accounts[key].balance
  {
    var acc := accounts[key];
    accounts[key := TokenBalance(acc.balance - amt, acc.transferable + amt, acc.transfers + 1)]
  }

  /** Takes a spent transfer off its sender. */
  function Unlock(accounts: map<AddressToken, TokenBalance>, key: AddressToken, amt: nat): map<AddressToken, TokenBalance>
    requires key in accounts && amt <= accounts[key].transferable && 0 < accounts[key].transfers
  {
    var acc := accounts[key];
    accounts[key := TokenBalance(acc.balance, acc.transferable - amt, acc.transfers - 1)]
  }

  function CountMint(tokens: map<LowerTick, TokenMeta>, k: LowerTick, amt: nat): map<LowerTick, TokenMeta>
    requires k in tokens
  {
    var p := tokens[k].proto;
    tokens[k := tokens[k].(proto := p.(supply := p.supply + amt, mintCount := p.mintCount + 1, transactions := p.transactions + 1))]
  }

  function CountTransfer(tokens: map<LowerTick, TokenMeta>, k: LowerTick): map<LowerTick, TokenMeta>
    requires k in tokens
  {
    var p := tokens[k].proto;
    tokens[k := tokens[k].(proto := p.(transferCount := p.transferCount + 1, transactions := p.transactions + 1))]
  }

  function CountSend(tokens: map<LowerTick, TokenMeta>, k: LowerTick): map<LowerTick, TokenMeta>
    requires k in tokens
  {
    var p := tokens[k].proto;
    tokens[k := tokens[k].(proto := p.(transactions := p.transactions + 1))]
  }

  // ---- one action ----

  function Min(a: nat, b: nat): nat
  {
    if a <= b then a else b
  }

  function Skip(s: State, h: Index): Outcome
  {
    Done(s, h, [])
  }

  function StepDeploy(s: State, h: Index, a: TokenAction): Outcome
    requires a.Deploy?
  {
    var p := a.proto;
    if p.tick.lower in s.tokens then Skip(s, h)
    else
      Done(s.(tokens := s.tokens[p.tick.lower := TokenMeta(a.genesis, p)]), h,
           [DeployEvent(p.tick, p.max, p.lim, p.dec, a.owner, a.genesis.txid, a.genesis.vout)])
  }

  function DoMint(s: State, h: Index, k: LowerTick, key: AddressToken, amt: nat, txid: nat, vout: nat): Outcome
    requires k in s.tokens
  {
    Done(State(CountMint(s.tokens, k, amt), Credit(s.accounts, key, amt), s.all, s.valid),
         Increase(h, key, TotalOf(s.accounts, key), amt),
         [MintEvent(key.token, amt, key.address, txid, vout)])
  }

  function StepMint(s: State, h: Index, a: TokenAction): Outcome
    requires a.Mint?
  {
    if a.tick.lower !in s.tokens then Skip(s, h)
    else
      var p := s.tokens[a.tick.lower].proto;
      if a.amt.scale > p.dec || p.lim < a.amt.units || p.supply == p.max then Skip(s, h)
      else if p.max < p.supply then Panic
      else DoMint(s, h, a.tick.lower, AddressToken(a.owner, p.tick), Min(a.amt.units, p.max - p.supply), a.txid, a.vout)
  }

  function StepTransfer(s: State, h: Index, a: TokenAction): Outcome
    requires a.Transfer?
  {
    if a.location !in s.all then Skip(s, h)
    else
      var s1 := s.(all := s.all - {a.location});
      if a.tick.lower !in s.tokens then Skip(s1, h)
      else
        var p := s.tokens[a.tick.lower].proto;
        var key := AddressToken(a.owner, p.tick);
        var amt := a.amt.units;
        if a.amt.scale > p.dec || key !in s.accounts || amt > s.accounts[key].balance then Skip(s1, h)
        else
          Done(State(CountTransfer(s.tokens, a.tick.lower), Lock(s.accounts, key, amt), s1.all,
                     s.valid[a.location := ValidTransfer(a.owner, s.all[a.location].(tick := p.tick))]),
               h,
               [DeployTransferEvent(p.tick, amt, a.owner, a.txid, a.vout)])
  }

  function StepTransferred(s: State, h: Index, a: TokenAction): Outcome
    requires a.Transferred?
  {
    if a.location !in s.valid then Skip(s, h)
    else
      var t := s.valid[a.location];
      var k := t.proto.tick.lower;
      var amt := t.proto.amt;
      if k !in s.tokens then Panic
      else
        var tick := s.tokens[k].proto.tick;
        var from := AddressToken(t.owner, tick);
        if from !in s.accounts || s.accounts[from].transfers == 0 || s.accounts[from].transferable < amt then Panic
        else
          var h1 := Decrease(h, from, s.accounts[from].Total(), amt);
          if h1.None? then Panic
          else
            var accounts1 := Unlock(s.accounts, from, amt);
            var s1 := State(CountSend(s.tokens, k), accounts1, s.all, s.valid - {a.location});
            var log := [SendEvent(tick, amt, a.recipient, t.owner, a.txid, a.vout)];
            if a.recipient == OP_RETURN_HASH then Done(s1, h1.value, log)
            else
              var to := AddressToken(a.recipient, tick);
              Done(s1.(accounts := Credit(accounts1, to, amt)),
                   Increase(h1.value, to, TotalOf(accounts1, to), amt), log)
  }

  function Step(s: State, h: Index, a: TokenAction): Outcome
  {
    match a
    case Deploy(_, _, _) => StepDeploy(s, h, a)
    case Mint(_, _, _, _, _) => StepMint(s, h, a)
    case Transfer(_, _, _, _, _, _) => StepTransfer(s, h, a)
    case Transferred(_, _, _, _) => StepTransferred(s, h, a)
  }

  function Run(s: State, h: Index, actions: seq<TokenAction>): Outcome
    decreases |actions|
  {
    if actions == [] then Skip(s, h)
    else
      match Step(s, h, actions[0])
      case Panic => Panic
      case Done(s1, h1, log1) =>
        match Run(s1, h1, actions[1..])
        case Panic => Panic
        case Done(s2, h2, log2) => Done(s2, h2, log1 + log2)
  }

  /** Running a batch in two pieces is running it whole: used by loops that drain left to right. */
  lemma {:induction false} RunAppend(s: State, h: Index, xs: seq<TokenAction>, ys: seq<TokenAction>)
    ensures Run(s, h, xs + ys) ==
            (match Run(s, h, xs)
             case Panic => Panic
             case Done(s1, h1, log1) =>
               match Run(s1, h1, ys)
               case Panic => Panic
               case Done(s2, h2, log2) => Done(s2, h2, log1 + log2))
    decreases |xs|
  {
    hide Step;
    if xs == [] {
      assert xs + ys == ys;
      match Run(s, h, ys) {
        case Panic =>
        case Done(s2, h2, log2) => assert [] + log2 == log2;
      }
    } else {
      assert (xs + ys)[1..] == xs[1..] + ys;
      match Step(s, h, xs[0]) {
        case Panic =>
        case Done(s1, h1, log1) =>
          RunAppend(s1, h1, xs[1..], ys);
          match Run(s1, h1, xs[1..]) {
            case Panic =>
            case Done(s2, h2, log2) =>
              match Run(s2, h2, ys) {
                case Panic =>
                case Done(s3, h3, log3) => assert log1 + log2 + log3 == log1 + (log2 + log3);
              }
          }
      }
    }
  }

  lemma RunThree(st: State, h: Index, actions: seq<TokenAction>)
    requires |actions| == 3 && Step(st, h, actions[0]).Done?
    requires var a := Step(st, h, actions[0]);
             Step(a.state, a.index, actions[1]).Done?
             && (var b := Step(a.state, a.index, actions[1]); Step(b.state, b.index, actions[2]).Done?)
    ensures var a := Step(st, h, actions[0]);
            var b := Step(a.state, a.index, actions[1]);
            var c := Step(b.state, b.index, actions[2]);
            Run(st, h, actions) == Done(c.state, c.index, a.log + (b.log + c.log))
  {
    hide Step;
    var a := Step(st, h, actions[0]);
    var b := Step(a.state, a.index, actions[1]);
    assert actions[1..][1..] == [actions[2]] && [actions[2]][1..] == [];
    assert Run(b.state, b.index, [actions[2]]) == Step(b.state, b.index, actions[2]) by {
      assert Step(b.state, b.index, actions[2]).log + [] == Step(b.state, b.index, actions[2]).log;
    }
  }
}
