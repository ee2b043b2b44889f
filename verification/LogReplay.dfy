/** The returned history is a complete log: folding it over the starting ledger gives the final one. */
module LogReplay {
  import opened Base
  import opened Ledger
  import opened LedgerInvariants

  /** A token as the log can rebuild it: everything but the block height and time of its deploy. */
  datatype TokenView = TokenView(
    txid: nat, vout: nat, tick: Tick, max: nat, lim: nat, dec: nat, supply: nat,
    transferCount: nat, mintCount: nat, deployer: FullHash, transactions: nat)

  datatype View = View(tokens: map<LowerTick, TokenView>, accounts: map<AddressToken, TokenBalance>)

  function ViewMeta(m: TokenMeta): TokenView
  {
    var p := m.proto;
    TokenView(m.genesis.txid, m.genesis.vout, p.tick, p.max, p.lim, p.dec, p.supply, p.transferCount, p.mintCount, p.deployer, p.transactions)
  }

  function ViewTokens(tokens: map<LowerTick, TokenMeta>): map<LowerTick, TokenView>
  {
    map k | k in tokens :: ViewMeta(tokens[k])
  }

  function ViewOf(s: State): View
  {
    View(ViewTokens(s.tokens), s.accounts)
  }

  // ---- a second ledger, driven by the log alone ----

  function Counted(tokens: map<LowerTick, TokenView>, k: LowerTick, minted: nat, mints: nat, transfers: nat): map<LowerTick, TokenView>
  {
    if k !in tokens then tokens
    else
      var p := tokens[k];
      tokens[k := p.(supply := p.supply + minted, mintCount := p.mintCount + mints,
                     transferCount := p.transferCount + transfers, transactions := p.transactions + 1)]
  }

  function ApplyEvent(v: View, e: HistoryAction): View
  {
    match e
    case DeployEvent(tick, max, lim, dec, recipient, txid, vout) =>
      v.(tokens := v.tokens[tick.lower := TokenView(txid, vout, tick, max, lim, dec, 0, 0, 0, recipient, 1)])
    case MintEvent(tick, amt, recipient, _, _) =>
      View(Counted(v.tokens, tick.lower, amt, 1, 0), Credit(v.accounts, AddressToken(recipient, tick), amt))
    case DeployTransferEvent(tick, amt, recipient, _, _) =>
      var key := AddressToken(recipient, tick);
      View(Counted(v.tokens, tick.lower, 0, 0, 1),
           if key in v.accounts && amt <= v.accounts[key].balance then Lock(v.accounts, key, amt) else v.accounts)
    case SendEvent(tick, amt, recipient, sender, _, _) =>
      var from := AddressToken(sender, tick);
      var accounts1 :=
        if from in v.accounts && amt <= v.accounts[from].transferable && 0 < v.accounts[from].transfers
        then Unlock(v.accounts, from, amt) else v.accounts;
      View(Counted(v.tokens, tick.lower, 0, 0, 0),
           if recipient == OP_RETURN_HASH then accounts1 else Credit(accounts1, AddressToken(recipient, tick), amt))
  }

  function Replay(v: View, log: seq<HistoryAction>): View
    decreases |log|
  {
    if log == [] then v else Replay(ApplyEvent(v, log[0]), log[1..])
  }

  lemma {:induction false} ReplayAppend(v: View, xs: seq<HistoryAction>, ys: seq<HistoryAction>)
    ensures Replay(v, xs + ys) == Replay(Replay(v, xs), ys)
    decreases |xs|
  {
    if xs == [] {
      assert xs + ys == ys;
    } else {
      assert (xs + ys)[1..] == xs[1..] + ys;
      ReplayAppend(ApplyEvent(v, xs[0]), xs[1..], ys);
    }
  }

  lemma ReplayOne(v: View, e: HistoryAction)
    ensures Replay(v, [e]) == ApplyEvent(v, e)
  {
    assert [e][1..] == [];
  }

  // ---- the log of a step rebuilds the step ----

  lemma ViewUpdate(tokens: map<LowerTick, TokenMeta>, k: LowerTick, m: TokenMeta)
    ensures ViewTokens(tokens[k := m]) == ViewTokens(tokens)[k := ViewMeta(m)]
  {
  }

  /** Every token sits under the fold of its tick. */
  ghost predicate Folded(s: State)
  {
    forall k :: k in s.tokens ==> s.tokens[k].proto.tick.lower == k
  }

  lemma MintReplays(s: State, h: Index, a: TokenAction)
    requires a.Mint? && Folded(s) && StepMint(s, h, a).Done? && StepMint(s, h, a).log != []
    ensures var o := StepMint(s, h, a); |o.log| == 1 && ApplyEvent(ViewOf(s), o.log[0]) == ViewOf(o.state)
  {
    ViewUpdate(s.tokens, a.tick.lower, StepMint(s, h, a).state.tokens[a.tick.lower]);
  }

  lemma TransferReplays(s: State, h: Index, a: TokenAction)
    requires a.Transfer? && Folded(s) && StepTransfer(s, h, a).log != []
    ensures var o := StepTransfer(s, h, a); |o.log| == 1 && ApplyEvent(ViewOf(s), o.log[0]) == ViewOf(o.state)
  {
    ViewUpdate(s.tokens, a.tick.lower, StepTransfer(s, h, a).state.tokens[a.tick.lower]);
  }

  lemma TransferredReplays(s: State, h: Index, a: TokenAction)
    requires a.Transferred? && Folded(s) && StepTransferred(s, h, a).Done? && StepTransferred(s, h, a).log != []
    ensures var o := StepTransferred(s, h, a); |o.log| == 1 && ApplyEvent(ViewOf(s), o.log[0]) == ViewOf(o.state)
  {
    var k := s.valid[a.location].proto.tick.lower;
    ViewUpdate(s.tokens, k, StepTransferred(s, h, a).state.tokens[k]);
  }

  lemma StepReplays(s: State, h: Index, a: TokenAction)
    requires Folded(s) && ActionOk(a) && Step(s, h, a).Done?
    ensures var o := Step(s, h, a);
            Folded(o.state) && Replay(ViewOf(s), o.log) == ViewOf(o.state)
  {
    var o := Step(s, h, a);
    match a {
      case Deploy(genesis, p, _) =>
        if o.log != [] {
          ViewUpdate(s.tokens, p.tick.lower, TokenMeta(genesis, p));
          ReplayOne(ViewOf(s), o.log[0]);
        }
      case Mint(_, _, _, _, _) =>
        if o.log != [] { MintReplays(s, h, a); ReplayOne(ViewOf(s), o.log[0]); }
      case Transfer(_, _, _, _, _, _) =>
        if o.log != [] { TransferReplays(s, h, a); ReplayOne(ViewOf(s), o.log[0]); }
      case Transferred(_, _, _, _) =>
        if o.log != [] { TransferredReplays(s, h, a); ReplayOne(ViewOf(s), o.log[0]); }
    }
  }

  /** Folding a batch's log over the starting ledger gives the final supplies, counters and accounts. */
  lemma {:induction false} RunReplays(s: State, h: Index, actions: seq<TokenAction>)
    requires Folded(s) && (forall i :: 0 <= i < |actions| ==> ActionOk(actions[i])) && Run(s, h, actions).Done?
    ensures var o := Run(s, h, actions);
            Folded(o.state) && Replay(ViewOf(s), o.log) == ViewOf(o.state)
    decreases |actions|
  {
    if actions != [] {
      StepReplays(s, h, actions[0]);
      var o := Step(s, h, actions[0]);
      RunReplays(o.state, o.index, actions[1..]);
      ReplayAppend(ViewOf(s), o.log, Run(o.state, o.index, actions[1..]).log);
    }
  }

  // ---- `transactions` counts log entries ----

  function EntriesFor(log: seq<HistoryAction>, k: LowerTick): nat
    decreases |log|
  {
    if log == [] then 0 else (if log[0].tick.lower == k then 1 else 0) + EntriesFor(log[1..], k)
  }

  function Transactions(v: View, k: LowerTick): nat
  {
    if k in v.tokens then v.tokens[k].transactions else 0
  }

  /** A log in which no deploy repeats a tick and everything else names a deployed one. */
  ghost predicate Deployed(v: View, log: seq<HistoryAction>)
    decreases |log|
  {
    log != [] ==> (log[0].DeployEvent? <==> log[0].tick.lower !in v.tokens) && Deployed(ApplyEvent(v, log[0]), log[1..])
  }

  lemma {:induction false} TransactionsCountEntries(v: View, log: seq<HistoryAction>, k: LowerTick)
    requires Deployed(v, log)
    ensures Transactions(Replay(v, log), k) == Transactions(v, k) + EntriesFor(log, k)
    decreases |log|
  {
    if log != [] {
      TransactionsCountEntries(ApplyEvent(v, log[0]), log[1..], k);
    }
  }

  lemma {:induction false} RunDeployed(s: State, h: Index, actions: seq<TokenAction>)
    requires Folded(s) && (forall i :: 0 <= i < |actions| ==> ActionOk(actions[i])) && Run(s, h, actions).Done?
    ensures Deployed(ViewOf(s), Run(s, h, actions).log)
    decreases |actions|
  {
    if actions != [] {
      StepReplays(s, h, actions[0]);
      var o := Step(s, h, actions[0]);
      RunDeployed(o.state, o.index, actions[1..]);
      var rest := Run(o.state, o.index, actions[1..]).log;
      if o.log == [] {
        assert o.log + rest == rest;
      } else {
        ReplayOne(ViewOf(s), o.log[0]);
        assert (o.log + rest)[1..] == rest;
      }
    }
  }

  /** `transactions` of a tick grows by the number of log entries for that tick. */
  lemma TransactionsLogged(s: State, h: Index, actions: seq<TokenAction>, k: LowerTick)
    requires Folded(s) && (forall i :: 0 <= i < |actions| ==> ActionOk(actions[i])) && Run(s, h, actions).Done?
    ensures var o := Run(s, h, actions);
            Transactions(ViewOf(o.state), k) == Transactions(ViewOf(s), k) + EntriesFor(o.log, k)
  {
    RunReplays(s, h, actions);
    RunDeployed(s, h, actions);
    TransactionsCountEntries(ViewOf(s), Run(s, h, actions).log, k);
  }
}
