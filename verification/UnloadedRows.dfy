/** Two transfers on one location that differ in tick alone: the ledger is not harmed, but the rows to load
    are chosen by the tick on record, so the recipient's row may stay behind and be written over. */
module UnloadedRows {
  import opened Base
  import opened Ledger
  import opened CacheRefinement

  /** The tick of the record a transfer finds is replaced by its own. */
  lemma RecordTickIrrelevant(s: State, h: Index, a: TokenAction, tick: Tick)
    requires a.Transfer? && a.location in s.all
    ensures StepTransfer(s, h, a) == StepTransfer(s.(all := s.all[a.location := s.all[a.location].(tick := tick)]), h, a)
  {
    var s' := s.(all := s.all[a.location := s.all[a.location].(tick := tick)]);
    assert s'.all - {a.location} == s.all - {a.location};
  }

  /** The account a spent transfer pays into. */
  function PaidTo(c: State, a: TokenAction): AddressToken
    requires a.Transferred? && a.location in c.valid && c.valid[a.location].proto.tick.lower in c.tokens
  {
    AddressToken(a.recipient, c.tokens[c.valid[a.location].proto.tick.lower].proto.tick)
  }

  /** The spend takes effect in a cache that has its token and sender, but not the account it pays into. */
  ghost predicate PaysUnloaded(b: State, c: State, h: Index, a: TokenAction)
  {
    && a.Transferred? && a.location in c.valid && a.location !in b.valid && c.valid[a.location].proto.tick.lower in c.tokens
    && a.recipient != OP_RETURN_HASH && PaidTo(c, a) !in c.accounts && StepTransferred(c, h, a).Done?
  }

  lemma SentAccounts(s: State, h: Index, a: TokenAction)
    requires a.Transferred? && a.location in s.valid && a.recipient != OP_RETURN_HASH && StepTransferred(s, h, a).Done?
    ensures var v := s.valid[a.location];
            && v.proto.tick.lower in s.tokens
            && var tick := s.tokens[v.proto.tick.lower].proto.tick;
               var from := AddressToken(v.owner, tick);
               && from in s.accounts && 0 < s.accounts[from].transfers && v.proto.amt <= s.accounts[from].transferable
               && StepTransferred(s, h, a).state.accounts == Credit(Unlock(s.accounts, from, v.proto.amt), AddressToken(a.recipient, tick), v.proto.amt)
  {
    hide Credit, Unlock, CountSend, Increase, Decrease;
  }

  lemma WholeSends(b: State, c: State, h: Index, a: TokenAction)
    requires PaysUnloaded(b, c, h, a)
    ensures StepTransferred(Overlay(b, c), h, a).Done?
  {
    hide Credit, CountSend, Increase, Decrease;
  }

  lemma CreditOver(b: map<AddressToken, TokenBalance>, u: map<AddressToken, TokenBalance>, to: AddressToken, amt: nat)
    requires to !in u
    ensures var cached, whole := b + Credit(u, to, amt), Credit(b + u, to, amt);
            && to in cached && cached[to].balance == amt && cached[to].transferable == 0 && cached[to].transfers == 0
            && whole == cached[to := whole[to]] && TotalOf(whole, to) == TotalOf(b, to) + amt
            && (whole[to] == cached[to] <==> (to in b ==> Blank(b[to])))
  {
  }

  /** A stored row that no default can be told from. */
  predicate Blank(b: TokenBalance)
  {
    b.balance == 0 && b.transferable == 0 && b.transfers == 0
  }

  /** The cache's balances over the stored rows, and those of the spend on all rows. */
  ghost predicate Paid(b: State, c: State, a: TokenAction, cached: map<AddressToken, TokenBalance>, whole: map<AddressToken, TokenBalance>)
    requires a.Transferred? && a.location in c.valid && c.valid[a.location].proto.tick.lower in c.tokens
  {
    var to, amt := PaidTo(c, a), c.valid[a.location].proto.amt;
    && to in cached && cached[to].balance == amt && cached[to].transferable == 0 && cached[to].transfers == 0
    && TotalOf(whole, to) == TotalOf(b.accounts, to) + amt
    && (whole == cached <==> (to in b.accounts ==> Blank(b.accounts[to])))
  }

  /** The account then holds just the amount, whatever was stored, where on all rows it would be added: the
      spend leaves the balances the whole ledger would have if and only if the row left behind is blank or
      there is none; otherwise what it held is gone. */
  lemma UnloadedExactly(b: State, c: State, h: Index, a: TokenAction)
    requires PaysUnloaded(b, c, h, a)
    ensures StepTransferred(Overlay(b, c), h, a).Done?
    ensures Paid(b, c, a, Overlay(b, StepTransferred(c, h, a).state).accounts, StepTransferred(Overlay(b, c), h, a).state.accounts)
  {
    hide StepTransferred, Credit, Unlock, TotalOf, Blank;
    WholeSends(b, c, h, a);
    SentAccounts(c, h, a);
    SentAccounts(Overlay(b, c), h, a);
    var v := c.valid[a.location];
    var tick := c.tokens[v.proto.tick.lower].proto.tick;
    var from, to := AddressToken(v.owner, tick), AddressToken(a.recipient, tick);
    OverlayUnlock(b.accounts, c.accounts, from, v.proto.amt);
    UnlockKeys(c.accounts, from, v.proto.amt);
    CreditOver(b.accounts, Unlock(c.accounts, from, v.proto.amt), to, v.proto.amt);
  }

  // ---- a batch that gets there ----

  /** Two transfers of the same amount at one location, of two ticks; the second's record is kept, and the
      transfer is spent in the same block. */
  datatype Clash = Clash(location: Location, owner: FullHash, recipient: FullHash, first: Tick, second: Tick, amt: Amount, txid: nat, spender: nat, height: nat)
  {
    function Batch(): seq<TokenAction>
    {
      [Transfer(location, owner, first, amt, txid, location.outpoint.vout), Transfer(location, owner, second, amt, txid, location.outpoint.vout),
       Transferred(location, recipient, spender, 0)]
    }

    function Records(): map<Location, TransferProto>
    {
      map[location := TransferProto(second, amt.units, height)]
    }

    function From(): AddressToken
    {
      AddressToken(owner, first)
    }

    function To(): AddressToken
    {
      AddressToken(recipient, first)
    }
  }

  /** The first tick's holder can afford the transfer, the recipient holds some of it too, nothing else of
      the block is loaded, and the holder count is not spent. */
  ghost predicate ClashOn(x: Clash, g: Tables, h: Index)
  {
    && x.first.lower != x.second.lower && x.recipient != x.owner && x.recipient != OP_RETURN_HASH
    && x.first.lower in g.metas && g.metas[x.first.lower].proto.tick == x.first && x.amt.scale <= g.metas[x.first.lower].proto.dec
    && (forall k :: k in g.metas ==> g.metas[k].proto.tick.lower == k)
    && x.From() in g.balances && x.amt.units <= g.balances[x.From()].balance && x.To() in g.balances
    && (x.first in h.stats ==> h.stats[x.first] > 0)
  }

  lemma ClashUsers(x: Clash)
    ensures var valid: map<Location, ValidTransfer> := map[];
            && Users(x.Batch(), x.Records(), valid) == {x.From(), AddressToken(x.owner, x.second)}
                 + (if x.recipient != OP_RETURN_HASH then {AddressToken(x.recipient, x.second)} else {})
            && Tickers(x.Batch(), x.Records(), valid) == {x.first.lower, x.second.lower}
  {
    var valid: map<Location, ValidTransfer> := map[];
    var b := x.Batch();
    assert b[..2] == [b[0], b[1]] && b[..2][..1] == [b[0]] && [b[0]][..0] == [];
    assert Users([b[0]], x.Records(), valid) == {x.From()} && Tickers([b[0]], x.Records(), valid) == {x.first.lower};
    assert Users(b[..2], x.Records(), valid) == {x.From(), AddressToken(x.owner, x.second)};
    assert Tickers(b[..2], x.Records(), valid) == {x.first.lower, x.second.lower};
  }

  /** What the cache of the batch holds: the rows of those users under the ticks as deployed. */
  function ClashCache(x: Clash, g: Tables): State
  {
    var tokens := LoadTokens(g.metas, {x.first.lower, x.second.lower});
    var users := {x.From(), AddressToken(x.owner, x.second), AddressToken(x.recipient, x.second)};
    State(tokens, LoadAccounts(g.balances, AccountKeys(tokens, users)), x.Records(), map[])
  }

  lemma ClashLoads(x: Clash, g: Tables, prevouts: map<OutPoint, TxPrevout>)
    requires x.recipient != OP_RETURN_HASH && LoadTransfers(g.transfers, prevouts) == map[]
    ensures LoadedCache(g, prevouts, x.Records(), x.Batch()) == ClashCache(x, g)
  {
    hide Users, Tickers, LoadTokens, LoadAccounts, AccountKeys;
    ClashUsers(x);
    assert {x.From(), AddressToken(x.owner, x.second)} + {AddressToken(x.recipient, x.second)} ==
           {x.From(), AddressToken(x.owner, x.second), AddressToken(x.recipient, x.second)};
  }

  /** The sender can afford the transfer in the cache, and the recipient's row is not there. */
  ghost predicate ClashReady(x: Clash, c: State)
  {
    && x.location in c.all && c.all[x.location].amt == x.amt.units && x.recipient != OP_RETURN_HASH
    && x.first.lower in c.tokens && c.tokens[x.first.lower].proto.tick == x.first && x.amt.scale <= c.tokens[x.first.lower].proto.dec
    && x.From() in c.accounts && x.amt.units <= c.accounts[x.From()].balance && x.To() !in c.accounts
  }

  lemma ClashRows(x: Clash, g: Tables, h: Index)
    requires ClashOn(x, g, h)
    ensures ClashReady(x, ClashCache(x, g))
  {
    var tokens := LoadTokens(g.metas, {x.first.lower, x.second.lower});
    var users := {x.From(), AddressToken(x.owner, x.second), AddressToken(x.recipient, x.second)};
    assert x.From() in users;
    assert x.From() in AccountKeys(tokens, users);
  }

  lemma ClashLocks(x: Clash, c: State, h: Index)
    requires ClashReady(x, c)
    ensures var o := Step(c, h, x.Batch()[0]);
            && o.Done? && o.index == h && x.location !in o.state.all && x.location in o.state.valid
            && o.state.valid[x.location].owner == x.owner && o.state.valid[x.location].proto.tick == x.first && o.state.valid[x.location].proto.amt == x.amt.units
            && x.first.lower in o.state.tokens && o.state.tokens[x.first.lower].proto.tick == x.first
            && o.state.accounts.Keys == c.accounts.Keys && o.state.accounts[x.From()].transfers > 0 && o.state.accounts[x.From()].transferable >= x.amt.units
  {
  }

  /** A spend in a cache without the recipient's row makes that row of the amount alone. */
  lemma ClashSends(x: Clash, c: State, h: Index)
    requires x.location in c.valid && c.valid[x.location].owner == x.owner && c.valid[x.location].proto.tick == x.first && c.valid[x.location].proto.amt == x.amt.units
    requires x.first.lower in c.tokens && c.tokens[x.first.lower].proto.tick == x.first && x.recipient != OP_RETURN_HASH
    requires x.From() in c.accounts && c.accounts[x.From()].transfers > 0 && c.accounts[x.From()].transferable >= x.amt.units && x.To() !in c.accounts
    requires x.first in h.stats ==> h.stats[x.first] > 0
    ensures var o := Step(c, h, x.Batch()[2]);
            o.Done? && x.To() in o.state.accounts && TotalOf(o.state.accounts, x.To()) == x.amt.units
  {
    hide CountSend, Increase;
  }

  lemma ClashSkips(x: Clash, s: State, h: Index)
    requires x.location !in s.all
    ensures Step(s, h, x.Batch()[1]) == Done(s, h, [])
  {
  }

  lemma ClashRuns(x: Clash, c: State, h: Index)
    requires ClashReady(x, c) && (x.first in h.stats ==> h.stats[x.first] > 0)
    ensures var o := Run(c, h, x.Batch());
            o.Done? && x.To() in o.state.accounts && TotalOf(o.state.accounts, x.To()) == x.amt.units
  {
    hide Step, Run, TotalOf;
    ClashLocks(x, c, h);
    var a := Step(c, h, x.Batch()[0]);
    ClashSkips(x, a.state, h);
    ClashSends(x, a.state, h);
    RunThree(c, h, x.Batch());
  }

  /** The batch drained and written back leaves the recipient with the amount sent: what it held before,
      however much, is gone. */
  lemma ClashLoses(x: Clash, g: Tables, h: Index, prevouts: map<OutPoint, TxPrevout>)
    requires ClashOn(x, g, h) && LoadTransfers(g.transfers, prevouts) == map[]
    ensures var o := Run(LoadedCache(g, prevouts, x.Records(), x.Batch()), h, x.Batch());
            o.Done? && TotalOf(WriteBack(g, map[], o.state).balances, x.To()) == x.amt.units
  {
    hide LoadedCache, Run, TransferRows, TransferKeys, ClashCache, ClashReady, Clash.Batch, Clash.Records;
    ClashLoads(x, g, prevouts);
    ClashRows(x, g, h);
    ClashRuns(x, ClashCache(x, g), h);
  }
}
