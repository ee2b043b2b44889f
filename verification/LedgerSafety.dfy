/** Safety of whole batches: no panic, conserved supply, exact transferable accounting, and a holder
    index that always agrees with the balances. */
module LedgerSafety {
  import opened Base
  import opened Ledger
  import opened LedgerInvariants
  import opened HolderIndex

  /** The ledger invariant together with its second index. */
  ghost predicate Good(s: State, h: Index)
  {
    Inv(s) && Agree(h, s.accounts)
  }

  /** What one action or a whole batch keeps. */
  ghost predicate Safe(s: State, o: Outcome)
  {
    && o.Done?
    && Good(o.state, o.index)
    && (forall t :: Gap(o.state, t) == Gap(s, t) + Burned(o.log, t))
  }

  lemma DeploySafe(s: State, h: Index, a: TokenAction)
    requires Good(s, h) && a.Deploy? && ActionOk(a)
    ensures Safe(s, StepDeploy(s, h, a))
  {
    var o := StepDeploy(s, h, a);
    var t := a.proto.tick;
    var s' := o.state;
    if t.lower !in s.tokens {
      HeldNone(s, t);
      forall u ensures Known(s', u) <==> (Known(s, u) || u == t) {}
      AccountsKeepTokens(s, s');
      assert Accounted(s') by {
        forall key ensures AccountedAt(s', key) { assert AccountedAt(s, key); }
      }
      forall u { BurnedOne(o.log[0], u); }
      forall u ensures Gap(s', u) == Gap(s, u) {}
    }
  }

  lemma AccountsKeepTokens(s: State, s': State)
    requires AccountsOk(s) && s'.accounts == s.accounts
    requires forall u :: Known(s, u) ==> Known(s', u)
    ensures AccountsOk(s')
  {
    forall key | key in s'.accounts ensures Known(s', key.token) { assert Known(s, key.token); }
  }

  lemma MintShape(s: State, h: Index, a: TokenAction)
    requires TokensOk(s) && a.Mint? && a.amt.units > 0
    ensures var o := StepMint(s, h, a);
            o.Done? &&
            if o.log == [] then o.state == s && o.index == h
            else
              a.tick.lower in s.tokens &&
              var key := AddressToken(a.owner, s.tokens[a.tick.lower].proto.tick);
              var amt := o.log[0].amt;
              && o.log == [MintEvent(key.token, amt, a.owner, a.txid, a.vout)] && amt > 0
              && MetaStep(s, o.state, a.tick.lower, amt)
              && o.state.accounts == Credit(s.accounts, key, amt)
              && o.state.valid == s.valid && o.state.all == s.all
              && o.index == Increase(h, key, TotalOf(s.accounts, key), amt)
  {
  }

  lemma MintSafe(s: State, h: Index, a: TokenAction)
    requires Good(s, h) && a.Mint? && ActionOk(a)
    ensures Safe(s, StepMint(s, h, a))
  {
    MintShape(s, h, a);
    var o := StepMint(s, h, a);
    if o.log != [] {
      var key := AddressToken(a.owner, s.tokens[a.tick.lower].proto.tick);
      var amt := o.log[0].amt;
      CreditKeeps(s, o.state, a.tick.lower, amt, key, amt);
      IncreaseAgrees(h, s.accounts, key, amt);
      forall t { BurnedOne(o.log[0], t); }
    }
  }

  /** The guard under which a Transfer action takes effect. */
  predicate TransferRuns(s: State, a: TokenAction)
    requires a.Transfer?
  {
    && a.location in s.all
    && a.tick.lower in s.tokens
    && var p := s.tokens[a.tick.lower].proto;
       var key := AddressToken(a.owner, p.tick);
       a.amt.scale <= p.dec && key in s.accounts && a.amt.units <= s.accounts[key].balance
  }

  lemma TransferShape(s: State, h: Index, a: TokenAction)
    requires a.Transfer?
    ensures var o := StepTransfer(s, h, a);
            o.Done? && o.index == h &&
            if !TransferRuns(s, a) then
              o.log == [] && o.state.tokens == s.tokens && o.state.accounts == s.accounts && o.state.valid == s.valid
            else
              var key := AddressToken(a.owner, s.tokens[a.tick.lower].proto.tick);
              && o.log == [DeployTransferEvent(key.token, a.amt.units, a.owner, a.txid, a.vout)]
              && (TokensOk(s) ==> MetaStep(s, o.state, a.tick.lower, 0))
              && o.state.accounts == Lock(s.accounts, key, a.amt.units)
              && o.state.valid == s.valid[a.location := ValidTransfer(a.owner, s.all[a.location].(tick := key.token))]
  {
  }

  lemma TransferSafe(s: State, h: Index, a: TokenAction)
    requires Good(s, h) && a.Transfer? && ActionOk(a) && RecordOk(s, a)
    ensures Safe(s, StepTransfer(s, h, a))
  {
    TransferShape(s, h, a);
    var o := StepTransfer(s, h, a);
    if TransferRuns(s, a) {
      var key := AddressToken(a.owner, s.tokens[a.tick.lower].proto.tick);
      LockKeeps(s, o.state, a.tick.lower, key, a.amt.units, a.location, o.state.valid[a.location]);
      LockAgrees(h, s.accounts, key, a.amt.units);
      forall t { BurnedOne(o.log[0], t); }
    } else {
      AccountsKeepTokens(s, o.state);
      assert Accounted(o.state) by {
        forall k ensures AccountedAt(o.state, k) { assert AccountedAt(s, k); }
      }
      forall t ensures Gap(o.state, t) == Gap(s, t) {}
    }
  }

  /** A spent transfer is always payable: its tick and its sender's account exist, the sender's
      transferable balance covers it, and the sender is in the holder index. */
  lemma TransferredPayable(s: State, h: Index, l: Location)
    requires Good(s, h) && l in s.valid
    ensures var v := s.valid[l];
            && Known(s, v.proto.tick) && v.Key() in s.accounts
            && 0 < v.proto.amt <= s.accounts[v.Key()].transferable && 0 < s.accounts[v.Key()].transfers
            && Decrease(h, v.Key(), s.accounts[v.Key()].Total(), v.proto.amt).Some?
            && Agree(Decrease(h, v.Key(), s.accounts[v.Key()].Total(), v.proto.amt).value, Unlock(s.accounts, v.Key(), v.proto.amt))
  {
    var v := s.valid[l];
    assert Known(s, v.Key().token);
    UnlockAccounted(s, s, l);
    DecreaseAgrees(h, s.accounts, v.Key(), v.proto.amt);
  }

  /** The state after the sender was debited and before the recipient is credited. */
  function Debited(s: State, l: Location): State
    requires l in s.valid && s.valid[l].proto.tick.lower in s.tokens
    requires var v := s.valid[l];
             v.Key() in s.accounts && v.proto.amt <= s.accounts[v.Key()].transferable && 0 < s.accounts[v.Key()].transfers
  {
    var v := s.valid[l];
    State(CountSend(s.tokens, v.proto.tick.lower), Unlock(s.accounts, v.Key(), v.proto.amt), s.all, s.valid - {l})
  }

  lemma TransferredShape(s: State, h: Index, a: TokenAction)
    requires Good(s, h) && a.Transferred? && a.location in s.valid
    ensures var v := s.valid[a.location];
            && v.Key() in s.accounts && Known(s, v.proto.tick)
            && v.proto.amt <= s.accounts[v.Key()].transferable && 0 < s.accounts[v.Key()].transfers
            && Decrease(h, v.Key(), s.accounts[v.Key()].Total(), v.proto.amt).Some?
            && var o := StepTransferred(s, h, a);
               var s1 := Debited(s, a.location);
               var h1 := Decrease(h, v.Key(), s.accounts[v.Key()].Total(), v.proto.amt).value;
               var to := AddressToken(a.recipient, v.proto.tick);
               && o.Done?
               && o.log == [SendEvent(v.proto.tick, v.proto.amt, a.recipient, v.owner, a.txid, a.vout)]
               && MetaStep(s, s1, v.proto.tick.lower, 0)
               && (a.recipient == OP_RETURN_HASH ==> o.state == s1 && o.index == h1)
               && (a.recipient != OP_RETURN_HASH ==>
                     && o.state.tokens == s1.tokens && o.state.valid == s1.valid && o.state.all == s1.all
                     && o.state.accounts == Credit(s1.accounts, to, v.proto.amt)
                     && o.index == Increase(h1, to, TotalOf(s1.accounts, to), v.proto.amt))
  {
    TransferredPayable(s, h, a.location);
  }

  lemma TransferredSafe(s: State, h: Index, a: TokenAction)
    requires Good(s, h) && a.Transferred?
    ensures Safe(s, StepTransferred(s, h, a))
  {
    if a.location in s.valid {
      var v := s.valid[a.location];
      var o := StepTransferred(s, h, a);
      TransferredShape(s, h, a);
      TransferredPayable(s, h, a.location);
      var s1 := Debited(s, a.location);
      UnlockKeeps(s, s1, v.proto.tick.lower, a.location);
      forall t { BurnedOne(o.log[0], t); }
      if a.recipient != OP_RETURN_HASH {
        SentSafe(s, s1, o, a, v.proto.tick.lower, AddressToken(a.recipient, v.proto.tick), v.proto.amt,
                 Decrease(h, v.Key(), s.accounts[v.Key()].Total(), v.proto.amt).value);
      }
    }
  }

  /** Crediting the recipient returns to the ledger what the sender was debited. */
  lemma SentSafe(s: State, s1: State, o: Outcome, a: TokenAction, k: LowerTick, to: AddressToken, amt: nat, h1: Index)
    requires Inv(s) && Shaped(s1) && Agree(h1, s1.accounts) && amt > 0
    requires k in s1.tokens && s1.tokens[k].proto.tick == to.token
    requires forall t :: Gap(s1, t) == Gap(s, t) + (if t == to.token then amt else 0)
    requires o.Done? && o.state.tokens == s1.tokens && o.state.valid == s1.valid
    requires o.state.accounts == Credit(s1.accounts, to, amt)
    requires o.index == Increase(h1, to, TotalOf(s1.accounts, to), amt)
    requires forall t :: Burned(o.log, t) == 0
    ensures Safe(s, o)
  {
    CreditKeeps(s1, o.state, k, 0, to, amt);
    IncreaseAgrees(h1, s1.accounts, to, amt);
  }

  /** One action of any kind keeps every ledger promise. */
  lemma StepSafe(s: State, h: Index, a: TokenAction)
    requires Good(s, h) && ActionOk(a) && RecordOk(s, a)
    ensures Safe(s, Step(s, h, a))
  {
    match a
    case Deploy(_, _, _) => DeploySafe(s, h, a);
    case Mint(_, _, _, _, _) => MintSafe(s, h, a);
    case Transfer(_, _, _, _, _, _) => TransferSafe(s, h, a);
    case Transferred(_, _, _, _) => TransferredSafe(s, h, a);
  }

  /** Steps only consume records, and a new outstanding transfer has just consumed its own. */
  lemma RecordsStay(s: State, h: Index, a: TokenAction, b: TokenAction)
    requires Step(s, h, a).Done? && RecordOk(s, b)
    ensures RecordOk(Step(s, h, a).state, b)
  {
  }

  /** Every batch over a good ledger runs to the end without a panic, keeps the ledger good, and
      loses supply only to OP_RETURN. */
  lemma {:induction false} RunSafe(s: State, h: Index, actions: seq<TokenAction>)
    requires Good(s, h) && BatchOk(s, actions)
    ensures Safe(s, Run(s, h, actions))
    decreases |actions|
  {
    if actions != [] {
      StepSafe(s, h, actions[0]);
      var o := Step(s, h, actions[0]);
      forall i | 0 <= i < |actions[1..]| ensures RecordOk(o.state, actions[1..][i]) {
        RecordsStay(s, h, actions[0], actions[i + 1]);
      }
      RunSafe(o.state, o.index, actions[1..]);
      var r := Run(o.state, o.index, actions[1..]);
      forall t { BurnedAppend(o.log, r.log, t); }
    }
  }

  /** No amount outgrows u64::MAX tokens: any one account is within its token's supply and cap. */
  lemma AmountsBounded(s: State, key: AddressToken)
    requires Inv(s) && key in s.accounts
    ensures Known(s, key.token)
    ensures var p := s.tokens[key.token.lower].proto; s.accounts[key].Total() <= p.supply <= p.max <= MAX_AMOUNT
  {
    HeldAtLeast(s.accounts, key);
    assert Gap(s, key.token) >= 0;
  }

  // ---- transfers that share a location ----

  /** A Transfer at a free location keeps the transferable accounting exactly when it does not take
      effect or its record carries its own amount. */
  lemma AccountingExactly(s: State, h: Index, a: TokenAction)
    requires Good(s, h) && a.Transfer? && a.location !in s.valid
    ensures Accounted(StepTransfer(s, h, a).state) <==>
            (TransferRuns(s, a) ==> s.all[a.location].amt == a.amt.units)
  {
    TransferShape(s, h, a);
    var s' := StepTransfer(s, h, a).state;
    if TransferRuns(s, a) {
      var key := AddressToken(a.owner, s.tokens[a.tick.lower].proto.tick);
      LockAccountedExactly(s, s', key, a.amt.units, a.location, s'.valid[a.location]);
    } else {
      forall k ensures AccountedAt(s', k) { assert AccountedAt(s, k); }
    }
  }

  /** Spending a transfer whose record was overwritten panics exactly when the recorded amount is
      more than everything its sender has locked. */
  lemma OverwrittenRecordPanics(s: State, h: Index, a: TokenAction, recipient: FullHash, txid: nat, vout: nat)
    requires Good(s, h) && a.Transfer? && ActionOk(a) && TransferRuns(s, a) && a.location !in s.valid
    ensures var key := AddressToken(a.owner, s.tokens[a.tick.lower].proto.tick);
            Run(s, h, [a, Transferred(a.location, recipient, txid, vout)]).Panic? <==>
            s.all[a.location].amt > s.accounts[key].transferable + a.amt.units
  {
    TransferShape(s, h, a);
    var o := StepTransfer(s, h, a);
    var key := AddressToken(a.owner, s.tokens[a.tick.lower].proto.tick);
    var amt := s.all[a.location].amt;
    var b := Transferred(a.location, recipient, txid, vout);
    assert [a, b][1..] == [b] && [b][1..] == [];
    assert Run(o.state, h, [b]).Panic? <==> StepTransferred(o.state, h, b).Panic?;
    if amt <= o.state.accounts[key].transferable && amt > 0 {
      LockAgrees(h, s.accounts, key, a.amt.units);
      DecreaseAgrees(h, o.state.accounts, key, amt);
    }
  }
}
