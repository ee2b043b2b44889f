/** The ledger under a holder index that no longer agrees with it, as after a rollback: what the index
    can spoil, and what it cannot. */
module StaleHolders {
  import opened Base
  import opened Ledger
  import opened LedgerInvariants
  import opened HolderIndex
  import opened LedgerSafety

  /** The ledger's promises about a batch, the holder index left aside. */
  ghost predicate Sound(s: State, o: Outcome)
  {
    o.Done? && Inv(o.state) && forall t :: Gap(o.state, t) == Gap(s, t) + Burned(o.log, t)
  }

  // ---- an index that agrees always exists ----

  ghost function HolderSet(accounts: map<AddressToken, TokenBalance>, t: Tick): set<SortedByBalance>
  {
    set key | key in accounts && key.token == t && accounts[key].Total() > 0 :: SortedByBalance(accounts[key].Total(), key.address)
  }

  ghost function IndexOf(accounts: map<AddressToken, TokenBalance>): Index
  {
    var ticks := set key | key in accounts :: key.token;
    Index(map t | t in ticks :: HolderSet(accounts, t), map t | t in ticks :: |HolderSet(accounts, t)|)
  }

  lemma IndexAgrees(accounts: map<AddressToken, TokenBalance>)
    ensures Agree(IndexOf(accounts), accounts)
  {
    var h := IndexOf(accounts);
    forall t ensures AgreeAt(h, accounts, t) {
      forall x ensures x in HoldersOf(h, t) <==> IsHolder(accounts, t, x) {
        var key := AddressToken(x.address, t);
        if IsHolder(accounts, t, x) {
          assert key in accounts && x in HolderSet(accounts, t);
        }
      }
    }
  }

  // ---- the ledger does not depend on the index ----

  lemma StepAlike(s: State, h: Index, h': Index, a: TokenAction)
    requires Step(s, h, a).Done? && Step(s, h', a).Done?
    ensures Step(s, h, a).state == Step(s, h', a).state && Step(s, h, a).log == Step(s, h', a).log
  {
  }

  /** Two runs from one ledger under any two indexes give one ledger and one log, if neither panics. */
  lemma {:induction false} RunAlike(s: State, h: Index, h': Index, actions: seq<TokenAction>)
    requires Run(s, h, actions).Done? && Run(s, h', actions).Done?
    ensures Run(s, h, actions).state == Run(s, h', actions).state && Run(s, h, actions).log == Run(s, h', actions).log
    decreases |actions|
  {
    hide Step;
    if actions != [] {
      StepAlike(s, h, h', actions[0]);
      var o, o' := Step(s, h, actions[0]), Step(s, h', actions[0]);
      RunAlike(o.state, o.index, o'.index, actions[1..]);
    }
  }

  /** Whatever the index, a batch that runs to the end keeps every promise of the ledger. */
  lemma RunSound(s: State, h: Index, actions: seq<TokenAction>)
    requires Inv(s) && BatchOk(s, actions) && Run(s, h, actions).Done?
    ensures Sound(s, Run(s, h, actions))
  {
    hide Inv, Run, BatchOk, Agree, Gap;
    IndexAgrees(s.accounts);
    RunSafe(s, IndexOf(s.accounts), actions);
    RunAlike(s, h, IndexOf(s.accounts), actions);
  }

  // ---- what a stale index can do ----

  /** The action takes the last of its sender's holding while the tick's count stands at zero. */
  ghost predicate CountStuck(s: State, h: Index, a: TokenAction)
  {
    && a.Transferred? && a.location in s.valid
    && var v := s.valid[a.location];
       TotalOf(s.accounts, v.Key()) == v.proto.amt && v.proto.tick in h.stats && h.stats[v.proto.tick] == 0
  }

  /** On a good ledger an action panics if and only if the holder count would go below zero. */
  lemma PanicsExactly(s: State, h: Index, a: TokenAction)
    requires Inv(s) && ActionOk(a) && RecordOk(s, a)
    ensures Step(s, h, a).Panic? <==> CountStuck(s, h, a)
  {
    IndexAgrees(s.accounts);
    var h0 := IndexOf(s.accounts);
    StepSafe(s, h0, a);
    if a.Transferred? && a.location in s.valid {
      TransferredPayable(s, h0, a.location);
    }
  }

  /** The run comes to an action that takes the holder count below zero. */
  ghost predicate Sticks(s: State, h: Index, actions: seq<TokenAction>)
    decreases |actions|
  {
    actions != [] && (CountStuck(s, h, actions[0])
      || (Step(s, h, actions[0]).Done? && Sticks(Step(s, h, actions[0]).state, Step(s, h, actions[0]).index, actions[1..])))
  }

  /** A batch on a good ledger panics if and only if it comes to such an action. */
  lemma {:induction false} RunPanicsExactly(s: State, h: Index, actions: seq<TokenAction>)
    requires Inv(s) && BatchOk(s, actions)
    ensures Run(s, h, actions).Panic? <==> Sticks(s, h, actions)
    decreases |actions|
  {
    hide Inv, Step, CountStuck, ActionOk, RecordOk, Gap;
    if actions != [] {
      PanicsExactly(s, h, actions[0]);
      if Step(s, h, actions[0]).Done? {
        var o := Step(s, h, actions[0]);
        StepSound(s, h, actions[0]);
        forall i | 0 <= i < |actions[1..]| ensures RecordOk(o.state, actions[1..][i]) {
          RecordsStay(s, h, actions[0], actions[i + 1]);
        }
        RunPanicsExactly(o.state, o.index, actions[1..]);
      }
    }
  }

  lemma StepSound(s: State, h: Index, a: TokenAction)
    requires Inv(s) && ActionOk(a) && RecordOk(s, a) && Step(s, h, a).Done?
    ensures Inv(Step(s, h, a).state)
  {
    hide Inv, Step, ActionOk, RecordOk, Agree;
    IndexAgrees(s.accounts);
    StepSafe(s, IndexOf(s.accounts), a);
    StepAlike(s, h, IndexOf(s.accounts), a);
  }

  /** A block that burns a tick's last holding, rolled back and mined again: the ledger is back, the index
      is not, and the count goes below zero. */
  lemma RemineStuck(s: State, h: Index, a: TokenAction)
    requires Good(s, h) && a.Transferred? && a.location in s.valid && a.recipient == OP_RETURN_HASH
    requires var v := s.valid[a.location]; TotalOf(s.accounts, v.Key()) == v.proto.amt && Count(h, v.proto.tick) == 1
    ensures Step(s, h, a).Done? && Step(s, Step(s, h, a).index, a).Panic?
  {
    TransferredSafe(s, h, a);
    TransferredPayable(s, h, a.location);
    PanicsExactly(s, Step(s, h, a).index, a);
  }
}
