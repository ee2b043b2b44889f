/** What every action keeps: known ticks, transferable accounting, supply conservation. */
module LedgerInvariants {
  import opened Base
  import opened Sums
  import opened Ledger

  // ---- sums over the tables ----

  ghost function HeldMap(accounts: map<AddressToken, TokenBalance>, t: Tick): map<AddressToken, nat>
  {
    map key | key in accounts :: if key.token == t then accounts[key].Total() else 0
  }

  /** Everything held in tick `t`: balances plus transferable balances. */
  ghost function Held(accounts: map<AddressToken, TokenBalance>, t: Tick): nat
  {
    Sum(HeldMap(accounts, t))
  }

  ghost function AmountMap(valid: map<Location, ValidTransfer>, key: AddressToken): map<Location, nat>
  {
    map l | l in valid :: if valid[l].Key() == key then valid[l].proto.amt else 0
  }

  ghost function CountMap(valid: map<Location, ValidTransfer>, key: AddressToken): map<Location, nat>
  {
    map l | l in valid :: if valid[l].Key() == key then 1 else 0
  }

  /** Sum of the outstanding transfers of one (address, tick). */
  ghost function Outstanding(valid: map<Location, ValidTransfer>, key: AddressToken): nat
  {
    Sum(AmountMap(valid, key))
  }

  /** Number of the outstanding transfers of one (address, tick). */
  ghost function OutstandingCount(valid: map<Location, ValidTransfer>, key: AddressToken): nat
  {
    Sum(CountMap(valid, key))
  }

  lemma HeldUpdate(accounts: map<AddressToken, TokenBalance>, key: AddressToken, b: TokenBalance, t: Tick)
    ensures Held(accounts[key := b], t) + (if key.token == t then TotalOf(accounts, key) else 0)
            == Held(accounts, t) + (if key.token == t then b.Total() else 0)
  {
    var m := HeldMap(accounts, t);
    var w := if key.token == t then b.Total() else 0;
    assert HeldMap(accounts[key := b], t) == m[key := w];
    SumUpdate(m, key, w);
  }

  lemma HeldAtLeast(accounts: map<AddressToken, TokenBalance>, key: AddressToken)
    requires key in accounts
    ensures accounts[key].Total() <= Held(accounts, key.token)
  {
    SumRemove(HeldMap(accounts, key.token), key);
  }

  lemma OutstandingInsert(valid: map<Location, ValidTransfer>, l: Location, v: ValidTransfer, key: AddressToken)
    requires l !in valid
    ensures Outstanding(valid[l := v], key) == Outstanding(valid, key) + (if v.Key() == key then v.proto.amt else 0)
    ensures OutstandingCount(valid[l := v], key) == OutstandingCount(valid, key) + (if v.Key() == key then 1 else 0)
  {
    var a := if v.Key() == key then v.proto.amt else 0;
    var c := if v.Key() == key then 1 else 0;
    assert AmountMap(valid[l := v], key) == AmountMap(valid, key)[l := a];
    assert CountMap(valid[l := v], key) == CountMap(valid, key)[l := c];
    SumUpdate(AmountMap(valid, key), l, a);
    SumUpdate(CountMap(valid, key), l, c);
  }

  lemma OutstandingRemove(valid: map<Location, ValidTransfer>, l: Location, key: AddressToken)
    requires l in valid
    ensures Outstanding(valid, key) == Outstanding(valid - {l}, key) + (if valid[l].Key() == key then valid[l].proto.amt else 0)
    ensures OutstandingCount(valid, key) == OutstandingCount(valid - {l}, key) + (if valid[l].Key() == key then 1 else 0)
  {
    assert AmountMap(valid - {l}, key) == AmountMap(valid, key) - {l};
    assert CountMap(valid - {l}, key) == CountMap(valid, key) - {l};
    SumRemove(AmountMap(valid, key), l);
    SumRemove(CountMap(valid, key), l);
  }

  // ---- the invariant ----

  ghost predicate Known(s: State, t: Tick)
  {
    t.lower in s.tokens && s.tokens[t.lower].proto.tick == t
  }

  ghost predicate TokensOk(s: State)
  {
    forall k :: k in s.tokens ==>
      s.tokens[k].proto.tick.lower == k && s.tokens[k].proto.supply <= s.tokens[k].proto.max <= MAX_AMOUNT
  }

  ghost predicate AccountsOk(s: State)
  {
    forall key :: key in s.accounts ==> Known(s, key.token)
  }

  ghost predicate TransfersOk(s: State)
  {
    forall l :: l in s.valid ==> s.valid[l].Key() in s.accounts && s.valid[l].proto.amt > 0
  }

  ghost predicate AccountedAt(s: State, key: AddressToken)
  {
    && (if key in s.accounts then s.accounts[key].transferable else 0) == Outstanding(s.valid, key)
    && (if key in s.accounts then s.accounts[key].transfers else 0) == OutstandingCount(s.valid, key)
  }

  /** `transferable_balance` is the sum and `transfers_count` the number of outstanding transfers. */
  ghost predicate Accounted(s: State)
  {
    forall key :: AccountedAt(s, key)
  }

  /** Tables that fit together, leaving supply aside. */
  ghost predicate Shaped(s: State)
  {
    TokensOk(s) && AccountsOk(s) && TransfersOk(s) && Accounted(s)
  }

  ghost function Supply(s: State, t: Tick): nat
  {
    if Known(s, t) then s.tokens[t.lower].proto.supply else 0
  }

  /** Supply not explained by what is held. */
  ghost function Gap(s: State, t: Tick): int
  {
    Supply(s, t) - Held(s.accounts, t)
  }

  ghost predicate Solvent(s: State)
  {
    forall t :: Gap(s, t) >= 0
  }

  ghost predicate Inv(s: State)
  {
    Shaped(s) && Solvent(s)
  }

  /** What the protocol parser guarantees about an action it pushes. */
  ghost predicate ActionOk(a: TokenAction)
  {
    match a
    case Deploy(_, p, owner) =>
      p.supply == p.transferCount == p.mintCount == 0 && p.transactions == 1 && 0 < p.max <= MAX_AMOUNT && p.deployer == owner
    case Mint(_, _, amt, _, _) => amt.units > 0
    case Transfer(_, _, _, amt, _, _) => amt.units > 0
    case Transferred(_, _, _, _) => true
  }

  /** A pending Transfer finds its own record at its location, which holds no outstanding transfer. */
  ghost predicate RecordOk(s: State, a: TokenAction)
  {
    a.Transfer? && a.location in s.all ==>
      && a.location !in s.valid
      && s.all[a.location].amt == a.amt.units
      && s.all[a.location].tick.lower == a.tick.lower
  }

  ghost predicate BatchOk(s: State, actions: seq<TokenAction>)
  {
    forall i :: 0 <= i < |actions| ==> ActionOk(actions[i]) && RecordOk(s, actions[i])
  }

  // ---- burned amounts ----

  ghost function BurnedBy(e: HistoryAction, t: Tick): nat
  {
    if e.SendEvent? && e.recipient == OP_RETURN_HASH && e.tick == t then e.amt else 0
  }

  /** Amount of tick `t` the log sends to the OP_RETURN hash. */
  ghost function Burned(log: seq<HistoryAction>, t: Tick): nat
    decreases |log|
  {
    if log == [] then 0 else BurnedBy(log[0], t) + Burned(log[1..], t)
  }

  lemma {:induction false} BurnedAppend(xs: seq<HistoryAction>, ys: seq<HistoryAction>, t: Tick)
    ensures Burned(xs + ys, t) == Burned(xs, t) + Burned(ys, t)
    decreases |xs|
  {
    if xs == [] {
      assert xs + ys == ys;
    } else {
      assert (xs + ys)[1..] == xs[1..] + ys;
      BurnedAppend(xs[1..], ys, t);
    }
  }

  lemma BurnedOne(e: HistoryAction, t: Tick)
    ensures Burned([e], t) == BurnedBy(e, t)
  {
    assert [e][1..] == [];
  }

  // ---- how the table updates move the sums ----

  /** The token at `k` keeps its tick and cap and mints `minted`; all other tokens are untouched. */
  ghost predicate MetaStep(s: State, s': State, k: LowerTick, minted: nat)
  {
    && k in s.tokens
    && s'.tokens.Keys == s.tokens.Keys
    && s'.tokens[k].proto.tick == s.tokens[k].proto.tick
    && s'.tokens[k].proto.max == s.tokens[k].proto.max
    && s'.tokens[k].proto.supply == s.tokens[k].proto.supply + minted
    && s'.tokens[k].proto.supply <= s'.tokens[k].proto.max
    && forall j :: j in s.tokens && j != k ==> s'.tokens[j] == s.tokens[j]
  }

  lemma MetaKeeps(s: State, s': State, k: LowerTick, minted: nat)
    requires TokensOk(s) && MetaStep(s, s', k, minted)
    ensures TokensOk(s') && Known(s, s.tokens[k].proto.tick)
    ensures forall t :: Known(s', t) <==> Known(s, t)
    ensures forall t :: Supply(s', t) == Supply(s, t) + (if t == s.tokens[k].proto.tick then minted else 0)
  {
  }

  lemma AccountsKeep(s: State, s': State, key: AddressToken)
    requires AccountsOk(s) && (forall t :: Known(s, t) ==> Known(s', t)) && Known(s', key.token)
    requires s'.accounts.Keys <= s.accounts.Keys + {key}
    ensures AccountsOk(s')
  {
    forall j | j in s'.accounts ensures Known(s', j.token) {
      assert j == key || Known(s, j.token);
    }
  }

  lemma CreditHeld(accounts: map<AddressToken, TokenBalance>, key: AddressToken, amt: nat, t: Tick)
    ensures Held(Credit(accounts, key, amt), t) == Held(accounts, t) + (if key.token == t then amt else 0)
  {
    HeldUpdate(accounts, key, Credit(accounts, key, amt)[key], t);
  }

  lemma LockHeld(accounts: map<AddressToken, TokenBalance>, key: AddressToken, amt: nat, t: Tick)
    requires key in accounts && amt <= accounts[key].balance
    ensures Held(Lock(accounts, key, amt), t) == Held(accounts, t)
  {
    HeldUpdate(accounts, key, Lock(accounts, key, amt)[key], t);
  }

  lemma UnlockHeld(accounts: map<AddressToken, TokenBalance>, key: AddressToken, amt: nat, t: Tick)
    requires key in accounts && amt <= accounts[key].transferable && 0 < accounts[key].transfers
    ensures Held(Unlock(accounts, key, amt), t) + (if key.token == t then amt else 0) == Held(accounts, t)
  {
    HeldUpdate(accounts, key, Unlock(accounts, key, amt)[key], t);
  }

  lemma HeldNone(s: State, t: Tick)
    requires AccountsOk(s) && !Known(s, t)
    ensures Held(s.accounts, t) == 0
  {
    SumZero(HeldMap(s.accounts, t));
  }

  // ---- how the table updates keep the accounting ----

  lemma CreditAccounted(s: State, s': State, key: AddressToken, amt: nat)
    requires Accounted(s) && s'.valid == s.valid && s'.accounts == Credit(s.accounts, key, amt)
    ensures Accounted(s')
  {
    forall k ensures AccountedAt(s', k) { assert AccountedAt(s, k); }
  }

  /** Recording a new transfer of `key` while locking `amt` of its balance keeps the accounting if
      and only if the record carries the locked amount. */
  lemma LockAccountedExactly(s: State, s': State, key: AddressToken, amt: nat, l: Location, v: ValidTransfer)
    requires Accounted(s) && key in s.accounts && amt <= s.accounts[key].balance && l !in s.valid && v.Key() == key
    requires s'.accounts == Lock(s.accounts, key, amt) && s'.valid == s.valid[l := v]
    ensures Accounted(s') <==> v.proto.amt == amt
  {
    assert AccountedAt(s, key);
    OutstandingInsert(s.valid, l, v, key);
    assert AccountedAt(s', key) <==> v.proto.amt == amt;
    if v.proto.amt == amt {
      forall k ensures AccountedAt(s', k) {
        assert AccountedAt(s, k);
        OutstandingInsert(s.valid, l, v, k);
      }
    }
  }

  lemma UnlockAccounted(s: State, s': State, l: Location)
    requires Accounted(s) && TransfersOk(s) && l in s.valid
    ensures var b := s.accounts[s.valid[l].Key()]; s.valid[l].proto.amt <= b.transferable && 0 < b.transfers
    ensures s'.accounts == Unlock(s.accounts, s.valid[l].Key(), s.valid[l].proto.amt) && s'.valid == s.valid - {l}
            ==> Accounted(s')
  {
    var v := s.valid[l];
    assert AccountedAt(s, v.Key());
    OutstandingRemove(s.valid, l, v.Key());
    if s'.accounts == Unlock(s.accounts, v.Key(), v.proto.amt) && s'.valid == s.valid - {l} {
      forall k ensures AccountedAt(s', k) {
        assert AccountedAt(s, k);
        OutstandingRemove(s.valid, l, k);
      }
    }
  }

  // ---- what each kind of action keeps ----

  /** `minted` new units of the token at `k`, or units taken off another account, go to `key`. */
  lemma CreditKeeps(s: State, s': State, k: LowerTick, minted: nat, key: AddressToken, amt: nat)
    requires Shaped(s) && MetaStep(s, s', k, minted)
    requires key.token == s.tokens[k].proto.tick && s'.accounts == Credit(s.accounts, key, amt) && s'.valid == s.valid
    ensures Shaped(s')
    ensures forall t :: Gap(s', t) == Gap(s, t) + (if t == key.token then minted - amt else 0)
  {
    MetaKeeps(s, s', k, minted);
    AccountsKeep(s, s', key);
    CreditAccounted(s, s', key, amt);
    forall t { CreditHeld(s.accounts, key, amt, t); }
  }

  lemma LockKeeps(s: State, s': State, k: LowerTick, key: AddressToken, amt: nat, l: Location, v: ValidTransfer)
    requires Shaped(s) && MetaStep(s, s', k, 0)
    requires key.token == s.tokens[k].proto.tick && key in s.accounts && amt <= s.accounts[key].balance
    requires l !in s.valid && v.Key() == key && v.proto.amt == amt > 0
    requires s'.accounts == Lock(s.accounts, key, amt) && s'.valid == s.valid[l := v]
    ensures Shaped(s')
    ensures forall t :: Gap(s', t) == Gap(s, t)
  {
    MetaKeeps(s, s', k, 0);
    AccountsKeep(s, s', key);
    LockAccountedExactly(s, s', key, amt, l, v);
    forall t { LockHeld(s.accounts, key, amt, t); }
  }

  lemma UnlockKeeps(s: State, s': State, k: LowerTick, l: Location)
    requires Shaped(s) && MetaStep(s, s', k, 0)
    requires l in s.valid && s.valid[l].proto.tick == s.tokens[k].proto.tick
    ensures var b := s.accounts[s.valid[l].Key()]; s.valid[l].proto.amt <= b.transferable && 0 < b.transfers
    ensures s'.accounts == Unlock(s.accounts, s.valid[l].Key(), s.valid[l].proto.amt) && s'.valid == s.valid - {l}
            ==> Shaped(s') && forall t :: Gap(s', t) == Gap(s, t) + (if t == s.valid[l].proto.tick then s.valid[l].proto.amt else 0)
  {
    var key := s.valid[l].Key();
    var amt := s.valid[l].proto.amt;
    UnlockAccounted(s, s', l);
    if s'.accounts == Unlock(s.accounts, key, amt) && s'.valid == s.valid - {l} {
      MetaKeeps(s, s', k, 0);
      AccountsKeep(s, s', key);
      forall t { UnlockHeld(s.accounts, key, amt, t); }
    }
  }
}
