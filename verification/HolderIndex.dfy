/** The second index over balances: per tick the holders sorted by total, and their number. */
module HolderIndex {
  import opened Base
  import opened Ledger

  ghost predicate IsHolder(accounts: map<AddressToken, TokenBalance>, t: Tick, x: SortedByBalance)
  {
    x.total > 0 && x.total == TotalOf(accounts, AddressToken(x.address, t))
  }

  function HoldersOf(h: Index, t: Tick): set<SortedByBalance>
  {
    Get(h.balances, t, {})
  }

  function Count(h: Index, t: Tick): nat
  {
    Get(h.stats, t, 0)
  }

  /** The index of tick `t` holds exactly the nonempty accounts of `t`, each once, and counts them. */
  ghost predicate AgreeAt(h: Index, accounts: map<AddressToken, TokenBalance>, t: Tick)
  {
    && (forall x :: x in HoldersOf(h, t) <==> IsHolder(accounts, t, x))
    && Count(h, t) == |HoldersOf(h, t)|
  }

  ghost predicate Agree(h: Index, accounts: map<AddressToken, TokenBalance>)
  {
    forall t :: AgreeAt(h, accounts, t)
  }

  /** The accounts of a tick determine its part of the index. */
  lemma AgreeFrame(h: Index, h': Index, accounts: map<AddressToken, TokenBalance>, accounts': map<AddressToken, TokenBalance>, t: Tick)
    requires AgreeAt(h, accounts, t)
    requires HoldersOf(h', t) == HoldersOf(h, t) && Count(h', t) == Count(h, t)
    requires forall j: AddressToken :: j.token == t ==> TotalOf(accounts', j) == TotalOf(accounts, j)
    ensures AgreeAt(h', accounts', t)
  {
    forall x ensures IsHolder(accounts', t, x) <==> IsHolder(accounts, t, x) {
      assert AddressToken(x.address, t).token == t;
    }
  }

  function Replace(v: set<SortedByBalance>, x: SortedByBalance, y: SortedByBalance): set<SortedByBalance>
  {
    if y.total > 0 then v - {x} + {y} else v - {x}
  }

  lemma ReplaceCount(v: set<SortedByBalance>, x: SortedByBalance, y: SortedByBalance)
    requires y !in v
    ensures |Replace(v, x, y)| + (if x in v then 1 else 0) == |v| + (if y.total > 0 then 1 else 0)
  {
    assert x !in v ==> v - {x} == v;
  }

  /** Moving one account to another total replaces its entry, if it had one. */
  lemma AgreeReplace(h: Index, h': Index, accounts: map<AddressToken, TokenBalance>, accounts': map<AddressToken, TokenBalance>,
                     key: AddressToken, x: SortedByBalance, y: SortedByBalance)
    requires AgreeAt(h, accounts, key.token)
    requires forall j :: j != key ==> TotalOf(accounts', j) == TotalOf(accounts, j)
    requires x == SortedByBalance(TotalOf(accounts, key), key.address)
    requires y == SortedByBalance(TotalOf(accounts', key), key.address)
    requires x.total != y.total && HoldersOf(h', key.token) == Replace(HoldersOf(h, key.token), x, y)
    requires Count(h', key.token) + (if x in HoldersOf(h, key.token) then 1 else 0) == Count(h, key.token) + (if y.total > 0 then 1 else 0)
    ensures AgreeAt(h', accounts', key.token)
  {
    var v := HoldersOf(h, key.token);
    assert y !in v by { assert y in v <==> IsHolder(accounts, key.token, y); }
    ReplaceCount(v, x, y);
    forall z ensures z in Replace(v, x, y) <==> IsHolder(accounts', key.token, z) {
      assert z in v <==> IsHolder(accounts, key.token, z);
      assert z.address == key.address ==> AddressToken(z.address, key.token) == key && z == SortedByBalance(z.total, key.address);
    }
  }

  lemma IncreaseShape(h: Index, key: AddressToken, total: nat, amt: nat)
    requires amt > 0
    ensures var h' := Increase(h, key, total, amt);
            var x := SortedByBalance(total, key.address);
            && HoldersOf(h', key.token) == Replace(HoldersOf(h, key.token), x, SortedByBalance(total + amt, key.address))
            && Count(h', key.token) == Count(h, key.token) + (if x in HoldersOf(h, key.token) then 0 else 1)
            && forall t :: t != key.token ==> HoldersOf(h', t) == HoldersOf(h, t) && Count(h', t) == Count(h, t)
  {
  }

  lemma CreditTotals(accounts: map<AddressToken, TokenBalance>, key: AddressToken, amt: nat)
    ensures TotalOf(Credit(accounts, key, amt), key) == TotalOf(accounts, key) + amt
    ensures forall j :: j != key ==> TotalOf(Credit(accounts, key, amt), j) == TotalOf(accounts, j)
  {
  }

  lemma IncreaseAgreesAt(h: Index, accounts: map<AddressToken, TokenBalance>, key: AddressToken, amt: nat, t: Tick)
    requires AgreeAt(h, accounts, t) && amt > 0
    ensures AgreeAt(Increase(h, key, TotalOf(accounts, key), amt), Credit(accounts, key, amt), t)
  {
    hide Increase, Credit, AgreeAt, HoldersOf, Count, Replace, TotalOf;
    var h', accounts' := Increase(h, key, TotalOf(accounts, key), amt), Credit(accounts, key, amt);
    IncreaseShape(h, key, TotalOf(accounts, key), amt);
    CreditTotals(accounts, key, amt);
    if t == key.token {
      var x := SortedByBalance(TotalOf(accounts, key), key.address);
      AgreeReplace(h, h', accounts, accounts', key, x, SortedByBalance(x.total + amt, key.address));
    } else {
      AgreeFrame(h, h', accounts, accounts', t);
    }
  }

  lemma IncreaseAgrees(h: Index, accounts: map<AddressToken, TokenBalance>, key: AddressToken, amt: nat)
    requires Agree(h, accounts) && amt > 0
    ensures Agree(Increase(h, key, TotalOf(accounts, key), amt), Credit(accounts, key, amt))
  {
    forall t ensures AgreeAt(Increase(h, key, TotalOf(accounts, key), amt), Credit(accounts, key, amt), t) {
      assert AgreeAt(h, accounts, t);
      IncreaseAgreesAt(h, accounts, key, amt, t);
    }
  }

  lemma DecreaseAgreesAt(h: Index, accounts: map<AddressToken, TokenBalance>, key: AddressToken, amt: nat, t: Tick)
    requires AgreeAt(h, accounts, key.token) && AgreeAt(h, accounts, t) && amt > 0
    requires key in accounts && amt <= accounts[key].transferable && 0 < accounts[key].transfers
    ensures Decrease(h, key, accounts[key].Total(), amt).Some?
    ensures AgreeAt(Decrease(h, key, accounts[key].Total(), amt).value, Unlock(accounts, key, amt), t)
  {
    var x := SortedByBalance(accounts[key].Total(), key.address);
    assert IsHolder(accounts, key.token, x);
    assert x in HoldersOf(h, key.token) && Count(h, key.token) > 0;
    var h', accounts' := Decrease(h, key, accounts[key].Total(), amt).value, Unlock(accounts, key, amt);
    if t == key.token {
      AgreeReplace(h, h', accounts, accounts', key, x, SortedByBalance(x.total - amt, key.address));
    } else {
      AgreeFrame(h, h', accounts, accounts', t);
    }
  }

  lemma DecreaseAgrees(h: Index, accounts: map<AddressToken, TokenBalance>, key: AddressToken, amt: nat)
    requires Agree(h, accounts) && amt > 0
    requires key in accounts && amt <= accounts[key].transferable && 0 < accounts[key].transfers
    ensures Decrease(h, key, accounts[key].Total(), amt).Some?
    ensures Agree(Decrease(h, key, accounts[key].Total(), amt).value, Unlock(accounts, key, amt))
  {
    DecreaseAgreesAt(h, accounts, key, amt, key.token);
    forall t ensures AgreeAt(Decrease(h, key, accounts[key].Total(), amt).value, Unlock(accounts, key, amt), t) {
      assert AgreeAt(h, accounts, t);
      DecreaseAgreesAt(h, accounts, key, amt, t);
    }
  }

  lemma LockAgrees(h: Index, accounts: map<AddressToken, TokenBalance>, key: AddressToken, amt: nat)
    requires Agree(h, accounts)
    requires key in accounts && amt <= accounts[key].balance
    ensures Agree(h, Lock(accounts, key, amt))
  {
    forall t ensures AgreeAt(h, Lock(accounts, key, amt), t) {
      assert AgreeAt(h, accounts, t);
      AgreeFrame(h, h, accounts, Lock(accounts, key, amt), t);
    }
  }
}
