/** The holder index as the server keeps it: two maps updated in place by `change`. */
module HoldersStore {
  import opened Base
  import opened Ledger
  import opened HolderIndex

  class Holders {
    var balances: map<Tick, set<SortedByBalance>>
    var stats: map<Tick, nat>

    function Contents(): Index
      reads this
    {
      Index(balances, stats)
    }

    /** Builds the index from the written balance table, grouping nonempty accounts by tick. */
    constructor (table: map<AddressToken, TokenBalance>)
      ensures Agree(Contents(), table)
      ensures forall t :: t in balances <==> t in stats
      ensures forall t :: t in balances ==> balances[t] != {}
    {
      var groups: map<Tick, set<SortedByBalance>> := map[];
      var rest := table.Keys;
      while rest != {}
        invariant rest <= table.Keys
        invariant forall t, x :: x in Get(groups, t, {}) <==>
                    IsHolder(table, t, x) && AddressToken(x.address, t) !in rest
        invariant forall t :: t in groups ==> groups[t] != {}
        decreases rest
      {
        var key :| key in rest;
        var b := table[key];
        ghost var before := groups;
        if b.balance != 0 || b.transferable != 0 {
          groups := groups[key.token := Get(groups, key.token, {}) + {SortedByBalance(b.balance + b.transferable, key.address)}];
        }
        rest := rest - {key};
        forall t, x
          ensures x in Get(groups, t, {}) <==> IsHolder(table, t, x) && AddressToken(x.address, t) !in rest
        {
          assert x in Get(before, t, {}) <==> IsHolder(table, t, x) && AddressToken(x.address, t) !in rest + {key};
          if AddressToken(x.address, t) == key {
            assert x == SortedByBalance(x.total, key.address);
          }
        }
      }
      balances := groups;
      stats := map t | t in groups :: |groups[t]|;
      new;
      forall t ensures AgreeAt(Contents(), table, t) {
        assert HoldersOf(Contents(), t) == Get(groups, t, {});
      }
    }

    method IncreaseHolder(key: AddressToken, prev: TokenBalance, amt: nat)
      modifies this
      ensures Contents() == Increase(old(Contents()), key, prev.Total(), amt)
    {
      var oldBalance := prev.balance + prev.transferable;
      var v := Get(balances, key.token, {});
      var existed := SortedByBalance(oldBalance, key.address) in v;
      v := v - {SortedByBalance(oldBalance, key.address)};
      if !existed {
        stats := stats[key.token := Get(stats, key.token, 0) + 1];
      }
      balances := balances[key.token := v + {SortedByBalance(oldBalance + amt, key.address)}];
    }

    /** `ok` is false where the source's unsigned subtractions would underflow. */
    method DecreaseHolder(key: AddressToken, prev: TokenBalance, amt: nat) returns (ok: bool)
      modifies this
      ensures ok <==> Decrease(old(Contents()), key, prev.Total(), amt).Some?
      ensures ok ==> Contents() == Decrease(old(Contents()), key, prev.Total(), amt).value
    {
      var oldBalance := prev.balance + prev.transferable;
      var v := Get(balances, key.token, {}) - {SortedByBalance(oldBalance, key.address)};
      if oldBalance < amt {
        return false;
      }
      var bal := oldBalance - amt;
      if bal != 0 {
        v := v + {SortedByBalance(bal, key.address)};
      } else if key.token in stats {
        if stats[key.token] == 0 {
          return false;
        }
        stats := stats[key.token := stats[key.token] - 1];
      }
      balances := balances[key.token := v];
      return true;
    }

    /** The number of holders reported for a tick is the number of its nonempty accounts; none is reported
        for ticks never counted, which have no holder, while one emptied since may be reported with 0. */
    method HoldersByTick(t: Tick, ghost table: map<AddressToken, TokenBalance>) returns (n: Option<nat>)
      requires Agree(Contents(), table)
      ensures n.Some? ==> n.value == |HoldersOf(Contents(), t)|
      ensures n.Some? ==> forall x :: x in HoldersOf(Contents(), t) <==> IsHolder(table, t, x)
      ensures n.None? ==> forall x :: !IsHolder(table, t, x)
      ensures n.None? <==> t !in stats
    {
      assert AgreeAt(Contents(), table, t);
      if t in stats {
        n := Some(stats[t]);
      } else {
        assert |HoldersOf(Contents(), t)| == 0;
        n := None;
      }
    }
  }
}
