/** History ids: every logged action gets one fresh id, a send between two parties two of them. */
module HistoryIds {
  import opened Base
  import opened Ledger

  /** A history entry as stored under one address. */
  datatype Event =
    | Deployed(max: nat, lim: nat, dec: nat, txid: nat, vout: nat)
    | Minted(amt: nat, txid: nat, vout: nat)
    | DeployedTransfer(amt: nat, txid: nat, vout: nat)
    | Sent(amt: nat, recipient: FullHash, txid: nat, vout: nat)
    | Received(amt: nat, sender: FullHash, txid: nat, vout: nat)
    | SentToSelf(amt: nat, txid: nat, vout: nat)

  datatype AddressTokenId = AddressTokenId(address: FullHash, token: Tick, id: nat)

  datatype HistoryValue = HistoryValue(height: nat, event: Event)

  type Entry = (AddressTokenId, HistoryValue)

  function FromHistory(a: HistoryAction): Event
  {
    match a
    case DeployEvent(_, max, lim, dec, _, txid, vout) => Deployed(max, lim, dec, txid, vout)
    case MintEvent(_, amt, _, txid, vout) => Minted(amt, txid, vout)
    case DeployTransferEvent(_, amt, _, txid, vout) => DeployedTransfer(amt, txid, vout)
    case SendEvent(_, amt, recipient, sender, txid, vout) =>
      if sender == recipient then SentToSelf(amt, txid, vout) else Sent(amt, recipient, txid, vout)
  }

  /** The output a stored event belongs to. */
  function EventOutPoint(e: Event): OutPoint
  {
    OutPoint(e.txid, e.vout)
  }

  predicate TwoParty(a: HistoryAction)
  {
    a.SendEvent? && a.sender != a.recipient
  }

  function IdsOf(a: HistoryAction): nat
  {
    if TwoParty(a) then 2 else 1
  }

  /** The entries one action files after id `last`: its recipient's, and for a send between two
      parties the sender's first, under the later id. */
  function EntriesOf(last: nat, height: nat, a: HistoryAction): seq<Entry>
  {
    var key := AddressTokenId(a.recipient, a.tick, last + 1);
    if TwoParty(a) then
      [(AddressTokenId(a.sender, a.tick, last + 2), HistoryValue(height, FromHistory(a))),
       (key, HistoryValue(height, Received(a.amt, a.sender, a.txid, a.vout)))]
    else
      [(key, HistoryValue(height, FromHistory(a)))]
  }

  function LastId(last: nat, actions: seq<HistoryAction>): nat
  {
    if actions == [] then last else LastId(last, actions[..|actions| - 1]) + IdsOf(actions[|actions| - 1])
  }

  function Assigned(last: nat, height: nat, actions: seq<HistoryAction>): seq<Entry>
  {
    if actions == [] then []
    else
      var init := actions[..|actions| - 1];
      Assigned(last, height, init) + EntriesOf(LastId(last, init), height, actions[|actions| - 1])
  }

  /** The history pass of a block. */
  method AssignIds(last: nat, height: nat, actions: seq<HistoryAction>) returns (lastHistoryId: nat, history: seq<Entry>)
    ensures lastHistoryId == LastId(last, actions) && history == Assigned(last, height, actions)
  {
    lastHistoryId := last;
    history := [];
    for i := 0 to |actions|
      invariant lastHistoryId == LastId(last, actions[..i]) && history == Assigned(last, height, actions[..i])
    {
      assert actions[..i + 1][..i] == actions[..i];
      var action := actions[i];
      lastHistoryId := lastHistoryId + 1;
      var results: seq<Entry> := [];
      var key := AddressTokenId(action.recipient, action.tick, lastHistoryId);
      var event := FromHistory(action);
      if event.Sent? {
        lastHistoryId := lastHistoryId + 1;
        results := [(AddressTokenId(action.sender, action.tick, lastHistoryId), HistoryValue(height, event)),
                    (key, HistoryValue(height, Received(event.amt, action.sender, event.txid, event.vout)))];
      } else {
        results := [(key, HistoryValue(height, event))];
      }
      history := history + results;
    }
    assert actions[..|actions|] == actions;
  }

  // ---- ids are handed out without gaps ----

  /** `es` carries exactly the ids after `lo` up to `hi`, each once. */
  ghost predicate Numbers(es: seq<Entry>, lo: nat, hi: nat)
  {
    && lo <= hi
    && (forall i :: 0 <= i < |es| ==> lo < es[i].0.id <= hi)
    && (forall i, j :: 0 <= i < j < |es| ==> es[i].0.id != es[j].0.id)
    && (forall id: nat :: lo < id <= hi ==> Carries(es, id))
  }

  ghost predicate Carries(es: seq<Entry>, id: nat)
  {
    exists i :: 0 <= i < |es| && es[i].0.id == id
  }

  lemma NumbersJoin(xs: seq<Entry>, ys: seq<Entry>, lo: nat, mid: nat, hi: nat)
    requires Numbers(xs, lo, mid) && Numbers(ys, mid, hi)
    ensures Numbers(xs + ys, lo, hi)
  {
    forall id: nat | lo < id <= hi ensures Carries(xs + ys, id) {
      if id <= mid {
        assert Carries(xs, id);
        var i :| 0 <= i < |xs| && xs[i].0.id == id;
        assert (xs + ys)[i].0.id == id;
      } else {
        assert Carries(ys, id);
        var i :| 0 <= i < |ys| && ys[i].0.id == id;
        assert (xs + ys)[|xs| + i].0.id == id;
      }
    }
  }

  lemma EntriesNumbered(last: nat, height: nat, a: HistoryAction)
    ensures Numbers(EntriesOf(last, height, a), last, last + IdsOf(a))
  {
    var es := EntriesOf(last, height, a);
    forall id: nat | last < id <= last + IdsOf(a) ensures Carries(es, id) {
      if id == last + 1 {
        assert es[|es| - 1].0.id == id;
      } else {
        assert es[0].0.id == id;
      }
    }
  }

  /** The ids of a block are exactly those after the stored last id up to the new one, each once. */
  lemma {:induction false} IdsAreGapFree(last: nat, height: nat, actions: seq<HistoryAction>)
    ensures Numbers(Assigned(last, height, actions), last, LastId(last, actions))
    ensures forall i :: 0 <= i < |Assigned(last, height, actions)| ==> Assigned(last, height, actions)[i].1.height == height
    decreases |actions|
  {
    assert Numbers([], last, last);
    hide Numbers;
    if actions != [] {
      var n := |actions| - 1;
      IdsAreGapFree(last, height, actions[..n]);
      var mid := LastId(last, actions[..n]);
      EntriesNumbered(mid, height, actions[n]);
      NumbersJoin(Assigned(last, height, actions[..n]), EntriesOf(mid, height, actions[n]), last, mid, LastId(last, actions));
    }
  }

  /** Both sides of the k-th action are on file: the recipient under the first id, and, when there are
      two parties, the sender under the next. */
  lemma {:induction false} BothSidesFiled(last: nat, height: nat, actions: seq<HistoryAction>, k: nat)
    requires k < |actions|
    ensures var a := actions[k];
            var id := LastId(last, actions[..k]);
            var es := Assigned(last, height, actions);
            if TwoParty(a) then
              && (AddressTokenId(a.sender, a.tick, id + 2), HistoryValue(height, Sent(a.amt, a.recipient, a.txid, a.vout))) in es
              && (AddressTokenId(a.recipient, a.tick, id + 1), HistoryValue(height, Received(a.amt, a.sender, a.txid, a.vout))) in es
            else
              (AddressTokenId(a.recipient, a.tick, id + 1), HistoryValue(height, FromHistory(a))) in es
    decreases |actions|
  {
    var n := |actions| - 1;
    if k < n {
      BothSidesFiled(last, height, actions[..n], k);
      assert actions[..n][..k] == actions[..k];
    }
  }

  // ---- the sorted list of a block ----

  function InsertKey(k: AddressTokenId, keys: seq<AddressTokenId>): seq<AddressTokenId>
  {
    if keys == [] || k.id <= keys[0].id then [k] + keys else [keys[0]] + InsertKey(k, keys[1..])
  }

  /** The keys of a block's history, sorted by id. */
  function SortKeys(es: seq<Entry>): seq<AddressTokenId>
  {
    if es == [] then [] else InsertKey(es[|es| - 1].0, SortKeys(es[..|es| - 1]))
  }

  ghost predicate Ascending(keys: seq<AddressTokenId>)
  {
    forall i, j :: 0 <= i < j < |keys| ==> keys[i].id < keys[j].id
  }

  lemma {:induction false} InsertAscends(k: AddressTokenId, keys: seq<AddressTokenId>)
    requires Ascending(keys) && forall i :: 0 <= i < |keys| ==> keys[i].id != k.id
    ensures Ascending(InsertKey(k, keys))
    ensures forall x :: x in InsertKey(k, keys) <==> x == k || x in keys
    decreases |keys|
  {
    if keys != [] && k.id > keys[0].id {
      InsertAscends(k, keys[1..]);
      assert forall x :: x in keys <==> x == keys[0] || x in keys[1..];
      var rest := InsertKey(k, keys[1..]);
      forall i | 0 <= i < |rest| ensures keys[0].id < rest[i].id {
        assert rest[i] in rest;
      }
    }
  }

  /** The stored list of a block holds exactly its history keys, in strictly increasing id order. */
  lemma {:induction false} SortedStrictly(es: seq<Entry>)
    requires forall i, j :: 0 <= i < j < |es| ==> es[i].0.id != es[j].0.id
    ensures Ascending(SortKeys(es))
    ensures forall x :: x in SortKeys(es) <==> exists i :: 0 <= i < |es| && es[i].0 == x
    decreases |es|
  {
    hide InsertKey, Ascending;
    if es == [] {
      NoneAscend();
    } else {
      var n := |es| - 1;
      SortedStrictly(es[..n]);
      var init := SortKeys(es[..n]);
      forall x | x in init ensures x.id != es[n].0.id {
        var j :| 0 <= j < |es[..n]| && es[..n][j].0 == x;
        assert es[j].0 == x;
      }
      assert forall i :: 0 <= i < |init| ==> init[i] in init;
      InsertAscends(es[n].0, init);
      forall x ensures x in SortKeys(es) <==> exists i :: 0 <= i < |es| && es[i].0 == x {
        if x in init {
          var j :| 0 <= j < |es[..n]| && es[..n][j].0 == x;
          assert es[j].0 == x;
        }
        if i :| 0 <= i < |es| && es[i].0 == x && i < n {
          assert es[..n][i].0 == x;
        }
      }
    }
  }

  lemma NoneAscend()
    ensures Ascending([])
  {
  }
}
