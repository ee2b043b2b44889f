/** The checkpoint chain: a persistent list of block ids in ascending height order. */
module CheckPoints {
  import opened Base

  datatype BlockId = BlockId(height: nat, hash: nat)

  datatype Result<+T, +E> = Ok(value: T) | Err(error: E)

  datatype CheckPoint = CheckPoint(block: BlockId, prev: Option<CheckPoint>)

  /** The block ids of the chain, lowest first. */
  function Ids(cp: CheckPoint): (ids: seq<BlockId>)
    ensures ids != [] && ids[|ids| - 1] == cp.block
  {
    match cp.prev
    case None => [cp.block]
    case Some(p) => Ids(p) + [cp.block]
  }

  predicate Ascending(ids: seq<BlockId>)
  {
    forall i, j :: 0 <= i < j < |ids| ==> ids[i].height < ids[j].height
  }

  function Push(cp: CheckPoint, block: BlockId): (r: Result<CheckPoint, CheckPoint>)
    ensures r.Ok? <==> cp.block.height < block.height
    ensures r.Ok? ==> Ids(r.value) == Ids(cp) + [block]
    ensures r.Ok? && Ascending(Ids(cp)) ==> Ascending(Ids(r.value))
    ensures r.Err? ==> r.error == cp
  {
    if cp.block.height < block.height then Ok(CheckPoint(block, Some(cp))) else Err(cp)
  }

  /** All blocks on top, or the chain as it was. */
  method Extend(cp: CheckPoint, blocks: seq<BlockId>) returns (r: Result<CheckPoint, CheckPoint>)
    requires Ascending(Ids(cp))
    ensures r.Ok? <==> Ascending(Ids(cp) + blocks)
    ensures r.Ok? ==> Ids(r.value) == Ids(cp) + blocks
    ensures r.Err? ==> r.error == cp
  {
    var curr := cp;
    for i := 0 to |blocks|
      invariant Ids(curr) == Ids(cp) + blocks[..i] && Ascending(Ids(curr))
    {
      match Push(curr, blocks[i]) {
        case Ok(next) =>
          assert blocks[..i + 1] == blocks[..i] + [blocks[i]];
          curr := next;
        case Err(_) =>
          var all := Ids(cp) + blocks;
          assert all[|Ids(cp)| + i] == blocks[i] && all[|Ids(cp)| + i - 1] == Ids(curr)[|Ids(curr)| - 1] by {
            assert all[..|Ids(cp)| + i] == Ids(curr);
          }
          return Err(cp);
      }
    }
    assert blocks[..|blocks|] == blocks;
    return Ok(curr);
  }

  /** A chain of the given ids; the error is the chain built so far, if any. */
  method FromBlockIds(ids: seq<BlockId>) returns (r: Result<CheckPoint, Option<CheckPoint>>)
    ensures r.Ok? <==> ids != [] && Ascending(ids)
    ensures r.Ok? ==> Ids(r.value) == ids
    ensures r.Err? ==> (r.error.None? <==> ids == [])
    ensures r.Err? && r.error.Some? ==> Ascending(Ids(r.error.value)) && Ids(r.error.value) < ids
  {
    if ids == [] {
      return Err(None);
    }
    var acc := CheckPoint(ids[0], None);
    for i := 1 to |ids|
      invariant Ids(acc) == ids[..i] && Ascending(ids[..i])
    {
      match Push(acc, ids[i]) {
        case Ok(next) =>
          assert ids[..i + 1] == ids[..i] + [ids[i]];
          acc := next;
        case Err(_) =>
          assert ids[i - 1] == ids[..i][i - 1];
          return Err(Some(acc));
      }
    }
    assert ids[..|ids|] == ids;
    return Ok(acc);
  }

  // ---- inserting at a height ----

  /** How many blocks of an ascending chain are below `height`. */
  function Rank(ids: seq<BlockId>, height: nat): (k: nat)
    ensures k <= |ids|
    ensures k > 0 ==> ids[k - 1].height < height
    ensures forall i :: k <= i < |ids| ==> ids[i].height >= height
  {
    if ids == [] then 0
    else if ids[|ids| - 1].height < height then |ids|
    else Rank(ids[..|ids| - 1], height)
  }

  function Below(ids: seq<BlockId>, height: nat): seq<BlockId>
  {
    ids[..Rank(ids, height)]
  }

  function AboveOf(ids: seq<BlockId>, height: nat): seq<BlockId>
  {
    ids[Rank(ids, height + 1)..]
  }

  predicate HasHeight(ids: seq<BlockId>, height: nat)
  {
    exists i :: 0 <= i < |ids| && ids[i].height == height
  }

  /** What inserting comes to on the list of ids: nothing for a known block; a conflicting block and
      everything above it give way; otherwise the block goes in at its height. None is a panic: a
      block below the whole chain, or a conflict at its bottom. */
  function Inserted(ids: seq<BlockId>, b: BlockId): Option<seq<BlockId>>
  {
    if b in ids then Some(ids)
    else if Below(ids, b.height) == [] then None
    else if HasHeight(ids, b.height) then (if b.height == 0 then None else Some(Below(ids, b.height) + [b]))
    else Some(Below(ids, b.height) + [b] + AboveOf(ids, b.height))
  }

  /** An ascending chain falls into the part below, at most one block at the height, the part above. */
  lemma SplitAt(ids: seq<BlockId>, height: nat)
    requires Ascending(ids)
    ensures Rank(ids, height) <= Rank(ids, height + 1) <= Rank(ids, height) + 1
    ensures HasHeight(ids, height) <==> Rank(ids, height) < |ids| && ids[Rank(ids, height)].height == height
    ensures !HasHeight(ids, height) ==> Rank(ids, height + 1) == Rank(ids, height)
  {
    var k, l := Rank(ids, height), Rank(ids, height + 1);
    if l > k {
      assert ids[l - 1].height < height + 1 && ids[k].height >= height;
      assert HasHeight(ids, height);
    }
    if i :| 0 <= i < |ids| && ids[i].height == height {
      assert i == k;
    }
  }

  lemma JoinAscends(below: seq<BlockId>, b: BlockId, above: seq<BlockId>)
    requires Ascending(below) && Ascending(above)
    requires forall i :: 0 <= i < |below| ==> below[i].height < b.height
    requires forall i :: 0 <= i < |above| ==> above[i].height > b.height
    ensures Ascending(below + [b] + above)
  {
  }

  /** The blocks strictly below a height, and those strictly above it. */
  lemma PartsAscend(ids: seq<BlockId>, height: nat)
    requires Ascending(ids)
    ensures Ascending(Below(ids, height)) && Ascending(AboveOf(ids, height))
    ensures forall i :: 0 <= i < |Below(ids, height)| ==> Below(ids, height)[i].height < height
    ensures forall i :: 0 <= i < |AboveOf(ids, height)| ==> AboveOf(ids, height)[i].height > height
  {
    hide Rank;
    var k := Rank(ids, height);
    forall i | 0 <= i < k ensures ids[i].height < height {
      assert ids[i].height <= ids[k - 1].height;
    }
  }

  /** Inserting keeps the chain ascending, puts the block on it, and leaves everything below alone. */
  lemma InsertedKeeps(ids: seq<BlockId>, b: BlockId)
    requires Ascending(ids) && Inserted(ids, b).Some?
    ensures var r := Inserted(ids, b).value;
            && Ascending(r) && b in r
            && Below(ids, b.height) <= r
            && forall i :: |Below(ids, b.height)| <= i < |r| ==> r[i].height >= b.height
  {
    hide Ascending, Rank, AboveOf;
    PartsAscend(ids, b.height);
    if b !in ids {
      hide Below;
      var below, above := Below(ids, b.height), AboveOf(ids, b.height);
      NoneAscend();
      JoinAscends(below, b, above);
      JoinAscends(below, b, []);
      assert below + [b] + [] == below + [b];
      assert Inserted(ids, b).value[|below|] == b;
    }
  }

  lemma NoneAscend()
    ensures Ascending([])
  {
  }

  lemma {:induction false} AtRank(ids: seq<BlockId>, i: nat)
    requires Ascending(ids) && i < |ids|
    ensures i == Rank(ids, ids[i].height) && HasHeight(ids, ids[i].height)
  {
    hide Ascending;
    var k := Rank(ids, ids[i].height);
    Ascends(ids, if i < k then k - 1 else k, i);
  }

  lemma Ascends(ids: seq<BlockId>, k: nat, i: nat)
    requires Ascending(ids) && k < |ids| && i < |ids|
    ensures k < i <==> ids[k].height < ids[i].height
  {
    if k < i {
      assert ids[k].height < ids[i].height;
    } else if i < k {
      assert ids[i].height < ids[k].height;
    }
  }

  lemma InsertedOnTop(ids: seq<BlockId>, b: BlockId)
    requires Ascending(ids) && ids != [] && b.height > ids[|ids| - 1].height
    ensures Inserted(ids, b) == Some(ids + [b])
  {
    if b in ids {
      var i :| 0 <= i < |ids| && ids[i] == b;
      AtRank(ids, i);
      assert false;
    }
    SplitAt(ids, b.height);
    assert Below(ids, b.height) == ids && AboveOf(ids, b.height) == [];
    assert ids + [b] + [] == ids + [b];
  }

  /** Ids collected top first, as the walk down collects them. */
  function Reversed(ids: seq<BlockId>): (r: seq<BlockId>)
    ensures |r| == |ids|
  {
    if ids == [] then [] else [ids[|ids| - 1]] + Reversed(ids[..|ids| - 1])
  }

  datatype Walked = Known | Panicked | At(base: CheckPoint, tail: seq<BlockId>)

  /** Where the walk is to stop. */
  ghost predicate EndsAt(ids: seq<BlockId>, b: BlockId, r: Walked)
  {
    var k := Rank(ids, b.height);
    && (r.Known? <==> b in ids)
    && (r.Panicked? <==> b !in ids && k == 0)
    && (r.At? ==> Ids(r.base) == ids[..k] && Reversed(r.tail) == if HasHeight(ids, b.height) then [] else ids[k..])
  }

  /** The walk stands on the `n`-th block from the bottom, with everything above collected. */
  ghost predicate Passed(ids: seq<BlockId>, height: nat, curr: CheckPoint, tail: seq<BlockId>, n: nat)
  {
    && 0 < n <= |ids| && Rank(ids, height) <= n && Ids(curr) == ids[..n] && Reversed(tail) == ids[n..]
    && (n < |ids| ==> ids[n].height > height)
  }

  lemma IdsStep(cp: CheckPoint)
    ensures cp.prev.None? <==> |Ids(cp)| == 1
    ensures cp.prev.Some? ==> Ids(cp.prev.value) == Ids(cp)[..|Ids(cp)| - 1]
  {
  }

  lemma NotAt(ids: seq<BlockId>, b: BlockId)
    requires Ascending(ids) && (Rank(ids, b.height) < |ids| ==> ids[Rank(ids, b.height)] != b)
    ensures b !in ids
  {
    if i :| 0 <= i < |ids| && ids[i] == b {
      AtRank(ids, i);
    }
  }

  lemma Descend(ids: seq<BlockId>, b: BlockId, curr: CheckPoint, tail: seq<BlockId>, n: nat)
    requires Ascending(ids) && Passed(ids, b.height, curr, tail, n) && curr.block.height > b.height
    ensures curr.prev.None? ==> EndsAt(ids, b, Panicked)
    ensures curr.prev.Some? ==> Passed(ids, b.height, curr.prev.value, tail + [curr.block], n - 1)
  {
    hide Rank, Ids, Ascending;
    assert ids[n - 1] == curr.block;
    IdsStep(curr);
    assert ids[..n][..n - 1] == ids[..n - 1];
    assert ids[n - 1..] == [ids[n - 1]] + ids[n..];
    if curr.prev.None? {
      NotAt(ids, b);
    }
  }

  lemma Arrive(ids: seq<BlockId>, b: BlockId, curr: CheckPoint, tail: seq<BlockId>, n: nat)
    requires Ascending(ids) && Passed(ids, b.height, curr, tail, n) && curr.block.height <= b.height
    ensures curr.block == b ==> EndsAt(ids, b, Known)
    ensures curr.block.height < b.height ==> EndsAt(ids, b, At(curr, tail))
    ensures curr.block.height == b.height && curr.block != b ==>
              if b.height == 0 || curr.prev.None? then EndsAt(ids, b, Panicked) else EndsAt(ids, b, At(curr.prev.value, []))
  {
    hide Rank, Ids, Ascending;
    assert ids[n - 1] == curr.block;
    if curr.block.height == b.height {
      AtRank(ids, n - 1);
      IdsStep(curr);
      assert ids[..n][..n - 1] == ids[..n - 1];
      if curr.block != b {
        NotAt(ids, b);
      }
    } else {
      SplitAt(ids, b.height);
      assert Rank(ids, b.height) == n;
      NotAt(ids, b);
    }
  }

  /** Walks down to where the block belongs, collecting the ids passed on the way. */
  method Walk(cp: CheckPoint, b: BlockId) returns (r: Walked)
    requires Ascending(Ids(cp))
    ensures EndsAt(Ids(cp), b, r)
  {
    ghost var ids := Ids(cp);
    ghost var n: nat := |ids|;
    var curr := cp;
    var tail: seq<BlockId> := [];
    assert ids[..n] == ids && ids[n..] == [] && Reversed(tail) == [];
    hide Rank, Ids, Ascending, EndsAt, Reversed;
    while curr.block.height > b.height
      invariant Passed(ids, b.height, curr, tail, n)
      decreases curr
    {
      assert n > 0;
      Descend(ids, b, curr, tail, n);
      tail := tail + [curr.block];
      if curr.prev.None? {
        return Panicked;
      }
      curr, n := curr.prev.value, n - 1;
    }
    Arrive(ids, b, curr, tail, n);
    if curr.block.height == b.height {
      if curr.block.hash == b.hash {
        return Known;
      }
      if b.height == 0 || curr.prev.None? {
        return Panicked;
      }
      return At(curr.prev.value, []);
    }
    return At(curr, tail);
  }

  lemma WalkedInserts(ids: seq<BlockId>, b: BlockId, r: Walked)
    requires Ascending(ids) && EndsAt(ids, b, r)
    ensures r.Known? ==> Inserted(ids, b) == Some(ids)
    ensures r.Panicked? ==> Inserted(ids, b) == None
    ensures r.At? ==> Inserted(ids, b) == Some(Ids(r.base) + ([b] + Reversed(r.tail)))
  {
    hide Rank, Ids, Ascending, Reversed;
    SplitAt(ids, b.height);
    var k := Rank(ids, b.height);
    if r.At? {
      assert b.height > 0;
      assert [b] + [] == [b];
      assert ids[..k] + [b] + ids[k..] == ids[..k] + ([b] + ids[k..]);
    }
  }

  method Insert(cp: CheckPoint, b: BlockId) returns (r: Option<CheckPoint>)
    requires Ascending(Ids(cp))
    ensures r.Some? <==> Inserted(Ids(cp), b).Some?
    ensures r.Some? ==> Ids(r.value) == Inserted(Ids(cp), b).value
  {
    var walked := Walk(cp, b);
    hide Rank, Ids, Reversed, Inserted;
    WalkedInserts(Ids(cp), b, walked);
    match walked {
      case Known => return Some(cp);
      case Panicked => return None;
      case At(base, tail) =>
        InsertedKeeps(Ids(cp), b);
        BaseAscends(Ids(cp), b, walked);
        var extended := Extend(base, [b] + Reversed(tail));
        return Some(extended.value);
    }
  }

  lemma BaseAscends(ids: seq<BlockId>, b: BlockId, r: Walked)
    requires Ascending(ids) && EndsAt(ids, b, r) && r.At?
    ensures Ascending(Ids(r.base))
  {
    hide Rank, Ids, Reversed;
  }
}
