/** Producer and consumer together: what the follower's events make of the indexer's chain. */
module Protocol {
  import opened BlockParser
  import opened UndoLog
  import opened ReorgStore
  import opened Consumer
  import opened ReorgRuns
  import opened ReorgOutputs
  import opened HandledReorgs
  import opened BlockStreams
  import opened IndexerLoop
  import CheckPoints
  import Follower

  /** The node's blocks: a block id stands for one block. */
  type NodeBlocks = CheckPoints.BlockId -> Env

  /** The blocks are the ones the ids stand for. */
  ghost predicate Holds(blocks: seq<Env>, ids: seq<CheckPoints.BlockId>, blk: NodeBlocks)
  {
    |blocks| == |ids| && forall i :: 0 <= i < |blocks| ==> blocks[i] == blk(ids[i])
  }

  ghost predicate ReceivedAs(e: ChainEvent, sent: Follower.Event, blk: NodeBlocks)
  {
    e.block == blk(sent.id) && e.block.height == sent.id.height && e.reorgLen == sent.reorgLen && e.tip == sent.tip
  }

  /** Each consumed event is the one sent. */
  ghost predicate Received(es: seq<ChainEvent>, sent: seq<Follower.Event>, blk: NodeBlocks)
  {
    |es| == |sent| && forall i :: 0 <= i < |es| ==> ReceivedAs(es[i], sent[i], blk)
  }

  /** The rollback asked for is still cached when it arrives. */
  predicate Fits(s: Survivors, e: ChainEvent)
    requires REORG_CACHE_MAX_LEN <= e.tip
  {
    e.reorgLen == 0 || (WithData(e, []).Cached() && e.reorgLen <= s.cached)
  }

  ghost predicate FitsAt(es: seq<ChainEvent>, i: nat)
    requires TipsOk(es) && i < |es|
  {
    Fits(Surviving(es[..i]), es[i])
  }

  ghost predicate WithinCache(es: seq<ChainEvent>, from: nat)
    requires TipsOk(es)
  {
    forall i :: from <= i < |es| ==> FitsAt(es, i)
  }

  lemma SameNext(s: Survivors, ids: seq<CheckPoints.BlockId>, e: ChainEvent, sent: Follower.Event, blk: NodeBlocks)
    requires REORG_CACHE_MAX_LEN <= e.tip && Fits(s, e) && Holds(s.blocks, ids, blk) && ReceivedAs(e, sent, blk)
    ensures Holds(Left(s.blocks, s.cached, e) + [e.block], Follower.Apply(ids, sent), blk)
  {
    assert Dropped(s.cached, WithData(e, [])) == e.reorgLen;
  }

  lemma SurvivingNext(es: seq<ChainEvent>, e: ChainEvent)
    requires TipsOk(es + [e])
    ensures TipsOk(es) && REORG_CACHE_MAX_LEN <= e.tip
    ensures Surviving(es + [e]).blocks == Left(Surviving(es).blocks, Surviving(es).cached, e) + [e.block]
  {
    assert (es + [e])[|es|] == e;
    forall i | 0 <= i < |es| ensures REORG_CACHE_MAX_LEN <= es[i].tip {
      assert (es + [e])[i] == es[i];
    }
    assert (es + [e])[..|es|] == es;
  }

  /** While rollbacks stay within the cache, the blocks that survive are those the follower's events
      describe, block for block. */
  lemma {:induction false} SameChain(past: seq<ChainEvent>, es: seq<ChainEvent>, ids: seq<CheckPoints.BlockId>, sent: seq<Follower.Event>, blk: NodeBlocks)
    requires TipsOk(past) && TipsOk(past + es) && Holds(Surviving(past).blocks, ids, blk)
    requires Received(es, sent, blk) && WithinCache(past + es, |past|)
    ensures Holds(Surviving(past + es).blocks, Follower.Applied(ids, sent), blk)
    decreases |es|
  {
    hide Holds, Left, Fits, ReceivedAs, Follower.Apply, Surviving;
    if es == [] {
      assert past + es == past;
    } else {
      var n := |es| - 1;
      var before := past + es[..n];
      assert past + es == before + [es[n]];
      SurvivingNext(before, es[n]);
      forall i | |past| <= i < |before| ensures FitsAt(before, i) {
        assert (past + es)[..i] == before[..i];
        assert FitsAt(past + es, i);
      }
      SameChain(past, es[..n], ids, sent[..n], blk);
      assert FitsAt(past + es, |before|) && (past + es)[..|before|] == before;
      assert ReceivedAs(es[n], sent[n], blk);
      SameNext(Surviving(before), Follower.Applied(ids, sent[..n]), es[n], sent[n], blk);
    }
  }

  /** Together: fed with what the follower sent, rollbacks within the cache, the indexer stands on exactly
      the follower's chain if and only if no rollback was lost. */
  lemma {:induction false} FollowsExactly(past: seq<ChainEvent>, es: seq<ChainEvent>, ids: seq<CheckPoints.BlockId>, sent: seq<Follower.Event>,
                       cp: CheckPoints.CheckPoint, lost: nat, blk: NodeBlocks)
    requires TipsOk(past) && TipsOk(past + es) && Holds(Surviving(past).blocks, ids, blk)
    requires Received(es, sent, blk) && WithinCache(past + es, |past|) && Follower.InStep(ids, cp, sent, lost)
    ensures Holds(Surviving(past + es).blocks, CheckPoints.Ids(cp), blk) <==> lost == 0
  {
    hide Surviving, Received, WithinCache, CheckPoints.Ids, Follower.Applied;
    SameChain(past, es, ids, sent, blk);
  }

  // ---- a rollback the follower lost ----

  /** The follower rolled back without emitting, pass after pass. */
  ghost predicate Silent(cps: seq<CheckPoints.CheckPoint>, ks: seq<nat>)
  {
    |cps| == |ks| + 1 && forall i :: 0 <= i < |ks| ==> Follower.Followed(cps[i], cps[i + 1], [], ks[i])
  }

  function SumOf(ks: seq<nat>): nat
  {
    if ks == [] then 0 else SumOf(ks[..|ks| - 1]) + ks[|ks| - 1]
  }

  lemma {:induction false} SilentPasses(cps: seq<CheckPoints.CheckPoint>, ks: seq<nat>)
    requires Silent(cps, ks)
    ensures var ids := CheckPoints.Ids(cps[0]);
            SumOf(ks) < |ids| && CheckPoints.Ids(cps[|ks|]) == ids[..|ids| - SumOf(ks)]
    decreases |ks|
  {
    hide CheckPoints.Ids;
    var ids := CheckPoints.Ids(cps[0]);
    if ks == [] {
      assert CheckPoints.Ids(cps[0]) != [] by { IdsSome(cps[0]); }
      assert ids[..|ids|] == ids;
    } else {
      var n := |ks| - 1;
      SilentPasses(cps[..n + 1], ks[..n]);
      assert Follower.Followed(cps[n], cps[n + 1], [], ks[n]);
      assert CheckPoints.Ids(cps[n + 1]) == CheckPoints.Ids(cps[n])[..|CheckPoints.Ids(cps[n])| - ks[n]] + Follower.IdsOf([]);
      assert Follower.IdsOf([]) == [];
    }
  }

  lemma IdsSome(cp: CheckPoints.CheckPoint)
    ensures CheckPoints.Ids(cp) != []
  {
  }

  lemma {:induction false} CachedBound(es: seq<ChainEvent>)
    requires TipsOk(es)
    ensures Surviving(es).cached <= |Surviving(es).blocks|
    decreases |es|
  {
    if es != [] {
      CachedBound(es[..|es| - 1]);
    }
  }

  lemma FirstLinked(before: CheckPoints.CheckPoint, after: CheckPoints.CheckPoint, sent: seq<Follower.Event>, k: nat)
    requires Follower.Followed(before, after, sent, k) && |sent| > 0
    ensures var ids := CheckPoints.Ids(before);
            k < |ids| && sent[0].reorgLen == k && sent[0].id.height == ids[|ids| - k - 1].height + 1
  {
    hide CheckPoints.Ids;
    assert Follower.Linked(CheckPoints.Ids(before)[|CheckPoints.Ids(before)| - k - 1], sent, 0, k);
  }

  /** The first block of a pass that emits, seen by a receiver that still has the `lost` blocks on top: it
      sits on what the receiver is left with exactly when nothing was lost. */
  lemma LostHeight(ids: seq<CheckPoints.BlockId>, lost: nat, before: CheckPoints.CheckPoint, after: CheckPoints.CheckPoint,
                   sent: seq<Follower.Event>, k: nat)
    requires CheckPoints.Ascending(ids) && lost < |ids| && CheckPoints.Ids(before) == ids[..|ids| - lost]
    requires Follower.Followed(before, after, sent, k) && |sent| > 0
    ensures k < |ids| && sent[0].reorgLen == k && (sent[0].id.height == ids[|ids| - k - 1].height + 1 <==> lost == 0)
  {
    hide CheckPoints.Ids, Follower.Followed, CheckPoints.Ascending;
    FirstLinked(before, after, sent, k);
    Higher(ids, |ids| - lost - k - 1, |ids| - k - 1);
  }

  lemma Higher(ids: seq<CheckPoints.BlockId>, i: nat, j: nat)
    requires CheckPoints.Ascending(ids) && i <= j < |ids|
    ensures i < j ==> ids[i].height < ids[j].height
  {
  }

  lemma LeftTop(s: Survivors, ids: seq<CheckPoints.BlockId>, e: ChainEvent, blk: NodeBlocks)
    requires REORG_CACHE_MAX_LEN <= e.tip && Holds(s.blocks, ids, blk) && WithData(e, []).Cached() && e.reorgLen < s.cached <= |s.blocks|
    ensures InOrder(s, e) <==> blk(ids[|ids| - e.reorgLen - 1]).height + 1 == e.block.height
  {
    var left := Left(s.blocks, s.cached, e);
    assert left[|left| - 1] == blk(ids[|ids| - e.reorgLen - 1]);
  }

  lemma RefusedWhenLost(past: seq<ChainEvent>, ids: seq<CheckPoints.BlockId>, lost: nat, before: CheckPoints.CheckPoint,
                        after: CheckPoints.CheckPoint, sent: seq<Follower.Event>, k: nat, e: ChainEvent, blk: NodeBlocks)
    requires CheckPoints.Ascending(ids) && lost < |ids| && CheckPoints.Ids(before) == ids[..|ids| - lost]
    requires Follower.Followed(before, after, sent, k) && |sent| > 0 && (forall id :: blk(id).height == id.height)
    requires TipsOk(past) && Holds(Surviving(past).blocks, ids, blk)
    requires REORG_CACHE_MAX_LEN <= e.tip && ReceivedAs(e, sent[0], blk) && WithData(e, []).Cached() && e.reorgLen < Surviving(past).cached
    ensures InOrder(Surviving(past), e) <==> lost == 0
  {
    hide CheckPoints.Ids, Holds, Surviving, InOrder, Follower.Followed, CheckPoints.Ascending;
    LostHeight(ids, lost, before, after, sent, k);
    CachedBound(past);
    LeftTop(Surviving(past), ids, e, blk);
  }

  /** So, as long as anything stays cached, the indexer refuses the first block after silent passes exactly
      when they lost a rollback. */
  lemma LostRollbackRefused(past: seq<ChainEvent>, cps: seq<CheckPoints.CheckPoint>, ks: seq<nat>, next: CheckPoints.CheckPoint,
                            sent: seq<Follower.Event>, k: nat, e: ChainEvent, blk: NodeBlocks)
    requires Silent(cps, ks) && CheckPoints.Ascending(CheckPoints.Ids(cps[0]))
    requires Follower.Followed(cps[|ks|], next, sent, k) && |sent| > 0 && (forall id :: blk(id).height == id.height)
    requires TipsOk(past) && Holds(Surviving(past).blocks, CheckPoints.Ids(cps[0]), blk)
    requires REORG_CACHE_MAX_LEN <= e.tip && ReceivedAs(e, sent[0], blk) && WithData(e, []).Cached() && e.reorgLen < Surviving(past).cached
    ensures InOrder(Surviving(past), e) <==> SumOf(ks) == 0
  {
    assert |cps| == |ks| + 1;
    hide CheckPoints.Ids, Silent, Holds, Surviving, InOrder, SumOf, Follower.Followed, CheckPoints.Ascending, ReceivedAs, TipsOk;
    SilentPasses(cps, ks);
    RefusedWhenLost(past, CheckPoints.Ids(cps[0]), SumOf(ks), cps[|ks|], next, sent, k, e, blk);
  }

  // ---- the whole way ----

  /** The indexer's chain of handled blocks is the follower's, when nothing was lost. */
  lemma IndexedIsFollowed(m: Moment, past: seq<ChainEvent>, es: seq<ChainEvent>, ids: seq<CheckPoints.BlockId>, sent: seq<Follower.Event>,
                          cp: CheckPoints.CheckPoint, blk: NodeBlocks, val: Values)
    requires TipsOk(past) && IndexedTo(m, past + es, val) && Holds(Surviving(past).blocks, ids, blk)
    requires Received(es, sent, blk) && WithinCache(past + es, |past|) && Follower.InStep(ids, cp, sent, 0)
    ensures |m.chain| == |CheckPoints.Ids(cp)| && forall i :: 0 <= i < |m.chain| ==> SameBlock(m.chain[i], blk(CheckPoints.Ids(cp)[i]))
  {
    hide Surviving, Received, WithinCache, CheckPoints.Ids, StandsOn, SameBlock, Follower.InStep;
    FollowsExactly(past, es, ids, sent, cp, 0, blk);
  }
}
