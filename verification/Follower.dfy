/** The producer side of the reorg protocol: one pass after another of the loop that follows the
    node, for whatever the node answers. */
module Follower {
  import opened Base
  import opened CheckPoints

  datatype HeaderInfo = HeaderInfo(confirmations: int, height: nat)

  datatype NodeBlock = NodeBlock(hash: nat, prevHash: nat)

  /** The node and the channel: the n-th call may be answered in any way at all. None stands for an
      error answer, `accepts` for a channel that still takes events. */
  datatype Oracle = Oracle(
    bestHash: nat -> Option<nat>,
    info: (nat, nat) -> Option<HeaderInfo>,
    hashAt: (nat, nat) -> Option<nat>,
    block: (nat, nat) -> Option<NodeBlock>,
    accepts: nat -> bool)

  /** The node returns the block it was asked for. */
  ghost predicate Honest(node: Oracle)
  {
    forall n, hash :: node.block(n, hash).Some? ==> node.block(n, hash).value.hash == hash
  }

  datatype Event = Event(id: BlockId, prevHash: nat, reorgLen: nat, tip: nat)

  /** How a pass ends: normally, or in one of the source's panics, or with a closed channel. */
  datatype Ending = Finished | NodeFailed | TooLong | NoPrevious | Disordered | Closed

  /** What the follower keeps between passes. */
  datatype Position = Position(checkpoint: CheckPoint, lastHash: nat)

  /** One event read as an instruction: drop `reorgLen` blocks, then append the new one. */
  function Apply(ids: seq<BlockId>, e: Event): seq<BlockId>
  {
    ids[..if e.reorgLen <= |ids| then |ids| - e.reorgLen else 0] + [e.id]
  }

  function Applied(ids: seq<BlockId>, events: seq<Event>): seq<BlockId>
  {
    if events == [] then ids else Apply(Applied(ids, events[..|events| - 1]), events[|events| - 1])
  }

  function IdsOf(events: seq<Event>): (ids: seq<BlockId>)
    ensures |ids| == |events|
    ensures forall i :: 0 <= i < |events| ==> ids[i] == events[i].id
  {
    seq(|events|, i requires 0 <= i < |events| => events[i].id)
  }

  /** Event `i` of a pass that rolled `k` blocks back: only the first event says so, and each block
      sits on the one before it, at the next height. */
  ghost predicate Linked(base: BlockId, events: seq<Event>, i: nat, k: nat)
    requires i < |events|
  {
    var below := if i == 0 then base else events[i - 1].id;
    && events[i].reorgLen == (if i == 0 then k else 0)
    && events[i].prevHash == below.hash && events[i].id.height == below.height + 1
  }

  ghost predicate PassEvents(base: BlockId, events: seq<Event>, k: nat)
  {
    forall i :: 0 <= i < |events| ==> Linked(base, events, i, k)
  }

  /** The chain after a pass: `k` blocks off, the emitted ones on. */
  ghost predicate Followed(before: CheckPoint, after: CheckPoint, events: seq<Event>, k: nat)
  {
    && k < |Ids(before)|
    && Ids(after) == Ids(before)[..|Ids(before)| - k] + IdsOf(events)
    && PassEvents(Ids(before)[|Ids(before)| - k - 1], events, k)
  }

  lemma PassInit(base: BlockId, events: seq<Event>, k: nat)
    requires PassEvents(base, events, k) && events != []
    ensures PassEvents(base, events[..|events| - 1], k) && events[|events| - 1].reorgLen == if |events| == 1 then k else 0
  {
    assert Linked(base, events, |events| - 1, k);
    var init := events[..|events| - 1];
    forall i | 0 <= i < |init| ensures Linked(base, init, i, k) {
      assert Linked(base, events, i, k);
    }
  }

  lemma {:induction false} AppliedOne(ids: seq<BlockId>, events: seq<Event>, k: nat, base: BlockId)
    requires k <= |ids| && PassEvents(base, events, k) && events != []
    ensures Applied(ids, events) == ids[..|ids| - k] + IdsOf(events)
    decreases |events|
  {
    hide PassEvents;
    var n := |events| - 1;
    PassInit(base, events, k);
    if n == 0 {
      assert events[..0] == [] && Applied(ids, events[..0]) == ids;
      assert IdsOf(events) == [events[0].id];
    } else {
      AppliedOne(ids, events[..n], k, base);
      var before := Applied(ids, events[..n]);
      assert before[..|before|] == before;
      assert IdsOf(events) == IdsOf(events[..n]) + [events[n].id];
    }
  }

  /** The events of a pass turn the old chain into the new one exactly when the pass emitted a block
      or rolled none back. */
  lemma PassExactly(before: CheckPoint, after: CheckPoint, events: seq<Event>, k: nat)
    requires Followed(before, after, events, k)
    ensures Applied(Ids(before), events) == Ids(after) <==> events != [] || k == 0
  {
    if events != [] {
      AppliedOne(Ids(before), events, k, Ids(before)[|Ids(before)| - k - 1]);
    } else {
      assert IdsOf(events) == [];
      assert Ids(before)[..|Ids(before)|] == Ids(before);
      assert |Ids(after)| == |Ids(before)| - k;
    }
  }

  // ---- one pass ----

  /** `k` blocks off the chain `ids`. */
  ghost predicate RolledTo(ids: seq<BlockId>, cp: CheckPoint, k: nat)
  {
    k < |ids| && Ids(cp) == ids[..|ids| - k]
  }

  lemma RollStart(cp: CheckPoint)
    ensures RolledTo(Ids(cp), cp, 0)
  {
  }

  lemma RollStep(ids: seq<BlockId>, cp: CheckPoint, k: nat)
    requires RolledTo(ids, cp, k) && cp.prev.Some?
    ensures RolledTo(ids, cp.prev.value, k + 1)
  {
    IdsStep(cp);
    assert ids[..|ids| - k][..|ids| - k - 1] == ids[..|ids| - (k + 1)];
  }

  /** Steps down until the node knows the block on top as part of its chain. */
  method RollBack(node: Oracle, start: Position, maxLen: nat, clock: nat)
    returns (pos: Position, k: nat, ending: Ending, now: nat)
    requires start.lastHash == start.checkpoint.block.hash
    ensures pos.lastHash == pos.checkpoint.block.hash && RolledTo(Ids(start.checkpoint), pos.checkpoint, k)
    ensures ending in {Finished, TooLong, NoPrevious} && (ending.Finished? ==> k <= maxLen) && (ending.TooLong? ==> k == maxLen + 1)
  {
    pos, k, now := start, 0, clock;
    RollStart(start.checkpoint);
    hide RolledTo, Ids;
    while true
      invariant pos.lastHash == pos.checkpoint.block.hash && RolledTo(Ids(start.checkpoint), pos.checkpoint, k) && k <= maxLen + 1
      decreases maxLen + 1 - k
    {
      if k > maxLen {
        return pos, k, TooLong, now;
      }
      var info := node.info(now, pos.checkpoint.block.hash);
      now := now + 1;
      if info.Some? && info.value.confirmations >= 0 {
        return pos, k, Finished, now;
      }
      if pos.checkpoint.prev.None? {
        return pos, k, NoPrevious, now;
      }
      RollStep(Ids(start.checkpoint), pos.checkpoint, k);
      var prev := pos.checkpoint.prev.value;
      pos, k := Position(prev, prev.block.hash), k + 1;
    }
  }

  lemma HonestHash(node: Oracle, n: nat, hash: nat)
    requires Honest(node) && node.block(n, hash).Some?
    ensures node.block(n, hash).value.hash == hash
  {
  }

  /** Where the pass stands after `events`: on top of what it started from, last hash in step. */
  ghost predicate Standing(start: CheckPoint, pos: Position, events: seq<Event>, counter: nat)
  {
    && Ascending(Ids(pos.checkpoint)) && Ids(pos.checkpoint) == Ids(start) + IdsOf(events)
    && PassEvents(start.block, events, counter)
    && (if events == [] then start.block else events[|events| - 1].id) == pos.checkpoint.block
  }

  /** Asks for the next block, checks that it sits on the checkpoint, sends it and steps onto it. */
  method Advance(node: Oracle, start: Position, counter: nat, bestHeight: nat, clock: nat)
    returns (pos: Position, events: seq<Event>, ending: Ending, now: nat)
    requires Honest(node) && Ascending(Ids(start.checkpoint)) && start.lastHash == start.checkpoint.block.hash
    ensures Standing(start.checkpoint, pos, events, counter)
    ensures ending in {Finished, NodeFailed, Closed} && (!ending.Closed? ==> pos.lastHash == pos.checkpoint.block.hash)
  {
    pos, events, now := start, [], clock;
    var reorgCounter := counter;
    assert Ids(start.checkpoint) + IdsOf(events) == Ids(start.checkpoint);
    assert Standing(start.checkpoint, pos, events, counter);
    hide Standing, Honest;
    while pos.checkpoint.block.height < bestHeight
      invariant pos.lastHash == pos.checkpoint.block.hash && Standing(start.checkpoint, pos, events, counter)
      invariant reorgCounter == if events == [] then counter else 0
      decreases bestHeight - pos.checkpoint.block.height
    {
      var nextHeight := pos.checkpoint.block.height + 1;
      var nextHash := node.hashAt(now, nextHeight);
      if nextHash.None? {
        return pos, events, NodeFailed, now + 1;
      }
      var block := node.block(now + 1, nextHash.value);
      if block.None? {
        return pos, events, NodeFailed, now + 2;
      }
      HonestHash(node, now + 1, nextHash.value);
      now := now + 2;
      if block.value.prevHash != pos.checkpoint.block.hash {
        break;
      }
      var id := BlockId(nextHeight, nextHash.value);
      var event := Event(id, block.value.prevHash, reorgCounter, bestHeight);
      if pos.lastHash != block.value.prevHash {
        return pos, events, Disordered, now;
      }
      StandingIgnoresHash(start.checkpoint, pos, block.value.hash, events, counter);
      pos := pos.(lastHash := block.value.hash);
      now := now + 1;
      if !node.accepts(now) {
        return pos, events, Closed, now;
      }
      OnTop(start.checkpoint, pos, events, counter, id);
      var next := Insert(pos.checkpoint, id);
      StandingNext(start.checkpoint, pos, events, event, counter, next.value);
      events := events + [event];
      pos := pos.(checkpoint := next.value);
      reorgCounter := 0;
    }
    return pos, events, Finished, now;
  }

  lemma StandingIgnoresHash(start: CheckPoint, pos: Position, hash: nat, events: seq<Event>, counter: nat)
    requires Standing(start, pos, events, counter)
    ensures Standing(start, pos.(lastHash := hash), events, counter)
  {
  }

  lemma OnTop(start: CheckPoint, pos: Position, events: seq<Event>, counter: nat, id: BlockId)
    requires Standing(start, pos, events, counter) && id.height == pos.checkpoint.block.height + 1
    ensures Ascending(Ids(pos.checkpoint))
    ensures Inserted(Ids(pos.checkpoint), id) == Some(Ids(pos.checkpoint) + [id])
  {
    InsertedOnTop(Ids(pos.checkpoint), id);
  }

  lemma StandingNext(start: CheckPoint, pos: Position, events: seq<Event>, event: Event, counter: nat, next: CheckPoint)
    requires Standing(start, pos, events, counter) && Ids(next) == Ids(pos.checkpoint) + [event.id]
    requires event.prevHash == pos.checkpoint.block.hash && event.id.height == pos.checkpoint.block.height + 1
    requires event.reorgLen == if events == [] then counter else 0
    ensures Standing(start, pos.(checkpoint := next), events + [event], counter)
    ensures next.block == event.id
  {
    hide Linked, PassEvents, IdsOf;
    EventsGrow(start.block, events, event, counter);
    assert Ids(next)[|Ids(next)| - 1] == event.id;
    assert Ids(start) + IdsOf(events) + [event.id] == Ids(start) + (IdsOf(events) + [event.id]);
  }

  lemma EventsGrow(base: BlockId, events: seq<Event>, e: Event, k: nat)
    requires PassEvents(base, events, k)
    requires var below := if events == [] then base else events[|events| - 1].id;
             e.prevHash == below.hash && e.id.height == below.height + 1 && e.reorgLen == if events == [] then k else 0
    ensures PassEvents(base, events + [e], k) && IdsOf(events + [e]) == IdsOf(events) + [e.id]
  {
    forall i | 0 <= i < |events + [e]| ensures Linked(base, events + [e], i, k) {
      if i < |events| {
        assert Linked(base, events, i, k);
      }
    }
  }

  /** One pass of the loop. Blocks never come out of order, the last sent hash stays the checkpoint's,
      no reorg is longer than allowed, and the events record the whole change of the chain unless the
      pass rolled back without emitting. */
  method Pass(node: Oracle, start: Position, maxLen: nat, clock: nat)
    returns (pos: Position, events: seq<Event>, k: nat, ending: Ending, now: nat)
    requires Honest(node) && Ascending(Ids(start.checkpoint)) && start.lastHash == start.checkpoint.block.hash
    ensures !ending.Disordered? && Ascending(Ids(pos.checkpoint))
    ensures Followed(start.checkpoint, pos.checkpoint, events, k)
    ensures forall i :: 0 <= i < |events| ==> events[i].reorgLen <= maxLen
    ensures !ending.Closed? ==> pos.lastHash == pos.checkpoint.block.hash
  {
    pos, events, k, now := start, [], 0, clock;
    ghost var before := start.checkpoint;
    FollowedStart(before);
    var best := node.bestHash(now);
    now := now + 1;
    if best.None? {
      return pos, events, k, NodeFailed, now;
    }
    if best.value == start.checkpoint.block.hash {
      return pos, events, k, Finished, now;
    }
    hide Ids, Ascending, Followed, Standing, Linked;
    pos, k, ending, now := RollBack(node, start, maxLen, now);
    PrefixAscends(Ids(before), |Ids(before)| - k);
    FollowedRollback(before, pos.checkpoint, k);
    if !ending.Finished? {
      return;
    }
    var info := node.info(now, best.value);
    now := now + 1;
    if info.None? {
      ending := NodeFailed;
      return;
    }
    ghost var base := pos.checkpoint;
    pos, events, ending, now := Advance(node, pos, k, info.value.height, now);
    FollowedAdvance(before, base, pos, events, k);
  }

  lemma PrefixAscends(ids: seq<BlockId>, n: nat)
    requires Ascending(ids) && n <= |ids|
    ensures Ascending(ids[..n])
  {
  }

  lemma FollowedStart(cp: CheckPoint)
    ensures Followed(cp, cp, [], 0)
  {
    assert Ids(cp)[..|Ids(cp)| - 0] + IdsOf([]) == Ids(cp);
  }

  lemma FollowedRollback(before: CheckPoint, after: CheckPoint, k: nat)
    requires k < |Ids(before)| && Ids(after) == Ids(before)[..|Ids(before)| - k]
    ensures Followed(before, after, [], k)
  {
    assert Ids(after) + IdsOf([]) == Ids(after);
  }

  lemma FollowedAdvance(before: CheckPoint, base: CheckPoint, pos: Position, events: seq<Event>, k: nat)
    requires k < |Ids(before)| && Ids(base) == Ids(before)[..|Ids(before)| - k] && Standing(base, pos, events, k)
    ensures Followed(before, pos.checkpoint, events, k) && Ascending(Ids(pos.checkpoint))
    ensures forall i :: 0 <= i < |events| ==> events[i].reorgLen <= k
  {
    hide IdsOf;
    assert base.block == Ids(before)[|Ids(before)| - k - 1];
    forall i | 0 <= i < |events| ensures events[i].reorgLen <= k {
      assert Linked(base.block, events, i, k);
    }
  }

  // ---- pass after pass ----

  lemma {:induction false} AppliedAppend(ids: seq<BlockId>, xs: seq<Event>, ys: seq<Event>)
    ensures Applied(ids, xs + ys) == Applied(Applied(ids, xs), ys)
    decreases |ys|
  {
    if ys == [] {
      assert xs + ys == xs;
    } else {
      var n := |ys| - 1;
      assert (xs + ys)[..|xs + ys| - 1] == xs + ys[..n];
      AppliedAppend(ids, xs, ys[..n]);
    }
  }

  /** Blocks a pass took off without any event to say so. */
  function Unreported(events: seq<Event>, k: nat): nat
  {
    if events == [] then k else 0
  }

  /** A receiver that is `lost` blocks too long after the events so far is that much and the
      unreported rollback of the pass too long after it; one that was right stays right otherwise. */
  lemma ReceiverAfter(seen: seq<BlockId>, before: CheckPoint, after: CheckPoint, events: seq<Event>, k: nat, lost: nat)
    requires Followed(before, after, events, k) && |seen| == |Ids(before)| + lost
    ensures |Applied(seen, events)| == |Ids(after)| + lost + Unreported(events, k)
    ensures seen == Ids(before) && Unreported(events, k) == 0 ==> Applied(seen, events) == Ids(after)
  {
    hide PassEvents;
    if events != [] {
      AppliedOne(seen, events, k, Ids(before)[|Ids(before)| - k - 1]);
    } else {
      assert IdsOf(events) == [];
      assert Ids(before)[..|Ids(before)|] == Ids(before);
    }
  }

  /** A receiver that applied all events to `ids` is as long as the follower's chain plus what was lost,
      and holds that chain exactly when nothing was. */
  ghost predicate InStep(ids: seq<BlockId>, cp: CheckPoint, events: seq<Event>, lost: nat)
  {
    && |Applied(ids, events)| == |Ids(cp)| + lost
    && (Applied(ids, events) == Ids(cp) <==> lost == 0)
  }

  lemma InStepNext(ids: seq<BlockId>, before: CheckPoint, after: CheckPoint, events: seq<Event>, more: seq<Event>, k: nat, lost: nat)
    requires InStep(ids, before, events, lost) && Followed(before, after, more, k)
    ensures InStep(ids, after, events + more, lost + Unreported(more, k))
  {
    hide Ids, Followed, Applied;
    AppliedAppend(ids, events, more);
    ReceiverAfter(Applied(ids, events), before, after, more, k, lost);
  }

  /** The follow loop for as long as it goes well, at most `passes` passes. A receiver that applies
      all events holds the follower's chain exactly when no pass rolled back silently. */
  method Follow(node: Oracle, start: Position, maxLen: nat, passes: nat)
    returns (pos: Position, events: seq<Event>, lost: nat, ending: Ending)
    requires Honest(node) && Ascending(Ids(start.checkpoint)) && start.lastHash == start.checkpoint.block.hash
    ensures !ending.Disordered? && Ascending(Ids(pos.checkpoint))
    ensures InStep(Ids(start.checkpoint), pos.checkpoint, events, lost)
    ensures forall i :: 0 <= i < |events| ==> events[i].reorgLen <= maxLen
    ensures !ending.Closed? ==> pos.lastHash == pos.checkpoint.block.hash
  {
    pos, events, lost, ending := start, [], 0, Finished;
    var clock := 0;
    ghost var ids := Ids(start.checkpoint);
    for n := 0 to passes
      invariant ending.Finished? && Ascending(Ids(pos.checkpoint)) && pos.lastHash == pos.checkpoint.block.hash
      invariant InStep(ids, pos.checkpoint, events, lost)
      invariant forall i :: 0 <= i < |events| ==> events[i].reorgLen <= maxLen
    {
      hide Ids, Ascending, Followed, Honest, InStep;
      var next, more, k, end, now := Pass(node, pos, maxLen, clock);
      InStepNext(ids, pos.checkpoint, next.checkpoint, events, more, k, lost);
      pos, events, lost, ending, clock := next, events + more, lost + Unreported(more, k), end, now;
      if !ending.Finished? {
        return;
      }
    }
  }
}
