/** Selection of one ancestor path from the competing records of the node's block index. */
module BlockIndex {
  import opened Base

  /** A decoded index record; the block's place on disk plays no part in the selection. */
  datatype Record = Record(hash: nat, prevHash: nat, height: nat, status: nat)

  // ---- which records take part ----

  /** Some validity bit (the low three) is set and no failure bit (32 or 64) is. */
  predicate Valid(status: nat)
  {
    status % 8 != 0 && (status / 32) % 4 == 0
  }

  /** The range reaches one height below its start. */
  predicate InRange(height: nat, start: nat, end: Option<nat>)
  {
    start <= height + 1 && (end.Some? ==> height <= end.value)
  }

  predicate Selected(r: Record, start: nat, end: Option<nat>)
  {
    InRange(r.height, start, end) && Valid(r.status)
  }

  type Groups = map<nat, seq<Record>>

  /** The selected records, grouped by height in table order. */
  function GroupsOf(records: seq<Record>, start: nat, end: Option<nat>): Groups
  {
    if records == [] then map[]
    else
      var before := GroupsOf(records[..|records| - 1], start, end);
      var r := records[|records| - 1];
      if !Selected(r, start, end) then before
      else before[r.height := (if r.height in before then before[r.height] else []) + [r]]
  }

  method Group(records: seq<Record>, start: nat, end: Option<nat>) returns (groups: Groups)
    ensures groups == GroupsOf(records, start, end)
  {
    groups := map[];
    for i := 0 to |records|
      invariant groups == GroupsOf(records[..i], start, end)
    {
      assert records[..i + 1][..i] == records[..i];
      var record := records[i];
      if record.height < (if start > 0 then start - 1 else 0) || (end.Some? && record.height > end.value) {
        continue;
      }
      if record.status % 8 == 0 {
        continue;
      }
      if (record.status / 32) % 4 != 0 {
        continue;
      }
      groups := groups[record.height := (if record.height in groups then groups[record.height] else []) + [record]];
    }
    assert records[..|records|] == records;
  }

  ghost predicate GroupOf(records: seq<Record>, start: nat, end: Option<nat>, h: nat, group: seq<Record>)
  {
    && group != []
    && (forall r :: r in group <==> r in records && Selected(r, start, end) && r.height == h)
  }

  /** Each height with a selected record has its group, holding exactly those records. */
  lemma {:induction false} GroupsHold(records: seq<Record>, start: nat, end: Option<nat>)
    ensures var g := GroupsOf(records, start, end);
            && (forall h :: h in g ==> GroupOf(records, start, end, h, g[h]))
            && (forall r :: r in records && Selected(r, start, end) ==> r.height in g)
    decreases |records|
  {
    if records != [] {
      var n := |records| - 1;
      GroupsHold(records[..n], start, end);
      GroupsGrow(records, start, end, GroupsOf(records[..n], start, end));
    }
  }

  lemma GroupsGrow(records: seq<Record>, start: nat, end: Option<nat>, before: Groups)
    requires records != [] && before == GroupsOf(records[..|records| - 1], start, end)
    requires forall h :: h in before ==> GroupOf(records[..|records| - 1], start, end, h, before[h])
    requires forall r :: r in records[..|records| - 1] && Selected(r, start, end) ==> r.height in before
    ensures forall h :: h in GroupsOf(records, start, end) ==> GroupOf(records, start, end, h, GroupsOf(records, start, end)[h])
  {
    hide Selected;
    var last := records[|records| - 1];
    var init := records[..|records| - 1];
    assert forall r :: r in records <==> r in init || r == last;
    var g := GroupsOf(records, start, end);
    forall h | h in g ensures GroupOf(records, start, end, h, g[h]) {
      if h in before {
        assert GroupOf(init, start, end, h, before[h]);
        assert h == last.height ==> forall r :: r in before[h] + [last] <==> r in before[h] || r == last;
      } else {
        assert [] + [last] == [last];
      }
    }
  }

  // ---- the walk down ----

  /** Records are keyed by hash, so no level holds two of the same. */
  ghost predicate Keyed(levels: seq<seq<Record>>)
  {
    forall i, r, r' :: 0 <= i < |levels| && r in levels[i] && r' in levels[i] && r.hash == r'.hash ==> r == r'
  }

  /** Record `i` of the path is on the level below the one before it, and is its parent; the first
      is the parent of the single record of level `top`. */
  ghost predicate LinkAt(levels: seq<seq<Record>>, top: nat, path: seq<Record>, i: nat)
    requires top < |levels| && |levels[top]| == 1 && i < |path|
  {
    var child := if i == 0 then levels[top][0] else path[i - 1];
    top + 1 + i < |levels| && path[i] in levels[top + 1 + i] && path[i].hash == child.prevHash
  }

  ghost predicate Path(levels: seq<seq<Record>>, top: nat, path: seq<Record>)
    requires top < |levels| && |levels[top]| == 1
  {
    forall i :: 0 <= i < |path| ==> LinkAt(levels, top, path, i)
  }

  /** A path down to the lowest level. */
  ghost predicate FullPath(levels: seq<seq<Record>>, top: nat, path: seq<Record>)
    requires top < |levels| && |levels[top]| == 1
  {
    top + 1 + |path| == |levels| && Path(levels, top, path)
  }

  /** Highest level with a single record. */
  function Top(levels: seq<seq<Record>>): (s: nat)
    ensures s <= |levels| && (s < |levels| ==> |levels[s]| == 1)
    ensures forall i :: 0 <= i < s ==> |levels[i]| != 1
  {
    if levels == [] then 0 else if |levels[0]| == 1 then 0 else 1 + Top(levels[1..])
  }

  lemma {:induction false} OnePath(levels: seq<seq<Record>>, top: nat, path: seq<Record>, other: seq<Record>, n: nat)
    requires Keyed(levels) && top < |levels| && |levels[top]| == 1
    requires Path(levels, top, path) && Path(levels, top, other) && n < |path| && n < |other|
    ensures path[n] == other[n]
    decreases n
  {
    if n > 0 {
      OnePath(levels, top, path, other, n - 1);
    }
    assert LinkAt(levels, top, path, n) && LinkAt(levels, top, other, n);
  }

  lemma PathEndsHere(levels: seq<seq<Record>>, top: nat, path: seq<Record>)
    requires Keyed(levels) && top < |levels| && |levels[top]| == 1 && Path(levels, top, path) && top + 1 + |path| < |levels|
    requires forall r :: r in levels[top + 1 + |path|] ==> r.hash != (if path == [] then levels[top][0] else path[|path| - 1]).prevHash
    ensures forall other :: !FullPath(levels, top, other)
  {
    if other :| FullPath(levels, top, other) {
      var n := |path|;
      if n > 0 {
        OnePath(levels, top, path, other, n - 1);
      }
      LinkOf(levels, top, other, n);
    }
  }

  lemma LinkOf(levels: seq<seq<Record>>, top: nat, path: seq<Record>, i: nat)
    requires top < |levels| && |levels[top]| == 1 && Path(levels, top, path) && i < |path|
    ensures top + 1 + i < |levels| && path[i] in levels[top + 1 + i]
    ensures path[i].hash == (if i == 0 then levels[top][0] else path[i - 1]).prevHash
  {
    assert LinkAt(levels, top, path, i);
  }

  method Position(level: seq<Record>, hash: nat) returns (p: Option<nat>)
    ensures p.Some? ==> p.value < |level| && level[p.value].hash == hash
    ensures p.None? ==> forall r :: r in level ==> r.hash != hash
  {
    for i := 0 to |level|
      invariant forall j :: 0 <= j < i ==> level[j].hash != hash
    {
      if level[i].hash == hash {
        return Some(i);
      }
    }
    return None;
  }

  /** The batching walk: levels above the first single one are passed over; from there each step
      emits the parent found one level below. None is the panic about a missing parent. */
  method Walk(levels: seq<seq<Record>>) returns (emitted: Option<seq<Record>>)
    requires Keyed(levels) && forall i :: 0 <= i < |levels| ==> levels[i] != []
    ensures var s := Top(levels);
            if s == |levels| then emitted == Some([])
            else if emitted.Some? then FullPath(levels, s, emitted.value)
            else forall path :: !FullPath(levels, s, path)
  {
    var lastPos: Option<nat> := None;
    var path: seq<Record> := [];
    ghost var s := Top(levels);
    var i := 0;
    while i < |levels|
      invariant i <= |levels|
      invariant lastPos.None? ==> i <= s && path == []
      invariant lastPos.Some? ==> s < i < |levels| && |path| == i - s && Path(levels, s, path)
      invariant lastPos.Some? ==> lastPos.value < |levels[i]| && levels[i][lastPos.value] == path[|path| - 1]
    {
      var cur := levels[i];
      i := i + 1;
      if lastPos.None? && |cur| != 1 {
        continue;
      }
      assert lastPos.None? ==> s == i - 1;
      var prevHash := cur[if lastPos.Some? then lastPos.value else 0].prevHash;
      if i == |levels| {
        break;
      }
      lastPos := Position(levels[i], prevHash);
      if lastPos.None? {
        PathEndsHere(levels, s, path);
        return None;
      }
      PathGrows(levels, s, path, levels[i][lastPos.value]);
      path := path + [levels[i][lastPos.value]];
    }
    return Some(path);
  }

  lemma PathGrows(levels: seq<seq<Record>>, top: nat, path: seq<Record>, r: Record)
    requires top < |levels| && |levels[top]| == 1 && Path(levels, top, path) && top + 1 + |path| < |levels|
    requires r in levels[top + 1 + |path|] && r.hash == (if path == [] then levels[top][0] else path[|path| - 1]).prevHash
    ensures Path(levels, top, path + [r])
  {
    var longer := path + [r];
    forall i | 0 <= i < |longer| ensures LinkAt(levels, top, longer, i) {
      if i < |path| {
        assert LinkAt(levels, top, path, i);
      }
    }
  }

  // ---- the whole selection ----

  ghost predicate Falling(heights: seq<nat>)
  {
    forall i, j :: 0 <= i < j < |heights| ==> heights[i] > heights[j]
  }

  /** The groups as levels, highest height first. */
  ghost predicate LevelsOf(groups: Groups, levels: seq<seq<Record>>, heights: seq<nat>)
  {
    && |levels| == |heights| && Falling(heights) && (forall h :: h in groups <==> h in heights)
    && (forall i :: 0 <= i < |heights| ==> heights[i] in groups && levels[i] == groups[heights[i]])
  }

  predicate IsHighest(s: set<nat>, h: nat)
  {
    h in s && forall g :: g in s ==> g <= h
  }

  /** The heights, highest first. */
  method SortedHeights(keys: set<nat>) returns (heights: seq<nat>)
    ensures Falling(heights) && forall h :: h in keys <==> h in heights
  {
    heights := [];
    var rest := keys;
    while rest != {}
      invariant forall h :: h in keys <==> h in rest || h in heights
      invariant Falling(heights) && forall i, h :: 0 <= i < |heights| && h in rest ==> heights[i] > h
      decreases rest
    {
      HighestExists(rest);
      var h: nat :| IsHighest(rest, h);
      ghost var before := heights;
      heights := heights + [h];
      assert forall g :: g in heights <==> g in before || g == h;
      rest := rest - {h};
    }
  }

  method Sorted(groups: Groups) returns (levels: seq<seq<Record>>, heights: seq<nat>)
    ensures LevelsOf(groups, levels, heights)
  {
    var order := SortedHeights(groups.Keys);
    heights, levels := order, [];
    for i := 0 to |order|
      invariant |levels| == i && forall j :: 0 <= j < i ==> order[j] in groups && levels[j] == groups[order[j]]
    {
      assert order[i] in order;
      levels := levels + [groups[order[i]]];
    }
  }

  lemma {:induction false} HighestExists(s: set<nat>)
    requires s != {}
    ensures exists h :: IsHighest(s, h)
    decreases |s|
  {
    var x :| x in s;
    if s == {x} {
      assert IsHighest(s, x);
    } else {
      var rest := s - {x};
      HighestExists(rest);
      var h :| IsHighest(rest, h);
      assert s == rest + {x};
      assert IsHighest(s, if x <= h then h else x);
    }
  }

  /** What selection promises: one valid record of the range per height, from the parent of the
      highest single record down, each the parent of the one before. */
  ghost predicate Selection(records: seq<Record>, start: nat, end: Option<nat>, chosen: seq<Record>)
  {
    && (forall i :: 0 <= i < |chosen| ==> chosen[i] in records && Selected(chosen[i], start, end))
    && (forall i, j :: 0 <= i < j < |chosen| ==> chosen[i].height > chosen[j].height)
    && (forall i :: 1 <= i < |chosen| ==> chosen[i].hash == chosen[i - 1].prevHash)
  }

  method GetBlockIndex(records: seq<Record>, start: nat, end: Option<nat>)
    returns (chosen: Option<seq<Record>>, ghost levels: seq<seq<Record>>, ghost heights: seq<nat>)
    requires forall r, r' :: r in records && r' in records && r.hash == r'.hash ==> r == r'
    ensures LevelsOf(GroupsOf(records, start, end), levels, heights)
    ensures chosen.Some? ==> Selection(records, start, end, chosen.value)
    ensures var s := Top(levels);
            if s == |levels| then chosen == Some([])
            else if chosen.Some? then
              FullPath(levels, s, chosen.value) && forall i :: 0 <= i < |chosen.value| ==> chosen.value[i].height == heights[s + 1 + i]
            else forall path :: !FullPath(levels, s, path)
  {
    GroupsHold(records, start, end);
    var groups := Group(records, start, end);
    var sorted, order := Sorted(groups);
    levels, heights := sorted, order;
    LevelsKeyed(records, start, end, levels, heights);
    chosen := Walk(sorted);
    if chosen.Some? && Top(levels) < |levels| {
      PathSelected(records, start, end, levels, heights, chosen.value);
    }
  }

  lemma LevelsKeyed(records: seq<Record>, start: nat, end: Option<nat>, levels: seq<seq<Record>>, heights: seq<nat>)
    requires forall r, r' :: r in records && r' in records && r.hash == r'.hash ==> r == r'
    requires LevelsOf(GroupsOf(records, start, end), levels, heights)
    ensures Keyed(levels) && forall i :: 0 <= i < |levels| ==> levels[i] != []
  {
    hide GroupsOf, Selected;
    GroupsHold(records, start, end);
    forall i | 0 <= i < |levels| ensures GroupOf(records, start, end, heights[i], levels[i]) {
      assert heights[i] in heights;
    }
  }

  lemma LevelSelected(records: seq<Record>, start: nat, end: Option<nat>, levels: seq<seq<Record>>, heights: seq<nat>, i: nat, r: Record)
    requires LevelsOf(GroupsOf(records, start, end), levels, heights) && i < |levels| && r in levels[i]
    ensures r in records && Selected(r, start, end) && r.height == heights[i]
  {
    hide GroupsOf, Selected;
    GroupsHold(records, start, end);
    assert GroupOf(records, start, end, heights[i], levels[i]);
  }

  /** The i-th block of the path: a selected record of its level, the parent of the one before. */
  lemma LinkSelected(records: seq<Record>, start: nat, end: Option<nat>, levels: seq<seq<Record>>, heights: seq<nat>, path: seq<Record>, i: nat)
    requires LevelsOf(GroupsOf(records, start, end), levels, heights) && i < |path|
    requires Top(levels) < |levels| && FullPath(levels, Top(levels), path)
    ensures Top(levels) + 1 + i < |heights| && path[i].height == heights[Top(levels) + 1 + i]
    ensures path[i] in records && Selected(path[i], start, end) && (i > 0 ==> path[i].hash == path[i - 1].prevHash)
  {
    hide GroupsOf, Selected, Top, LinkAt, Falling;
    LinkOf(levels, Top(levels), path, i);
    LevelSelected(records, start, end, levels, heights, Top(levels) + 1 + i, path[i]);
  }

  lemma PathHeights(levels: seq<seq<Record>>, heights: seq<nat>, groups: Groups, path: seq<Record>)
    requires LevelsOf(groups, levels, heights) && Top(levels) < |levels| && FullPath(levels, Top(levels), path)
    ensures Falling(heights) && |heights| == |levels| == Top(levels) + 1 + |path|
  {
    hide Top;
  }

  lemma PathSelected(records: seq<Record>, start: nat, end: Option<nat>, levels: seq<seq<Record>>, heights: seq<nat>, path: seq<Record>)
    requires LevelsOf(GroupsOf(records, start, end), levels, heights)
    requires Top(levels) < |levels| && FullPath(levels, Top(levels), path)
    ensures Selection(records, start, end, path)
    ensures forall i :: 0 <= i < |path| ==> path[i].height == heights[Top(levels) + 1 + i]
  {
    hide GroupsOf, Selected, Top, FullPath, LevelsOf;
    var s := Top(levels);
    PathHeights(levels, heights, GroupsOf(records, start, end), path);
    forall i | 0 <= i < |path|
      ensures path[i].height == heights[s + 1 + i] && path[i] in records && Selected(path[i], start, end)
      ensures i > 0 ==> path[i].hash == path[i - 1].prevHash {
      LinkSelected(records, start, end, levels, heights, path, i);
    }
  }
}
