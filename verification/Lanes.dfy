/** The calendar's lane assignment: blocks of one day are cut into groups that do not touch,
    and inside a group each block takes the first lane that is free when it starts.
    Times are milliseconds from the start of the day shown. */
module Lanes {

  datatype Job = Job(id: string, start: int, end: int)
  datatype Block = Block(id: string, start: int, end: int)
  datatype Placed = Placed(block: Block, lane: nat, laneCount: nat)
  datatype Visible = Hidden | Shown(block: Block)

  predicate Overlap(a: Block, b: Block) { a.start < b.end && b.start < a.end }

  predicate Covers(b: Block, t: int) { b.start <= t < b.end }

  predicate Proper(blocks: seq<Block>) {
    forall i :: 0 <= i < |blocks| ==> 0 <= blocks[i].start < blocks[i].end
  }

  predicate ByStart(blocks: seq<Block>) {
    forall i, j :: 0 <= i < j < |blocks| ==> blocks[i].start <= blocks[j].start
  }

  /** At offset `u` of the day the job is running. */
  predicate RunsAt(job: Job, dayStart: int, dayEnd: int, u: int) {
    0 <= u < dayEnd - dayStart && job.start <= dayStart + u < job.end
  }

  /** The part of a job that falls on the day, if any: exactly the instants at which it runs. A job
      that ends before it starts is shown too, if both ends fall on the day; its block is empty. */
  function ScheduleBlock(job: Job, dayStart: int, dayEnd: int): (v: Visible)
    ensures v.Shown? ==> v.block.id == job.id && 0 <= v.block.start && v.block.end <= dayEnd - dayStart
    ensures v.Shown? && dayStart < dayEnd ==> (v.block.start < v.block.end <==> job.start < job.end)
    ensures forall u :: RunsAt(job, dayStart, dayEnd, u) <==> v.Shown? && Covers(v.block, u)
  {
    if job.start >= dayEnd || job.end <= dayStart then
      Hidden
    else
      var from := if job.start > dayStart then job.start else dayStart;
      var to := if job.end < dayEnd then job.end else dayEnd;
      Shown(Block(job.id, from - dayStart, to - dayStart))
  }

  predicate NotAfter(a: Block, b: Block) {
    a.start < b.start || (a.start == b.start && a.end <= b.end)
  }

  predicate Ordered(blocks: seq<Block>) {
    forall i, j :: 0 <= i < j < |blocks| ==> NotAfter(blocks[i], blocks[j])
  }

  function Insert(blocks: seq<Block>, b: Block): (r: seq<Block>)
    ensures multiset(r) == multiset(blocks) + multiset{b}
  {
    if blocks == [] || NotAfter(b, blocks[0]) then
      [b] + blocks
    else
      assert blocks == [blocks[0]] + blocks[1..];
      [blocks[0]] + Insert(blocks[1..], b)
  }

  lemma InsertMembers(blocks: seq<Block>, b: Block)
    ensures forall x :: x in Insert(blocks, b) <==> x in blocks || x == b
  {
    var r := Insert(blocks, b);
    forall x ensures x in r <==> x in blocks || x == b {
      assert x in r <==> x in multiset(r);
      assert x in blocks <==> x in multiset(blocks);
    }
  }

  lemma {:induction false} OrderedCons(x: Block, rest: seq<Block>)
    requires Ordered(rest) && forall y :: y in rest ==> NotAfter(x, y)
    ensures Ordered([x] + rest)
  {
    var r := [x] + rest;
    forall i, j | 0 <= i < j < |r| ensures NotAfter(r[i], r[j]) {
      assert r[j] == rest[j - 1] && r[j] in rest;
      if i > 0 {
        assert r[i] == rest[i - 1];
      }
    }
  }

  lemma {:induction false} InsertOrdered(blocks: seq<Block>, b: Block)
    requires Ordered(blocks)
    ensures Ordered(Insert(blocks, b))
  {
    if blocks == [] {
    } else if NotAfter(b, blocks[0]) {
      OrderedCons(b, blocks);
    } else {
      InsertOrdered(blocks[1..], b);
      InsertMembers(blocks[1..], b);
      OrderedCons(blocks[0], Insert(blocks[1..], b));
    }
  }

  /** Sorting by start, ties by end. */
  function SortBlocks(blocks: seq<Block>): (r: seq<Block>)
    ensures Ordered(r) && multiset(r) == multiset(blocks)
  {
    if blocks == [] then []
    else
      var n := |blocks| - 1;
      assert blocks == blocks[..n] + [blocks[n]];
      InsertOrdered(SortBlocks(blocks[..n]), blocks[n]);
      Insert(SortBlocks(blocks[..n]), blocks[n])
  }

  lemma SortMembers(blocks: seq<Block>)
    ensures forall x :: x in SortBlocks(blocks) <==> x in blocks
  {
    var r := SortBlocks(blocks);
    forall x ensures x in r <==> x in blocks {
      assert x in r <==> x in multiset(r);
      assert x in blocks <==> x in multiset(blocks);
    }
  }

  /** The blocks of the sequence, by position, that cover instant `t`. */
  ghost function CoverSet(blocks: seq<Block>, t: int): set<int> {
    set i | 0 <= i < |blocks| && Covers(blocks[i], t)
  }

  /** `n` is the greatest number of blocks covering one instant. */
  ghost predicate IsPeak(blocks: seq<Block>, n: int) {
    && (forall t :: |CoverSet(blocks, t)| <= n)
    && (exists t :: |CoverSet(blocks, t)| == n)
  }

  /** Among the first `n` blocks, overlapping ones have different lanes. */
  ghost predicate Separated(blocks: seq<Block>, lane: seq<int>, n: nat)
    requires n <= |blocks| && n <= |lane|
  {
    forall i, j :: 0 <= i < j < n && Overlap(blocks[i], blocks[j]) ==> lane[i] != lane[j]
  }

  /** Lane `l` was still taken by an earlier block when block `i` started. */
  ghost predicate Taken(blocks: seq<Block>, lane: seq<int>, i: nat, l: int)
    requires i < |blocks| && i <= |lane|
  {
    exists j :: 0 <= j < i && lane[j] == l && Overlap(blocks[j], blocks[i])
  }

  /** First fit: every lane below the chosen one was taken. */
  ghost predicate FirstFit(blocks: seq<Block>, lane: seq<int>, n: nat)
    requires n <= |blocks| && n <= |lane|
  {
    forall i, l :: 0 <= i < n && 0 <= l < lane[i] ==> Taken(blocks, lane, i, l)
  }

  ghost function Upto(n: nat): (s: set<int>)
    ensures |s| == n && forall l :: l in s <==> 0 <= l < n
  {
    if n == 0 then {} else Upto(n - 1) + {n - 1}
  }

  lemma SubsetSize(a: set<int>, b: set<int>)
    requires a <= b
    ensures |a| <= |b|
  {
    assert b == a + (b - a);
  }

  lemma {:induction false} ImageSize(s: set<int>, f: seq<int>)
    requires forall i :: i in s ==> 0 <= i < |f|
    requires forall i, j :: i in s && j in s && i != j ==> f[i] != f[j]
    ensures |(set i | i in s :: f[i])| == |s|
  {
    if forall y :: y !in s {
      assert s == {};
    } else {
      var x :| x in s;
      ImageSize(s - {x}, f);
      assert (set i | i in s :: f[i]) == (set i | i in s - {x} :: f[i]) + {f[x]};
    }
  }

  /** Blocks covering one instant overlap pairwise, so they sit in different lanes. */
  lemma CoverAtMost(blocks: seq<Block>, lane: seq<int>, lanes: nat, t: int)
    requires |lane| == |blocks| && Separated(blocks, lane, |blocks|)
    requires forall i :: 0 <= i < |lane| ==> 0 <= lane[i] < lanes
    ensures |CoverSet(blocks, t)| <= lanes
  {
    var s := CoverSet(blocks, t);
    forall i, j | i in s && j in s && i != j
      ensures lane[i] != lane[j]
    {
      assert Overlap(blocks[i], blocks[j]) && Overlap(blocks[j], blocks[i]);
    }
    ImageSize(s, lane);
    SubsetSize(set i | i in s :: lane[i], Upto(lanes));
  }

  /** One covering block from each lane makes as many covering blocks as lanes. */
  lemma CoverAtLeast(blocks: seq<Block>, holder: seq<int>, t: int)
    requires forall l :: 0 <= l < |holder| ==> 0 <= holder[l] < |blocks| && Covers(blocks[holder[l]], t)
    requires forall l, m :: 0 <= l < m < |holder| ==> holder[l] != holder[m]
    ensures |CoverSet(blocks, t)| >= |holder|
  {
    ImageSize(Upto(|holder|), holder);
    SubsetSize(set l | l in Upto(|holder|) :: holder[l], CoverSet(blocks, t));
  }

  method FirstFree(laneEnds: seq<int>, start: int) returns (lane: int)
    ensures -1 <= lane < |laneEnds|
    ensures lane == -1 ==> forall l :: 0 <= l < |laneEnds| ==> laneEnds[l] > start
    ensures lane >= 0 ==> laneEnds[lane] <= start && forall l :: 0 <= l < lane ==> laneEnds[l] > start
  {
    for i := 0 to |laneEnds|
      invariant forall l :: 0 <= l < i ==> laneEnds[l] > start
    {
      if laneEnds[i] <= start {
        return i;
      }
    }
    return -1;
  }

  /** What holds after `n` blocks: `laneEnds` is when each lane's latest block, at position `last`,
      ends, and no block of a lane ends after that. */
  ghost predicate Assigned(group: seq<Block>, n: nat, lane: seq<int>, laneEnds: seq<int>, last: seq<int>) {
    && n <= |group| && |lane| == n && |last| == |laneEnds| && (n == 0 <==> laneEnds == [])
    && (forall i :: 0 <= i < n ==> 0 <= lane[i] < |laneEnds| && group[i].end <= laneEnds[lane[i]])
    && (forall l :: 0 <= l < |last| ==> 0 <= last[l] < n && lane[last[l]] == l && group[last[l]].end == laneEnds[l])
    && Separated(group, lane, n) && FirstFit(group, lane, n)
  }

  /** At one instant, each position in `holder` runs, and they are all different. */
  ghost predicate Crowd(group: seq<Block>, n: nat, holder: seq<int>, t: int) {
    && n <= |group|
    && (forall l :: 0 <= l < |holder| ==> 0 <= holder[l] < n && Covers(group[holder[l]], t))
    && (forall l, m :: 0 <= l < m < |holder| ==> holder[l] != holder[m])
  }

  lemma BusyLanesTaken(group: seq<Block>, n: nat, lane: seq<int>, laneEnds: seq<int>, last: seq<int>)
    requires Assigned(group, n, lane, laneEnds, last) && n < |group| && Proper(group) && ByStart(group)
    ensures forall l :: 0 <= l < |laneEnds| && laneEnds[l] > group[n].start ==>
        Taken(group, lane, n, l) && Covers(group[last[l]], group[n].start)
  {
    forall l | 0 <= l < |laneEnds| && laneEnds[l] > group[n].start
      ensures Taken(group, lane, n, l) && Covers(group[last[l]], group[n].start)
    {
      assert Overlap(group[last[l]], group[n]);
    }
  }

  lemma StillFits(group: seq<Block>, lane: seq<int>, n: nat, free: int)
    requires n < |group| && |lane| == n && FirstFit(group, lane, n) && Separated(group, lane, n)
    requires forall l :: 0 <= l < free ==> Taken(group, lane, n, l)
    requires forall i :: 0 <= i < n && lane[i] == free ==> group[i].end <= group[n].start
    ensures FirstFit(group, lane + [free], n + 1) && Separated(group, lane + [free], n + 1)
  {
    var next := lane + [free];
    forall i, l | 0 <= i < n + 1 && 0 <= l < next[i]
      ensures Taken(group, next, i, l)
    {
      assert Taken(group, lane, i, l);
      var j :| 0 <= j < i && lane[j] == l && Overlap(group[j], group[i]);
      assert next[j] == l;
    }
  }

  lemma OpenLane(group: seq<Block>, n: nat, lane: seq<int>, laneEnds: seq<int>, last: seq<int>)
    requires Assigned(group, n, lane, laneEnds, last) && n < |group| && Proper(group) && ByStart(group)
    requires forall l :: 0 <= l < |laneEnds| ==> laneEnds[l] > group[n].start
    ensures Assigned(group, n + 1, lane + [|laneEnds|], laneEnds + [group[n].end], last + [n])
    ensures Crowd(group, n + 1, last + [n], group[n].start)
  {
    BusyLanesTaken(group, n, lane, laneEnds, last);
    StillFits(group, lane, n, |laneEnds|);
  }

  lemma ReuseLane(group: seq<Block>, n: nat, lane: seq<int>, laneEnds: seq<int>, last: seq<int>, free: nat)
    requires Assigned(group, n, lane, laneEnds, last) && n < |group| && Proper(group) && ByStart(group)
    requires free < |laneEnds| && laneEnds[free] <= group[n].start
    requires forall l :: 0 <= l < free ==> laneEnds[l] > group[n].start
    ensures Assigned(group, n + 1, lane + [free], laneEnds[free := group[n].end], last[free := n])
  {
    BusyLanesTaken(group, n, lane, laneEnds, last);
    StillFits(group, lane, n, free);
  }

  method AssignLanes(group: seq<Block>) returns (lane: seq<int>, lanes: nat)
    requires Proper(group) && ByStart(group)
    ensures |lane| == |group| && forall i :: 0 <= i < |group| ==> 0 <= lane[i] < lanes
    ensures Separated(group, lane, |group|) && FirstFit(group, lane, |group|)
    ensures group != [] ==> IsPeak(group, lanes)
    ensures group == [] ==> lanes == 0
  {
    var laneEnds: seq<int> := [];
    lane := [];
    ghost var last: seq<int> := [];
    ghost var holder: seq<int> := [];    // one running block per lane, at the instant
    ghost var crowded := 0;              // when the newest lane opened
    for n := 0 to |group|
      invariant Assigned(group, n, lane, laneEnds, last)
      invariant |holder| == |laneEnds| && Crowd(group, n, holder, crowded)
    {
      var block := group[n];
      var free := FirstFree(laneEnds, block.start);
      if free == -1 {
        OpenLane(group, n, lane, laneEnds, last);
        free := |laneEnds|;
        laneEnds := laneEnds + [block.end];
        last := last + [n];
        holder, crowded := last, block.start;
      } else {
        ReuseLane(group, n, lane, laneEnds, last, free);
        laneEnds := laneEnds[free := block.end];
        last := last[free := n];
      }
      lane := lane + [free];
    }
    lanes := |laneEnds|;
    if group != [] {
      forall t ensures |CoverSet(group, t)| <= lanes { CoverAtMost(group, lane, lanes, t); }
      CoverAtLeast(group, holder, crowded);
      assert |CoverSet(group, crowded)| == lanes;
    }
  }

  method LayoutScheduleGroup(group: seq<Block>) returns (placed: seq<Placed>)
    requires Proper(group) && ByStart(group) && group != []
    ensures |placed| == |group|
    ensures forall i :: 0 <= i < |placed| ==>
        placed[i].block == group[i] && placed[i].lane < placed[i].laneCount == placed[0].laneCount
    ensures IsPeak(group, placed[0].laneCount)
    ensures Disentangled(placed)
  {
    var lane, count := AssignLanes(group);
    assert 0 <= lane[0] < count;
    var lanes := if count > 1 then count else 1;
    placed := [];
    for i := 0 to |group|
      invariant |placed| == i
      invariant forall j :: 0 <= j < i ==> placed[j] == Placed(group[j], lane[j], lanes)
    {
      placed := placed + [Placed(group[i], lane[i], lanes)];
    }
  }

  /** Everything before position `cut` has ended when anything from `cut` on starts. */
  ghost predicate CleanCut(sorted: seq<Block>, cut: nat) {
    forall i, j :: 0 <= i < cut <= j < |sorted| ==> sorted[i].end <= sorted[j].start
  }

  /** The groups are the runs of `sorted` between consecutive cuts, and every clean cut is one of them. */
  ghost predicate CutAt(sorted: seq<Block>, groups: seq<seq<Block>>, cuts: seq<nat>) {
    && |cuts| == |groups| + 1 && cuts[0] == 0
    && (forall c :: 0 <= c < |cuts| ==> cuts[c] <= |sorted| && CleanCut(sorted, cuts[c]))
    && (forall g :: 0 <= g < |groups| ==> Unbroken(sorted, cuts[g], cuts[g + 1]) && groups[g] == sorted[cuts[g]..cuts[g + 1]])
  }

  /** A run of the day with no clean cut inside. */
  ghost predicate Unbroken(sorted: seq<Block>, from: nat, to: nat) {
    from < to <= |sorted| && forall c :: from < c < to ==> !CleanCut(sorted, c)
  }

  lemma NewCut(sorted: seq<Block>, from: nat, n: nat, groupEnd: int)
    requires ByStart(sorted) && from <= n < |sorted| && CleanCut(sorted, from) && groupEnd <= sorted[n].start
    requires forall i :: from <= i < n ==> sorted[i].end <= groupEnd
    ensures CleanCut(sorted, n)
  {
    forall i, j | 0 <= i < n <= j < |sorted| ensures sorted[i].end <= sorted[j].start {
      assert i < from ==> sorted[i].end <= sorted[j].start;
      assert n < j ==> sorted[n].start <= sorted[j].start;
    }
  }

  lemma NextCut(sorted: seq<Block>, groups: seq<seq<Block>>, cuts: seq<nat>, n: nat)
    requires CutAt(sorted, groups, cuts) && n <= |sorted| && Unbroken(sorted, cuts[|groups|], n) && CleanCut(sorted, n)
    ensures CutAt(sorted, groups + [sorted[cuts[|groups|]..n]], cuts + [n])
  {
    var gs, cs := groups + [sorted[cuts[|groups|]..n]], cuts + [n];
    forall g | 0 <= g < |gs| ensures Unbroken(sorted, cs[g], cs[g + 1]) && gs[g] == sorted[cs[g]..cs[g + 1]] {
      if g < |groups| {
        assert gs[g] == groups[g] && cs[g] == cuts[g] && cs[g + 1] == cuts[g + 1];
      }
    }
  }

  function Joined(groups: seq<seq<Block>>): seq<Block> {
    if groups == [] then [] else Joined(groups[..|groups| - 1]) + groups[|groups| - 1]
  }

  lemma JoinedStep(sorted: seq<Block>, groups: seq<seq<Block>>, from: nat, to: nat)
    requires from <= to <= |sorted| && Joined(groups) == sorted[..from]
    ensures Joined(groups + [sorted[from..to]]) == sorted[..to]
  {
    assert (groups + [sorted[from..to]])[..|groups|] == groups;
  }

  /** While a block that has not ended is met, the run goes on. */
  lemma NoCut(sorted: seq<Block>, from: nat, n: nat, last: nat)
    requires from <= n < |sorted| && (from < n ==> Unbroken(sorted, from, n))
    ensures from < n && last < n && sorted[last].end > sorted[n].start ==> Unbroken(sorted, from, n + 1)
    ensures from == n ==> Unbroken(sorted, from, n + 1)
    ensures Unbroken(sorted, n, n + 1)
  {
  }

  method CutGroups(sorted: seq<Block>) returns (groups: seq<seq<Block>>, ghost cuts: seq<nat>)
    requires Proper(sorted) && ByStart(sorted)
    ensures Joined(groups) == sorted && forall g :: 0 <= g < |groups| ==> groups[g] != []
    ensures CutAt(sorted, groups, cuts) && cuts[|groups|] == |sorted|
  {
    groups := [];
    cuts := [0];
    var group: seq<Block> := [];
    var groupEnd := -1;
    ghost var from, last := 0, 0;
    for n := 0 to |sorted|
      invariant CutAt(sorted, groups, cuts) && from == cuts[|groups|]
      invariant from <= n && group == sorted[from..n] && Joined(groups) == sorted[..from]
      invariant group == [] ==> n == 0 && groupEnd == -1
      invariant forall i :: from <= i < n ==> sorted[i].end <= groupEnd
      invariant group != [] ==> 0 <= last < n && sorted[last].end == groupEnd && Unbroken(sorted, from, n)
    {
      var block := sorted[n];
      NoCut(sorted, from, n, last);
      if group != [] && block.start >= groupEnd {
        NewCut(sorted, from, n, groupEnd);
        NextCut(sorted, groups, cuts, n);
        JoinedStep(sorted, groups, from, n);
        groups := groups + [group];
        cuts := cuts + [n];
        group := [];
        groupEnd := -1;
        from := n;
      }
      group := group + [block];
      assert 0 < block.end;
      if groupEnd <= block.end {
        groupEnd := block.end;
        last := n;
      }
    }
    if group != [] {
      NextCut(sorted, groups, cuts, |sorted|);
      JoinedStep(sorted, groups, from, |sorted|);
      groups := groups + [group];
      cuts := cuts + [|sorted|];
    }
    assert sorted[..|sorted|] == sorted;
    NonEmptyGroups(sorted, groups, cuts);
  }

  lemma NonEmptyGroups(sorted: seq<Block>, groups: seq<seq<Block>>, cuts: seq<nat>)
    requires CutAt(sorted, groups, cuts)
    ensures forall g :: 0 <= g < |groups| ==> groups[g] != []
  {
    forall g | 0 <= g < |groups| ensures groups[g] != [] {
      assert |groups[g]| == cuts[g + 1] - cuts[g];
    }
  }

  /** The whole day: blocks that overlap get different lanes of the same lane count, and every
      block's lane count is the peak of the smallest run around it that no other block touches. */
  method LayoutScheduleBlocks(blocks: seq<Block>) returns (placed: seq<Placed>)
    requires Proper(blocks)
    ensures |placed| == |SortBlocks(blocks)| == |blocks|
    ensures forall i :: 0 <= i < |placed| ==>
        placed[i].block == SortBlocks(blocks)[i] && placed[i].lane < placed[i].laneCount && InPeakRun(SortBlocks(blocks), i, placed[i].laneCount)
    ensures Disentangled(placed)
  {
    SortKeeps(blocks);
    placed := LayoutSorted(SortBlocks(blocks));
  }

  lemma SortKeeps(blocks: seq<Block>)
    requires Proper(blocks)
    ensures |SortBlocks(blocks)| == |blocks| && Proper(SortBlocks(blocks)) && ByStart(SortBlocks(blocks))
  {
    var sorted := SortBlocks(blocks);
    assert |sorted| == |multiset(sorted)| == |multiset(blocks)| == |blocks|;
    SortMembers(blocks);
    forall i | 0 <= i < |sorted| ensures 0 <= sorted[i].start < sorted[i].end {
      assert sorted[i] in sorted;
      assert sorted[i] in blocks;
    }
  }

  method LayoutSorted(sorted: seq<Block>) returns (placed: seq<Placed>)
    requires Proper(sorted) && ByStart(sorted)
    ensures |placed| == |sorted| && LaidOut(sorted, placed)
  {
    var groups, cuts := CutGroups(sorted);
    placed := [];
    for g := 0 to |groups|
      invariant |placed| == cuts[g] && LaidOut(sorted, placed)
    {
      assert Proper(groups[g]) && ByStart(groups[g]) && groups[g] != [] by {
        assert |groups[g]| == cuts[g + 1] - cuts[g];
        assert forall i :: 0 <= i < |groups[g]| ==> groups[g][i] == sorted[cuts[g] + i];
      }
      var group := LayoutScheduleGroup(groups[g]);
      NextRun(sorted, placed, cuts[g], cuts[g + 1], group);
      placed := placed + group;
    }
  }

  ghost predicate LaidOut(sorted: seq<Block>, placed: seq<Placed>) {
    Shaped(sorted, placed) && Disentangled(placed)
  }

  ghost predicate Shaped(sorted: seq<Block>, placed: seq<Placed>) {
    && |placed| <= |sorted|
    && forall i :: 0 <= i < |placed| ==>
         placed[i].block == sorted[i] && placed[i].lane < placed[i].laneCount && InPeakRun(sorted, i, placed[i].laneCount)
  }

  /** Overlapping blocks have different lanes of the same lane count. */
  ghost predicate Disentangled(placed: seq<Placed>) {
    forall i, j :: 0 <= i < j < |placed| && Overlap(placed[i].block, placed[j].block) ==>
      placed[i].lane != placed[j].lane && placed[i].laneCount == placed[j].laneCount
  }

  lemma JoinRuns(placed: seq<Placed>, group: seq<Placed>)
    requires Disentangled(placed) && Disentangled(group)
    requires forall i, j :: 0 <= i < |placed| && 0 <= j < |group| ==> placed[i].block.end <= group[j].block.start
    ensures Disentangled(placed + group)
  {
    var next, n := placed + group, |placed|;
    forall i, j | 0 <= i < j < |next| && Overlap(next[i].block, next[j].block)
      ensures next[i].lane != next[j].lane && next[i].laneCount == next[j].laneCount
    {
      if n <= i {
        assert next[i] == group[i - n] && next[j] == group[j - n];
      } else if j < n {
        assert next[i] == placed[i] && next[j] == placed[j];
      }
    }
  }

  lemma ApartRuns(sorted: seq<Block>, placed: seq<Placed>, from: nat, group: seq<Placed>)
    requires |placed| == from && from + |group| <= |sorted| && CleanCut(sorted, from)
    requires forall i :: 0 <= i < from ==> placed[i].block == sorted[i]
    requires forall i :: 0 <= i < |group| ==> group[i].block == sorted[from + i]
    ensures forall i, j :: 0 <= i < |placed| && 0 <= j < |group| ==> placed[i].block.end <= group[j].block.start
  {
  }

  lemma NextRun(sorted: seq<Block>, placed: seq<Placed>, from: nat, to: nat, group: seq<Placed>)
    requires |placed| == from < to <= |sorted| && |group| == to - from && LaidOut(sorted, placed)
    requires PeakRun(sorted, from, to, group[0].laneCount) && Disentangled(group)
    requires forall i :: 0 <= i < |group| ==>
        group[i].block == sorted[from + i] && group[i].lane < group[i].laneCount == group[0].laneCount
    ensures LaidOut(sorted, placed + group)
  {
    ApartRuns(sorted, placed, from, group);
    JoinRuns(placed, group);
    var next := placed + group;
    forall i | 0 <= i < |next|
      ensures next[i].block == sorted[i] && next[i].lane < next[i].laneCount && InPeakRun(sorted, i, next[i].laneCount)
    {
      if i < from {
        assert next[i] == placed[i];
      } else {
        var g := group[i - from];
        assert next[i] == g && g.block == sorted[from + (i - from)];
        assert InPeakRun(sorted, i, group[0].laneCount);
      }
    }
  }

  /** Position `i` lies in a run of the day that nothing outside it overlaps and that cannot be
      divided further, and its peak is `n`. */
  ghost predicate InPeakRun(sorted: seq<Block>, i: int, n: int) {
    exists from: nat, to: nat :: from <= i < to && PeakRun(sorted, from, to, n)
  }

  ghost predicate PeakRun(sorted: seq<Block>, from: nat, to: nat, n: int) {
    Unbroken(sorted, from, to) && CleanCut(sorted, from) && CleanCut(sorted, to) && IsPeak(sorted[from..to], n)
  }
}
