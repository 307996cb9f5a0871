/** GPU usage accounting in the history database: a sampled window is cut at minute boundaries,
    each part is added to a minute rollup and to the running summary of the session's GPU.
    Times are nanoseconds; utilization and the integrals are exact reals. */
module Rollups {
  import opened Options

  const MS := 1_000_000
  const MINUTE := 60_000 * MS
  const MAX_INT64 := 0x7FFF_FFFF_FFFF_FFFF

  /** One GPU entry of a sample: what the sampler could read. */
  datatype Sample = Sample(utilization: Option<real>, memoryUsed: Option<nat>)

  datatype Row = Row(
    observedMs: int, busyMs: int, utilizationIntegral: real,
    memoryIntegral: real, memoryObservedMs: int, peakMemory: Option<int>,
    validSamples: int, missingSamples: int)

  const ZERO := Row(0, 0, 0.0, 0.0, 0, None, 0, 0)

  function MaxPeak(a: Option<int>, b: Option<int>): Option<int> {
    match (a, b)
    case (None, _) => b
    case (_, None) => a
    case (Some(x), Some(y)) => if x >= y then a else b
  }

  function Add(a: Row, b: Row): Row {
    Row(a.observedMs + b.observedMs, a.busyMs + b.busyMs, a.utilizationIntegral + b.utilizationIntegral,
        a.memoryIntegral + b.memoryIntegral, a.memoryObservedMs + b.memoryObservedMs,
        MaxPeak(a.peakMemory, b.peakMemory),
        a.validSamples + b.validSamples, a.missingSamples + b.missingSamples)
  }

  lemma AddLaws(a: Row, b: Row, c: Row)
    ensures Add(a, b) == Add(b, a) && Add(Add(a, b), c) == Add(a, Add(b, c)) && Add(a, ZERO) == a
  {
  }

  predicate ValidUtilization(s: Sample) {
    s.utilization.Some? && 0.0 <= s.utilization.value <= 100.0
  }

  /** What a part of `ms` milliseconds contributes. */
  function Contribution(s: Sample, ms: int): Row {
    var memory := if s.memoryUsed.Some? && s.memoryUsed.value > MAX_INT64 then Some(MAX_INT64) else s.memoryUsed;
    var memoryIntegral := if memory.Some? then memory.value as real * ms as real else 0.0;
    var memoryMs := if memory.Some? then ms else 0;
    var peak := if memory.Some? then Some(memory.value as int) else None;
    if ValidUtilization(s) then
      Row(ms, if s.utilization.value >= 5.0 then ms else 0, s.utilization.value * ms as real, memoryIntegral, memoryMs, peak, 1, 0)
    else
      Row(0, 0, 0.0, memoryIntegral, memoryMs, peak, 0, 1)
  }

  /** A piece of a window inside one minute: the minute's start and the piece's whole milliseconds. */
  datatype Part = Part(minute: int, ms: int)

  function MinuteOf(t: int): int { t - t % MINUTE }

  function PartEnd(cursor: int, end: int): int {
    if MinuteOf(cursor) + MINUTE > end then end else MinuteOf(cursor) + MINUTE
  }

  /** The parts a window is recorded as. A part shorter than one millisecond ends the cutting. */
  function Parts(cursor: int, end: int): seq<Part>
    decreases end - cursor
  {
    if cursor >= end then []
    else
      var ms := (PartEnd(cursor, end) - cursor) / MS;
      if ms <= 0 then [] else [Part(MinuteOf(cursor), ms)] + Parts(PartEnd(cursor, end), end)
  }

  /** The rows of one session and GPU: minute rollups by minute, and the summary row if it exists. */
  datatype Slot = Slot(minutes: map<int, Row>, summary: Option<Row>)

  function Record(d: Slot, minute: int, delta: Row): Slot {
    var old' := if minute in d.minutes then d.minutes[minute] else ZERO;
    Slot(d.minutes[minute := Add(old', delta)],
         if d.summary.Some? then Some(Add(d.summary.value, delta)) else None)
  }

  function RecordParts(d: Slot, s: Sample, parts: seq<Part>): Slot
    decreases |parts|
  {
    if parts == [] then d
    else RecordParts(Record(d, parts[0].minute, Contribution(s, parts[0].ms)), s, parts[1..])
  }

  class History<Key(==)> {
    var slots: map<Key, Slot>

    constructor ()
      ensures slots == map[]
    {
      slots := map[];
    }

    function At(key: Key): Slot
      reads this
    {
      if key in slots then slots[key] else Slot(map[], None)
    }

    /** The summary row of a reservation member, inserted once with zeros. */
    method InsertSummary(key: Key)
      modifies this
      ensures slots == old(slots)[key := Step(old(At(key)), CreateSummary)]
    {
      var d := At(key);
      slots := slots[key := if d.summary.None? then Slot(d.minutes, Some(ZERO)) else d];
    }

    method ApplyGPUIntervals(key: Key, s: Sample, start: int, end: int)
      modifies this
      ensures slots == old(slots)[key := RecordParts(old(At(key)), s, Parts(start, end))]
    {
      var d := RecordWindow(At(key), s, start, end);
      slots := slots[key := d];
    }
  }

  method RecordWindow(slot: Slot, s: Sample, start: int, end: int) returns (d: Slot)
    ensures d == RecordParts(slot, s, Parts(start, end))
  {
    var cursor := start;
    d := slot;
    while cursor < end
      invariant RecordParts(d, s, Parts(cursor, end)) == RecordParts(slot, s, Parts(start, end))
      decreases end - cursor
    {
      FirstPart(cursor, end);
      var minute := MinuteOf(cursor);
      var partEnd := minute + MINUTE;
      if partEnd > end {
        partEnd := end;
      }
      var duration := (partEnd - cursor) / MS;
      if duration <= 0 {
        break;
      }
      RecordFirst(d, s, Part(minute, duration), Parts(partEnd, end));
      d := Record(d, minute, Contribution(s, duration));
      cursor := partEnd;
    }
  }

  lemma RecordFirst(d: Slot, s: Sample, p: Part, rest: seq<Part>)
    ensures RecordParts(d, s, [p] + rest) == RecordParts(Record(d, p.minute, Contribution(s, p.ms)), s, rest)
  {
    assert ([p] + rest)[1..] == rest;
  }

  lemma FirstPart(cursor: int, end: int)
    requires cursor < end
    ensures cursor < PartEnd(cursor, end)
    ensures var ms := (PartEnd(cursor, end) - cursor) / MS;
            Parts(cursor, end) == if ms <= 0 then [] else [Part(MinuteOf(cursor), ms)] + Parts(PartEnd(cursor, end), end)
  {
  }

  // ---------- The window and its parts ----------

  function TotalMs(parts: seq<Part>): int {
    if parts == [] then 0 else parts[0].ms + TotalMs(parts[1..])
  }

  /** The parts account for the whole window exactly when it is a whole number of milliseconds
      and, if it crosses a minute boundary, starts on a millisecond. */
  predicate Aligned(start: int, end: int) {
    (end - start) % MS == 0 && (start % MS == 0 || end <= MinuteOf(start) + MINUTE)
  }

  lemma MinuteAligned(t: int)
    ensures MinuteOf(t) % MS == 0 && MinuteOf(t) <= t < MinuteOf(t) + MINUTE
  {
    var q := t / MINUTE;
    assert MinuteOf(t) == q * MINUTE == (q * 60_000) * MS;
  }

  /** Rounding two lengths down to milliseconds loses nothing only if both are whole. */
  lemma RoundingTwice(a: int, b: int, bMs: int)
    requires 0 <= a && bMs * MS <= b
    ensures (a / MS + bMs) * MS <= a + b
    ensures (a / MS + bMs) * MS == a + b <==> a % MS == 0 && bMs * MS == b
  {
  }

  lemma SplitAligned(start: int, cut: int, end: int)
    requires cut % MS == 0
    ensures (cut - start) % MS == 0 && (end - cut) % MS == 0 <==> start % MS == 0 && (end - start) % MS == 0
  {
  }

  lemma {:induction false} PartsExact(start: int, end: int)
    requires start <= end
    ensures TotalMs(Parts(start, end)) * MS <= end - start
    ensures TotalMs(Parts(start, end)) * MS == end - start <==> Aligned(start, end)
    decreases end - start
  {
    if start < end {
      MinuteAligned(start);
      FirstPart(start, end);
      var cut := PartEnd(start, end);
      var rest := Parts(cut, end);
      if cut < end {
        assert MINUTE % MS == 0;
        SplitAligned(start, cut, end);
      }
      if (cut - start) / MS > 0 {
        assert Parts(start, end)[1..] == rest;
        PartsExact(cut, end);
        RoundingTwice(cut - start, end - cut, TotalMs(rest));
      } else {
        assert 0 < cut - start < MS;
        assert (cut - start) % MS != 0;
      }
    }
  }

  /** A window that starts half a millisecond before a minute boundary is dropped entirely. */
  lemma UnalignedWindowDropped()
    ensures Parts(MINUTE - MS / 2, 2 * MINUTE) == []
  {
  }

  // ---------- Minutes never hold more than a minute ----------

  function BucketMs(parts: seq<Part>, minute: int): int {
    if parts == [] then 0
    else (if parts[0].minute == minute then parts[0].ms else 0) + BucketMs(parts[1..], minute)
  }

  datatype Window = Window(start: int, end: int)

  predicate Inside(w: Window, t: int) { w.start <= t < w.end }

  /** A sample window cut to the session: exactly its instants from the session's start until it
      expires or is revoked. */
  function Clip(w: Window, startsAt: int, expiresAt: int, revokedAt: Option<int>): (c: Window)
    ensures forall t :: Inside(c, t) <==>
        Inside(w, t) && startsAt <= t < expiresAt && (revokedAt.Some? ==> t < revokedAt.value)
  {
    var start := if w.start < startsAt then startsAt else w.start;
    var effectiveEnd := if revokedAt.Some? && revokedAt.value < expiresAt then revokedAt.value else expiresAt;
    Window(start, if w.end > effectiveEnd then effectiveEnd else w.end)
  }

  ghost function Instants(lo: int, hi: int): (r: set<int>)
    ensures forall t :: t in r <==> lo <= t < hi
    ensures |r| == if lo < hi then hi - lo else 0
    decreases hi - lo
  {
    if lo >= hi then {} else Instants(lo, hi - 1) + {hi - 1}
  }

  /** The instants of the window that fall in the minute. */
  ghost function InMinute(w: Window, minute: int): set<int> {
    Instants(if w.start > minute then w.start else minute, if w.end < minute + MINUTE then w.end else minute + MINUTE)
  }

  lemma {:induction false} BucketWithin(start: int, end: int, minute: int)
    ensures 0 <= BucketMs(Parts(start, end), minute) * MS <= |InMinute(Window(start, end), minute)|
    decreases end - start
  {
    if start < end {
      MinuteAligned(start);
      var cut := PartEnd(start, end);
      if (cut - start) / MS > 0 {
        assert Parts(start, end)[1..] == Parts(cut, end);
        BucketWithin(cut, end, minute);
      }
    }
  }

  function WindowsMs(ws: seq<Window>, minute: int): int {
    if ws == [] then 0
    else WindowsMs(ws[..|ws| - 1], minute) + BucketMs(Parts(ws[|ws| - 1].start, ws[|ws| - 1].end), minute)
  }

  predicate Disjoint(ws: seq<Window>) {
    forall i, j :: 0 <= i < j < |ws| ==> ws[i].end <= ws[j].start || ws[j].end <= ws[i].start
  }

  ghost function Union(ws: seq<Window>, minute: int): set<int> {
    if ws == [] then {} else Union(ws[..|ws| - 1], minute) + InMinute(ws[|ws| - 1], minute)
  }

  lemma {:induction false} UnionWithin(ws: seq<Window>, minute: int, t: int)
    requires t in Union(ws, minute)
    ensures minute <= t < minute + MINUTE
    ensures exists i :: 0 <= i < |ws| && ws[i].start <= t < ws[i].end
  {
    var n := |ws| - 1;
    if t in Union(ws[..n], minute) {
      UnionWithin(ws[..n], minute, t);
      var i :| 0 <= i < n && ws[..n][i].start <= t < ws[..n][i].end;
      assert ws[i] == ws[..n][i];
    }
  }

  lemma {:induction false} UnionSize(ws: seq<Window>, minute: int)
    requires Disjoint(ws)
    ensures WindowsMs(ws, minute) * MS <= |Union(ws, minute)|
  {
    if ws != [] {
      var n := |ws| - 1;
      var before, w := ws[..n], ws[n];
      UnionSize(before, minute);
      BucketWithin(w.start, w.end, minute);
      forall t | t in Union(before, minute) ensures t !in InMinute(w, minute) {
        UnionWithin(before, minute, t);
        var i :| 0 <= i < n && before[i].start <= t < before[i].end;
        assert ws[i] == before[i];
      }
      assert Union(before, minute) !! InMinute(w, minute);
    }
  }

  /** However many pairwise disjoint windows were sampled, a minute holds at most 60000 ms. */
  lemma MinuteBound(ws: seq<Window>, minute: int)
    requires Disjoint(ws)
    ensures WindowsMs(ws, minute) <= 60_000
  {
    UnionSize(ws, minute);
    forall t | t in Union(ws, minute) ensures minute <= t < minute + MINUTE { UnionWithin(ws, minute, t); }
    var all := Instants(minute, minute + MINUTE);
    assert Union(ws, minute) <= all && all == Union(ws, minute) + (all - Union(ws, minute));
  }

  // ---------- Runs: summaries against rollups ----------

  datatype Op = CreateSummary | Observe(sample: Sample, start: int, end: int)

  function Step(d: Slot, op: Op): Slot {
    match op
    case CreateSummary => if d.summary.None? then Slot(d.minutes, Some(ZERO)) else d
    case Observe(s, start, end) => RecordParts(d, s, Parts(start, end))
  }

  function Run(ops: seq<Op>): Slot {
    if ops == [] then Slot(map[], None) else Step(Run(ops[..|ops| - 1]), ops[|ops| - 1])
  }

  ghost function Pick(m: map<int, Row>): int
    requires exists k :: k in m
    ensures Pick(m) in m
  {
    var k :| k in m; k
  }

  /** The sum of all minute rollups. */
  ghost function Total(m: map<int, Row>): Row
    decreases |m|
  {
    if forall k :: k !in m then ZERO
    else
      assert |m - {Pick(m)}| < |m| by { Smaller(m, Pick(m)); }
      Add(m[Pick(m)], Total(m - {Pick(m)}))
  }

  lemma Smaller(m: map<int, Row>, k: int)
    requires k in m
    ensures |m - {k}| == |m| - 1
  {
    assert (m - {k}).Keys == m.Keys - {k};
  }

  lemma {:induction false} TotalSplit(m: map<int, Row>, k: int)
    requires k in m
    ensures Total(m) == Add(m[k], Total(m - {k}))
    decreases |m|
  {
    var x := Pick(m);
    if x != k {
      Smaller(m, x);
      Smaller(m, k);
      TotalSplit(m - {x}, k);
      TotalSplit(m - {k}, x);
      var rest := m - {x} - {k};
      assert m - {k} - {x} == rest;
      AddLaws(m[x], m[k], Total(rest));
      AddLaws(m[k], m[x], Total(rest));
    }
  }

  lemma TotalRecord(m: map<int, Row>, k: int, delta: Row)
    ensures Total(m[k := Add(if k in m then m[k] else ZERO, delta)]) == Add(Total(m), delta)
  {
    var old' := if k in m then m[k] else ZERO;
    var next := m[k := Add(old', delta)];
    TotalSplit(next, k);
    assert next - {k} == m - {k};
    if k in m {
      TotalSplit(m, k);
    } else {
      assert m - {k} == m;
    }
    AddLaws(old', delta, Total(m - {k}));
    AddLaws(delta, old', Total(m - {k}));
    AddLaws(old', Total(m - {k}), delta);
  }

  /** What the slot's rollups hold beyond its summary: the rows recorded while there was none. */
  ghost function Accounted(d: Slot, orphan: Row): Row {
    if d.summary.Some? then Add(d.summary.value, orphan) else orphan
  }

  function SumParts(s: Sample, parts: seq<Part>): Row {
    if parts == [] then ZERO else Add(Contribution(s, parts[0].ms), SumParts(s, parts[1..]))
  }

  lemma {:induction false} RecordConserves(d: Slot, s: Sample, parts: seq<Part>, orphan: Row)
    requires Total(d.minutes) == Accounted(d, orphan)
    ensures var d' := RecordParts(d, s, parts);
            && d'.summary.Some? == d.summary.Some?
            && Total(d'.minutes) == Accounted(d', if d.summary.Some? then orphan else Add(orphan, SumParts(s, parts)))
    decreases |parts|
  {
    if parts != [] {
      var delta := Contribution(s, parts[0].ms);
      var next := Record(d, parts[0].minute, delta);
      TotalRecord(d.minutes, parts[0].minute, delta);
      var missed := if d.summary.Some? then orphan else Add(orphan, delta);
      if d.summary.Some? {
        AddLaws(d.summary.value, orphan, delta);
        AddLaws(orphan, delta, ZERO);
        AddLaws(d.summary.value, delta, orphan);
      }
      RecordConserves(next, s, parts[1..], missed);
      AddLaws(orphan, delta, SumParts(s, parts[1..]));
    } else {
      AddLaws(orphan, ZERO, ZERO);
    }
  }

  /** The contributions recorded before the summary row existed. */
  function Orphan(ops: seq<Op>): Row {
    if ops == [] then ZERO
    else
      var n := |ops| - 1;
      var op := ops[n];
      if op.Observe? && Run(ops[..n]).summary.None? then
        Add(Orphan(ops[..n]), SumParts(op.sample, Parts(op.start, op.end)))
      else
        Orphan(ops[..n])
  }

  /** Over every run, rollups = summary + what was recorded before the summary row existed. */
  lemma {:induction false} Conservation(ops: seq<Op>)
    ensures Total(Run(ops).minutes) == Accounted(Run(ops), Orphan(ops))
  {
    if ops != [] {
      var n := |ops| - 1;
      Conservation(ops[..n]);
      match ops[n]
      case CreateSummary =>
        AddLaws(Orphan(ops[..n]), ZERO, ZERO);
        AddLaws(ZERO, Orphan(ops[..n]), ZERO);
      case Observe(s, start, end) =>
        RecordConserves(Run(ops[..n]), s, Parts(start, end), Orphan(ops[..n]));
    }
  }

  /** Some window with at least one part was recorded before any summary row existed. */
  predicate EarlyWindow(ops: seq<Op>) {
    exists i :: 0 <= i < |ops| && ops[i].Observe? && Parts(ops[i].start, ops[i].end) != [] && CreateSummary !in ops[..i]
  }

  lemma {:induction false} SamplesCounted(s: Sample, parts: seq<Part>)
    ensures var r := SumParts(s, parts); r.validSamples >= 0 && r.missingSamples >= 0 && r.validSamples + r.missingSamples == |parts|
  {
    if parts != [] {
      SamplesCounted(s, parts[1..]);
    }
  }

  lemma {:induction false} SummaryStep(d: Slot, op: Op)
    ensures Step(d, op).summary.Some? <==> d.summary.Some? || op.CreateSummary?
  {
    if op.Observe? {
      RecordKeepsSummary(d, op.sample, Parts(op.start, op.end));
    }
  }

  lemma {:induction false} SummaryExists(ops: seq<Op>)
    ensures Run(ops).summary.Some? <==> CreateSummary in ops
  {
    if ops != [] {
      var n := |ops| - 1;
      SummaryExists(ops[..n]);
      SummaryStep(Run(ops[..n]), ops[n]);
      assert CreateSummary in ops <==> CreateSummary in ops[..n] || CreateSummary == ops[n];
    }
  }

  lemma {:induction false} RecordKeepsSummary(d: Slot, s: Sample, parts: seq<Part>)
    ensures RecordParts(d, s, parts).summary.Some? == d.summary.Some?
    decreases |parts|
  {
    if parts != [] {
      RecordKeepsSummary(Record(d, parts[0].minute, Contribution(s, parts[0].ms)), s, parts[1..]);
    }
  }

  /** Whether a window is early depends only on what came before it. */
  lemma EarlyGrows(ops: seq<Op>, op: Op)
    ensures EarlyWindow(ops + [op]) <==>
        EarlyWindow(ops) || (op.Observe? && Parts(op.start, op.end) != [] && CreateSummary !in ops)
  {
    var n, later := |ops|, ops + [op];
    if EarlyWindow(ops) {
      var i :| 0 <= i < n && ops[i].Observe? && Parts(ops[i].start, ops[i].end) != [] && CreateSummary !in ops[..i];
      assert later[i] == ops[i] && later[..i] == ops[..i];
    }
    if EarlyWindow(later) {
      var i :| 0 <= i <= n && later[i].Observe? && Parts(later[i].start, later[i].end) != [] && CreateSummary !in later[..i];
      if i < n {
        assert later[i] == ops[i] && later[..i] == ops[..i];
      } else {
        assert later[..i] == ops;
      }
    }
    assert later[n] == op && later[..n] == ops;
  }

  /** How many parts were recorded before the summary row existed. */
  function OrphanParts(ops: seq<Op>): nat {
    if ops == [] then 0
    else
      var n := |ops| - 1;
      OrphanParts(ops[..n]) + if ops[n].Observe? && Run(ops[..n]).summary.None? then |Parts(ops[n].start, ops[n].end)| else 0
  }

  lemma {:induction false} OrphanCounts(ops: seq<Op>)
    ensures Orphan(ops).validSamples + Orphan(ops).missingSamples == OrphanParts(ops)
    ensures OrphanParts(ops) == 0 ==> Orphan(ops) == ZERO
  {
    if ops != [] {
      var n := |ops| - 1;
      OrphanCounts(ops[..n]);
      if ops[n].Observe? {
        SamplesCounted(ops[n].sample, Parts(ops[n].start, ops[n].end));
      }
    }
  }

  lemma {:induction false} EarlyMeansOrphans(ops: seq<Op>)
    ensures EarlyWindow(ops) <==> OrphanParts(ops) > 0
  {
    if ops != [] {
      var n := |ops| - 1;
      EarlyMeansOrphans(ops[..n]);
      SummaryExists(ops[..n]);
      assert ops[..n] + [ops[n]] == ops;
      EarlyGrows(ops[..n], ops[n]);
    }
  }

  /** The summary row equals the sum of its minute rollups exactly when the row existed before
      the first recorded window. */
  lemma SummaryMatches(ops: seq<Op>)
    requires CreateSummary in ops
    ensures Run(ops).summary.Some?
    ensures Run(ops).summary.value == Total(Run(ops).minutes) <==> !EarlyWindow(ops)
  {
    SummaryExists(ops);
    Conservation(ops);
    OrphanCounts(ops);
    EarlyMeansOrphans(ops);
    AddLaws(Run(ops).summary.value, ZERO, ZERO);
  }

  // ---------- Bounds on every row ----------

  predicate Bounded(r: Row) {
    && 0 <= r.busyMs <= r.observedMs
    && 0.0 <= r.utilizationIntegral <= 100.0 * r.observedMs as real
    && 0 <= r.memoryObservedMs && 0 <= r.validSamples && 0 <= r.missingSamples
  }

  ghost predicate AllBounded(d: Slot) {
    && (forall k :: k in d.minutes ==> Bounded(d.minutes[k]))
    && (d.summary.Some? ==> Bounded(d.summary.value))
  }

  lemma ContributionBounded(s: Sample, ms: int)
    requires ms >= 0
    ensures Bounded(Contribution(s, ms))
  {
    if ValidUtilization(s) {
      Scaled(s.utilization.value, 100.0, ms as real);
    }
  }

  lemma Scaled(u: real, most: real, factor: real)
    requires 0.0 <= u <= most && 0.0 <= factor
    ensures 0.0 <= u * factor <= most * factor
  {
  }

  lemma {:induction false} RecordBounded(d: Slot, s: Sample, parts: seq<Part>)
    requires AllBounded(d) && forall i :: 0 <= i < |parts| ==> parts[i].ms >= 0
    ensures AllBounded(RecordParts(d, s, parts))
    decreases |parts|
  {
    if parts != [] {
      ContributionBounded(s, parts[0].ms);
      RecordBounded(Record(d, parts[0].minute, Contribution(s, parts[0].ms)), s, parts[1..]);
    }
  }

  lemma PartsPositive(start: int, end: int)
    ensures forall i :: 0 <= i < |Parts(start, end)| ==> Parts(start, end)[i].ms > 0
    decreases end - start
  {
    if start < end && (PartEnd(start, end) - start) / MS > 0 {
      PartsPositive(PartEnd(start, end), end);
    }
  }

  /** In every run, every rollup and the summary keep busy time within observed time and the
      utilization integral within 0 and 100 times it. */
  lemma {:induction false} RunBounded(ops: seq<Op>)
    ensures AllBounded(Run(ops))
  {
    if ops != [] {
      var n := |ops| - 1;
      RunBounded(ops[..n]);
      if ops[n].Observe? {
        PartsPositive(ops[n].start, ops[n].end);
        RecordBounded(Run(ops[..n]), ops[n].sample, Parts(ops[n].start, ops[n].end));
      }
    }
  }

  function Windows(ops: seq<Op>): seq<Window> {
    if ops == [] then []
    else
      var n := |ops| - 1;
      Windows(ops[..n]) + if ops[n].Observe? then [Window(ops[n].start, ops[n].end)] else []
  }

  function ObservedAt(d: Slot, minute: int): int {
    if minute in d.minutes then d.minutes[minute].observedMs else 0
  }

  lemma {:induction false} ObservedGrowth(d: Slot, s: Sample, parts: seq<Part>, minute: int)
    requires forall i :: 0 <= i < |parts| ==> parts[i].ms > 0
    ensures ObservedAt(RecordParts(d, s, parts), minute) <= ObservedAt(d, minute) + BucketMs(parts, minute)
    decreases |parts|
  {
    if parts != [] {
      ObservedGrowth(Record(d, parts[0].minute, Contribution(s, parts[0].ms)), s, parts[1..], minute);
    }
  }

  lemma {:induction false} ObservedWithin(ops: seq<Op>, minute: int)
    ensures ObservedAt(Run(ops), minute) <= WindowsMs(Windows(ops), minute)
  {
    if ops != [] {
      var n := |ops| - 1;
      ObservedWithin(ops[..n], minute);
      if ops[n].Observe? {
        PartsPositive(ops[n].start, ops[n].end);
        ObservedGrowth(Run(ops[..n]), ops[n].sample, Parts(ops[n].start, ops[n].end), minute);
        var ws := Windows(ops);
        assert ws[..|ws| - 1] == Windows(ops[..n]);
      } else {
        assert Windows(ops) == Windows(ops[..n]);
      }
    }
  }

  /** Disjoint sample windows never make a minute rollup longer than a minute. */
  lemma RunMinuteBound(ops: seq<Op>, minute: int)
    requires Disjoint(Windows(ops)) && minute in Run(ops).minutes
    ensures Run(ops).minutes[minute].observedMs <= 60_000
  {
    ObservedWithin(ops, minute);
    MinuteBound(Windows(ops), minute);
  }
}
