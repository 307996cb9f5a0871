/** The node's telemetry outbox: a sequenced log kept in segments, pruned by age and size, and
    read in pages through cursors. */
module Outbox {

  const DEFAULT_PAGE_LIMIT := 128
  const MAX_PAGE_LIMIT := 256
  const MAX_PAGE_BYTES := 0x10_0000
  const PAGE_OVERHEAD := 512
  const MAX_SEGMENT_BYTES := 0x80_0000
  const MAX_OUTBOX_BYTES := 0x1000_0000
  const MAX_SEGMENT_AGE := 3_600
  const MAX_RETENTION := 86_400

  /** `pageBytes` is what the event costs in a page; `segment` names the file it was written to. */
  datatype Event = Event(seqNo: nat, occurredAt: int, pageBytes: nat, segment: nat)

  /** A segment file, named after the first sequence number it was opened for. */
  datatype Segment = Segment(path: nat, first: nat, last: nat, size: nat, created: int)

  // ---------- Pages ----------

  /** An absent cursor, a cursor for a stream, or text that does not decode. */
  datatype Cursor = Empty | At(stream: string, seqNo: nat) | Garbled

  datatype PageResult =
    | Page(events: seq<Event>, next: Cursor, hasMore: bool, earliest: nat, latest: nat)
    | CursorGap(reason: string, resume: Cursor, earliest: nat, latest: nat)
    | InvalidCursor

  /** Sequence numbers run without holes up to `nextSeq`. */
  predicate Contiguous(events: seq<Event>, nextSeq: nat) {
    |events| < nextSeq && forall i :: 0 <= i < |events| ==> events[i].seqNo == nextSeq - |events| + i
  }

  function Earliest(events: seq<Event>): nat {
    if events == [] then 0 else events[0].seqNo
  }

  function Latest(events: seq<Event>): nat {
    if events == [] then 0 else events[|events| - 1].seqNo
  }

  /** How many leading events fit in a page that already used `used` bytes and has `room` places. */
  function Fitting(events: seq<Event>, used: nat, room: nat): (n: nat)
    ensures n <= |events| && n <= room
    ensures events != [] && room > 0 && used + events[0].pageBytes <= MAX_PAGE_BYTES ==> n > 0
  {
    if events == [] || room == 0 || used + events[0].pageBytes > MAX_PAGE_BYTES then 0
    else 1 + Fitting(events[1..], used + events[0].pageBytes, room - 1)
  }

  /** The events after `position`. */
  function After(events: seq<Event>, position: nat): seq<Event> {
    if events == [] || events[0].seqNo > position then events else After(events[1..], position)
  }

  function ClampLimit(limit: int): (n: nat)
    ensures 1 <= n <= MAX_PAGE_LIMIT
  {
    if limit <= 0 then DEFAULT_PAGE_LIMIT else if limit > MAX_PAGE_LIMIT then MAX_PAGE_LIMIT else limit
  }

  function Resume(events: seq<Event>): nat {
    if Earliest(events) > 0 then Earliest(events) - 1 else 0
  }

  function PageFrom(events: seq<Event>, stream: string, position: nat, limit: int): PageResult {
    var rest := After(events, position);
    var taken := rest[..Fitting(rest, PAGE_OVERHEAD, ClampLimit(limit))];
    var last := if taken == [] then position else taken[|taken| - 1].seqNo;
    Page(taken, At(stream, last), last < Latest(events), Earliest(events), Latest(events))
  }

  function PageOf(events: seq<Event>, stream: string, cursor: Cursor, limit: int): PageResult {
    var earliest, latest := Earliest(events), Latest(events);
    match cursor
    case Garbled => InvalidCursor
    case Empty => PageFrom(events, stream, if earliest > 0 then earliest - 1 else 0, limit)
    case At(s, position) =>
      if s != stream then CursorGap("stream_reset", At(stream, Resume(events)), earliest, latest)
      else if latest > 0 && position > latest then InvalidCursor
      else if earliest > 0 && position + 1 < earliest then CursorGap("retention", At(stream, Resume(events)), earliest, latest)
      else PageFrom(events, stream, position, limit)
  }

  lemma {:induction false} AfterIsSuffix(events: seq<Event>, nextSeq: nat, position: nat)
    requires Contiguous(events, nextSeq)
    ensures var skip := if position + 1 + |events| <= nextSeq then 0
                        else if position + 1 >= nextSeq then |events| else position + 1 + |events| - nextSeq;
            After(events, position) == events[skip..]
    decreases |events|
  {
    if events != [] && events[0].seqNo <= position {
      AfterIsSuffix(events[1..], nextSeq, position);
    }
  }

  /** Every event fits in a page of its own. */
  predicate AllFit(events: seq<Event>) {
    forall i :: 0 <= i < |events| ==> PAGE_OVERHEAD + events[i].pageBytes <= MAX_PAGE_BYTES
  }

  /** Everything a reader collects by following cursors from `position` until there is no more. */
  ghost function Drain(events: seq<Event>, nextSeq: nat, stream: string, position: nat, limit: int): seq<Event>
    requires Contiguous(events, nextSeq) && AllFit(events)
    requires Within(events, position)
    decreases Latest(events) - position
  {
    var page := PageOf(events, stream, At(stream, position), limit);
    PageAdvances(events, nextSeq, stream, position, limit);
    if page.hasMore then page.events + Drain(events, nextSeq, stream, page.next.seqNo, limit) else page.events
  }

  /** A page continues exactly where the cursor stands, and moves it on while events remain. */
  lemma {:induction false} PageAdvances(events: seq<Event>, nextSeq: nat, stream: string, position: nat, limit: int)
    requires Contiguous(events, nextSeq)
    requires Within(events, position)
    ensures var page := PageOf(events, stream, At(stream, position), limit);
            && page.Page? && page.next.At? && position <= page.next.seqNo
            && (events != [] ==> var from := position + 1 - Earliest(events);
                 var to := page.next.seqNo + 1 - Earliest(events);
                 from <= to <= |events| && page.events == events[from..to])
            && (events == [] ==> page.events == [] && !page.hasMore && page.next.seqNo == position)
            && (page.hasMore <==> page.next.seqNo < Latest(events))
            && (AllFit(events) && position < Latest(events) ==> page.next.seqNo > position)
  {
    AfterIsSuffix(events, nextSeq, position);
    if events != [] {
      var from := position + 1 - Earliest(events);
      var rest := After(events, position);
      assert rest == events[from..];
      var n := Fitting(rest, PAGE_OVERHEAD, ClampLimit(limit));
      assert rest[..n] == events[from..from + n];
    }
  }

  /** A cursor a reader may hold: not before the retained events, not after them. */
  predicate Within(events: seq<Event>, position: nat) {
    events != [] ==> Earliest(events) <= position + 1 && position <= Latest(events)
  }

  /** One page of a drain, and where it leaves the cursor. */
  lemma {:induction false} DrainStep(events: seq<Event>, nextSeq: nat, stream: string, position: nat, limit: int) returns (next: nat)
    requires Contiguous(events, nextSeq) && AllFit(events) && Within(events, position)
    ensures position <= next && Within(events, next)
    ensures next < Latest(events) ==>
              && position < next
              && Drain(events, nextSeq, stream, position, limit) ==
                 events[position + 1 - Earliest(events)..next + 1 - Earliest(events)] + Drain(events, nextSeq, stream, next, limit)
    ensures next >= Latest(events) ==>
              Drain(events, nextSeq, stream, position, limit) == if events == [] then [] else events[position + 1 - Earliest(events)..]
  {
    PageAdvances(events, nextSeq, stream, position, limit);
    var page := PageOf(events, stream, At(stream, position), limit);
    next := page.next.seqNo;
    if events != [] && next >= Latest(events) {
      assert next + 1 - Earliest(events) == |events|;
    }
  }

  /** Following the cursor from any valid position returns exactly the events after it, once each
      and in order. */
  lemma {:induction false} DrainIsComplete(events: seq<Event>, nextSeq: nat, stream: string, position: nat, limit: int)
    requires Contiguous(events, nextSeq) && AllFit(events) && Within(events, position)
    ensures Drain(events, nextSeq, stream, position, limit) ==
            if events == [] then [] else events[position + 1 - Earliest(events)..]
    decreases Latest(events) - position
  {
    var next := DrainStep(events, nextSeq, stream, position, limit);
    if next < Latest(events) {
      DrainIsComplete(events, nextSeq, stream, next, limit);
      JoinParts(events, position + 1 - Earliest(events), next + 1 - Earliest(events));
    }
  }

  lemma {:induction false} JoinParts(events: seq<Event>, a: nat, b: nat)
    requires a <= b <= |events|
    ensures events[a..b] + events[b..] == events[a..]
  {
  }

  /** From the empty cursor a reader gets the whole retained log. */
  lemma {:induction false} DrainFromEmpty(events: seq<Event>, nextSeq: nat, stream: string, limit: int)
    requires Contiguous(events, nextSeq) && AllFit(events)
    ensures var first := if events == [] then 0 else Earliest(events) - 1;
            && PageOf(events, stream, Empty, limit) == PageOf(events, stream, At(stream, first), limit)
            && Drain(events, nextSeq, stream, first, limit) == events
  {
    DrainIsComplete(events, nextSeq, stream, if events == [] then 0 else Earliest(events) - 1, limit);
  }

  // ---------- Retention ----------

  function TotalBytes(segments: seq<Segment>): nat {
    if segments == [] then 0 else segments[0].size + TotalBytes(segments[1..])
  }

  /** When the newest event of a segment occurred; an empty segment counts from its creation. */
  function LastTime(events: seq<Event>, seg: Segment): int {
    if events == [] then seg.created
    else if events[|events| - 1].segment == seg.path then events[|events| - 1].occurredAt
    else LastTime(events[..|events| - 1], seg)
  }

  /** How many of the oldest segments a prune at `cutoff` drops: while more than one is left, any
      that is over budget or too old. */
  function DropCount(segments: seq<Segment>, events: seq<Event>, cutoff: int): (n: nat)
    ensures n <= |segments| && (|segments| > 0 ==> n < |segments|)
    ensures TotalBytes(segments[n..]) <= MAX_OUTBOX_BYTES || |segments[n..]| <= 1
  {
    if |segments| <= 1 then 0
    else if TotalBytes(segments) <= MAX_OUTBOX_BYTES && LastTime(events, segments[0]) >= cutoff then 0
    else
      var n := DropCount(segments[1..], events, cutoff);
      assert segments[1..][n..] == segments[1 + n..];
      1 + n
  }

  predicate IsSuffix(tail: seq<Event>, log: seq<Event>) {
    |tail| <= |log| && tail == log[|log| - |tail|..]
  }

  predicate HasPath(segments: seq<Segment>, path: nat) {
    exists k :: 0 <= k < |segments| && segments[k].path == path
  }

  /** The events left when the files of the dropped segments are gone. */
  function Kept(events: seq<Event>, dropped: seq<Segment>): seq<Event> {
    if events == [] then []
    else
      var n := |events| - 1;
      Kept(events[..n], dropped) + if HasPath(dropped, events[n].segment) then [] else [events[n]]
  }

  predicate Layered(events: seq<Event>, segments: seq<Segment>, nextSeq: nat) {
    && InOrder(segments)
    && (forall i :: 0 <= i < |segments| ==> segments[i].path <= nextSeq)
    && (forall i, j :: 0 <= i < j < |events| ==> events[i].segment <= events[j].segment)
    && (forall i :: 0 <= i < |events| ==> HasPath(segments, events[i].segment))
  }

  /** Dropping the oldest segments drops a prefix of the events. */
  lemma {:induction false} SuffixSnoc(events: seq<Event>, from: nat)
    requires from < |events|
    ensures events[..|events| - 1][from..] + [events[|events| - 1]] == events[from..]
  {
  }

  lemma {:induction false} KeptFrom(events: seq<Event>, dropped: seq<Segment>, from: nat)
    requires from <= |events|
    requires forall i :: 0 <= i < |events| ==> (HasPath(dropped, events[i].segment) <==> i < from)
    ensures Kept(events, dropped) == events[from..]
  {
    if events != [] {
      var n := |events| - 1;
      if from <= n {
        KeptFrom(events[..n], dropped, from);
        SuffixSnoc(events, from);
      } else {
        KeptFrom(events[..n], dropped, n);
      }
    }
  }

  /** The position of the first event above a path. */
  function FirstAbove(events: seq<Event>, bound: int): (k: nat)
    ensures k <= |events| && (k < |events| ==> events[k].segment > bound)
    ensures forall i :: 0 <= i < k ==> events[i].segment <= bound
  {
    if events == [] then 0
    else
      var n := |events| - 1;
      var k := FirstAbove(events[..n], bound);
      if k < n || events[n].segment > bound then k else n + 1
  }

  lemma {:induction false} KeptIsSuffix(events: seq<Event>, dropped: seq<Segment>, bound: int)
    requires forall i, j :: 0 <= i < j < |events| ==> events[i].segment <= events[j].segment
    requires forall i :: 0 <= i < |events| ==> (HasPath(dropped, events[i].segment) <==> events[i].segment <= bound)
    ensures |Kept(events, dropped)| <= |events|
    ensures Kept(events, dropped) == events[|events| - |Kept(events, dropped)|..]
    ensures forall i :: 0 <= i < |events| ==> (events[i].segment > bound <==> i >= |events| - |Kept(events, dropped)|)
  {
    var k := FirstAbove(events, bound);
    KeptFrom(events, dropped, k);
  }

  /** The segments a prune drops hold exactly the events at or below the last dropped path. */
  lemma {:induction false} DroppedBelow(events: seq<Event>, segments: seq<Segment>, nextSeq: nat, d: nat, i: nat)
    requires Layered(events, segments, nextSeq) && 0 < d <= |segments| && i < |events|
    ensures HasPath(segments[..d], events[i].segment) <==> events[i].segment <= segments[d - 1].path
    ensures events[i].segment > segments[d - 1].path ==> HasPath(segments[d..], events[i].segment)
  {
    var k :| 0 <= k < |segments| && segments[k].path == events[i].segment;
    if k < d {
      assert segments[..d][k] == segments[k];
    } else {
      assert segments[d..][k - d] == segments[k];
    }
    assert segments[..d][d - 1] == segments[d - 1];
  }

  /** After a prune the log is a suffix of what it was, still in layers. */
  lemma {:induction false} PruneKeepsShape(events: seq<Event>, segments: seq<Segment>, nextSeq: nat, d: nat)
    requires Contiguous(events, nextSeq) && Layered(events, segments, nextSeq) && d <= |segments|
    ensures var kept := Kept(events, segments[..d]);
            && IsSuffix(kept, events)
            && Contiguous(kept, nextSeq) && Layered(kept, segments[d..], nextSeq)
  {
    var bound := if d == 0 then -1 else segments[d - 1].path;
    forall i | 0 <= i < |events|
      ensures HasPath(segments[..d], events[i].segment) <==> events[i].segment <= bound
      ensures events[i].segment > bound ==> HasPath(segments[d..], events[i].segment)
    {
      if d > 0 {
        DroppedBelow(events, segments, nextSeq, d, i);
      } else {
        assert segments[0..] == segments;
      }
    }
    KeptIsSuffix(events, segments[..d], bound);
    var kept := Kept(events, segments[..d]);
    SuffixLayered(events, segments, nextSeq, d, |events| - |kept|);
  }

  lemma {:induction false} SuffixLayered(events: seq<Event>, segments: seq<Segment>, nextSeq: nat, d: nat, from: nat)
    requires Layered(events, segments, nextSeq) && d <= |segments| && from <= |events|
    requires forall i :: from <= i < |events| ==> HasPath(segments[d..], events[i].segment)
    ensures Layered(events[from..], segments[d..], nextSeq)
  {
    var kept := events[from..];
    forall i | 0 <= i < |kept| ensures HasPath(segments[d..], kept[i].segment) {
      assert kept[i] == events[from + i];
    }
  }

  predicate SizesOk(segments: seq<Segment>) {
    forall i :: 0 <= i < |segments| ==> segments[i].size <= MAX_SEGMENT_BYTES
  }

  // ---------- The newest event ----------

  /** Of segments that share a name only the last was ever written to, and one named after a number
      not yet given out has not been written to at all. */
  predicate Unwritten(segments: seq<Segment>, nextSeq: nat) {
    && (forall i, j :: 0 <= i < j < |segments| && segments[i].path == segments[j].path ==> segments[i].size == 0)
    && (forall i :: 0 <= i < |segments| && segments[i].path == nextSeq ==> segments[i].size == 0)
  }

  predicate InOrder(segments: seq<Segment>) {
    forall i, j :: 0 <= i < j < |segments| ==> segments[i].path <= segments[j].path
  }

  /** A prune stops at this segment: what is left is within budget and the segment young enough. */
  predicate StopsAt(segments: seq<Segment>, events: seq<Event>, cutoff: int, k: nat)
    requires k < |segments|
  {
    TotalBytes(segments[k..]) <= MAX_OUTBOX_BYTES && LastTime(events, segments[k]) >= cutoff
  }

  /** A prune drops everything before the first segment it stops at, or all but the last. */
  lemma {:induction false} DropCountMeaning(segments: seq<Segment>, events: seq<Event>, cutoff: int)
    requires segments != []
    ensures var d := DropCount(segments, events, cutoff);
            && (forall k :: 0 <= k < d ==> !StopsAt(segments, events, cutoff, k))
            && (d == |segments| - 1 || StopsAt(segments, events, cutoff, d))
  {
    var d := DropCount(segments, events, cutoff);
    assert segments[0..] == segments;
    if d > 0 {
      var tail := segments[1..];
      DropCountMeaning(tail, events, cutoff);
      forall k | 1 <= k < |segments| ensures StopsAt(segments, events, cutoff, k) <==> StopsAt(tail, events, cutoff, k - 1) {
        assert tail[k - 1..] == segments[k..];
      }
    }
  }

  lemma {:induction false} EmptyButLast(segments: seq<Segment>, k: nat)
    requires k < |segments| && forall i :: k <= i < |segments| - 1 ==> segments[i].size == 0
    ensures TotalBytes(segments[k..]) == segments[|segments| - 1].size
    decreases |segments| - k
  {
    assert segments[k..][1..] == segments[k + 1..];
    if k < |segments| - 1 {
      EmptyButLast(segments, k + 1);
    }
  }

  lemma {:induction false} KeptMember(events: seq<Event>, dropped: seq<Segment>, e: Event)
    ensures e in Kept(events, dropped) <==> e in events && !HasPath(dropped, e.segment)
  {
    if events != [] {
      var n := |events| - 1;
      KeptMember(events[..n], dropped, e);
      assert e in events <==> e in events[..n] || e == events[n];
    }
  }

  /** The prune after a write keeps the event written: no older segment shares the name of the last
      one, or the event is young enough and its segment within budget, or the prune stops at an
      older segment of another name. */
  predicate NewestKept(segments: seq<Segment>, log: seq<Event>, cutoff: int)
    requires log != [] && segments != []
  {
    var n, at := |segments| - 1, log[|log| - 1].occurredAt;
    || (forall k :: 0 <= k < n ==> segments[k].path != segments[n].path)
    || (at >= cutoff && segments[n].size <= MAX_OUTBOX_BYTES)
    || (exists k :: 0 <= k < n && segments[k].path != segments[n].path && StopsAt(segments, log, cutoff, k))
  }

  /** A segment with the name of the last one: the prune stops there exactly when the newest event
      is young enough and fits the budget. */
  lemma {:induction false} StopsAtNamesake(segments: seq<Segment>, nextSeq: nat, log: seq<Event>, cutoff: int, k: nat)
    requires InOrder(segments) && Unwritten(segments, nextSeq) && k < |segments| && log != []
    requires log[|log| - 1].segment == segments[|segments| - 1].path == segments[k].path
    ensures StopsAt(segments, log, cutoff, k)
            <==> log[|log| - 1].occurredAt >= cutoff && segments[|segments| - 1].size <= MAX_OUTBOX_BYTES
  {
    EmptyButLast(segments, k);
  }

  /** A prune past a segment of that name took the event with it. */
  lemma {:induction false} NewestDropped(log: seq<Event>, segments: seq<Segment>, nextSeq: nat, cutoff: int, k: nat)
    requires log != [] && InOrder(segments) && Unwritten(segments, nextSeq)
    requires k < DropCount(segments, log, cutoff) && log[|log| - 1].segment == segments[|segments| - 1].path == segments[k].path
    ensures !NewestKept(segments, log, cutoff)
  {
    DropCountMeaning(segments, log, cutoff);
    StopsAtNamesake(segments, nextSeq, log, cutoff, k);
  }

  lemma {:induction false} NewestSpared(log: seq<Event>, segments: seq<Segment>, nextSeq: nat, cutoff: int, k: nat)
    requires log != [] && InOrder(segments) && Unwritten(segments, nextSeq) && k < |segments| - 1
    requires log[|log| - 1].segment == segments[|segments| - 1].path == segments[k].path
    requires DropCount(segments, log, cutoff) <= k
    ensures NewestKept(segments, log, cutoff)
  {
    var d := DropCount(segments, log, cutoff);
    DropCountMeaning(segments, log, cutoff);
    assert StopsAt(segments, log, cutoff, d);
    if segments[d].path == segments[k].path {
      StopsAtNamesake(segments, nextSeq, log, cutoff, d);
    }
  }

  /** After a write's prune the event just written is still there exactly under that condition. */
  lemma {:induction false} AfterWrite(log: seq<Event>, segments: seq<Segment>, nextSeq: nat, cutoff: int)
    requires log != [] && segments != [] && log[|log| - 1].segment == segments[|segments| - 1].path
    requires InOrder(segments) && Unwritten(segments, nextSeq)
    ensures log[|log| - 1] in Kept(log, segments[..DropCount(segments, log, cutoff)]) <==> NewestKept(segments, log, cutoff)
  {
    var d, n, e := DropCount(segments, log, cutoff), |segments| - 1, log[|log| - 1];
    KeptMember(log, segments[..d], e);
    if HasPath(segments[..d], e.segment) {
      var k :| 0 <= k < d && segments[..d][k].path == e.segment;
      NewestDropped(log, segments, nextSeq, cutoff, k);
    } else if k :| 0 <= k < n && segments[k].path == e.segment {
      assert forall j :: 0 <= j < d ==> segments[..d][j] == segments[j];
      NewestSpared(log, segments, nextSeq, cutoff, k);
    }
  }

  /** The retained bytes are within the budget unless a segment is oversized. */
  lemma {:induction false} WithinBudget(log: seq<Event>, segments: seq<Segment>, cutoff: int)
    requires segments != [] && SizesOk(segments)
    ensures var left := segments[DropCount(segments, log, cutoff)..]; SizesOk(left) && TotalBytes(left) <= MAX_OUTBOX_BYTES
  {
    var left := segments[DropCount(segments, log, cutoff)..];
    if |left| == 1 {
      assert left[1..] == [] && TotalBytes(left) == left[0].size + 0;
    }
  }

  method NewestTime(events: seq<Event>, seg: Segment) returns (t: int)
    ensures t == LastTime(events, seg)
  {
    var i := |events|;
    assert events[..i] == events;
    while i > 0
      invariant 0 <= i <= |events|
      invariant LastTime(events[..i], seg) == LastTime(events, seg)
    {
      assert events[..i][..i - 1] == events[..i - 1];
      if events[i - 1].segment == seg.path {
        return events[i - 1].occurredAt;
      }
      i := i - 1;
    }
    return seg.created;
  }

  // ---------- The log ----------

  /** No segment is open, or the last one has no room for the line or is too old. */
  predicate MustRotate(segments: seq<Segment>, open: bool, lineBytes: nat, now: int) {
    !open || segments == [] ||
    var last := segments[|segments| - 1];
    last.size + lineBytes > MAX_SEGMENT_BYTES || now - last.created >= MAX_SEGMENT_AGE
  }

  /** The segments once one with room is open. */
  function Opened(segments: seq<Segment>, open: bool, nextSeq: nat, lineBytes: nat, now: int): (r: seq<Segment>)
    ensures r != []
  {
    if MustRotate(segments, open, lineBytes, now) then segments + [Segment(nextSeq, nextSeq, 0, 0, now)] else segments
  }

  /** The segments once a line has been added to the last one. */
  function Extended(segments: seq<Segment>, nextSeq: nat, lineBytes: nat): (r: seq<Segment>)
    requires segments != []
    ensures r != []
  {
    var n := |segments| - 1;
    segments[n := segments[n].(last := nextSeq, size := segments[n].size + lineBytes)]
  }

  function Written(segments: seq<Segment>, open: bool, nextSeq: nat, lineBytes: nat, now: int): (r: seq<Segment>)
    ensures r != []
    ensures SizesOk(segments) && lineBytes <= MAX_SEGMENT_BYTES ==> SizesOk(r)
  {
    Extended(Opened(segments, open, nextSeq, lineBytes, now), nextSeq, lineBytes)
  }

  class Log {
    const stream: string
    var nextSeq: nat
    var events: seq<Event>
    var segments: seq<Segment>
    var open: bool

    ghost predicate Valid()
      reads this
    {
      Contiguous(events, nextSeq) && Layered(events, segments, nextSeq) && Unwritten(segments, nextSeq)
    }

    constructor (stream: string)
      ensures Valid() && events == [] && segments == [] && nextSeq == 1 && this.stream == stream
    {
      this.stream := stream;
      nextSeq, events, segments, open := 1, [], [], false;
    }

    method PruneLocked(now: int)
      requires Valid()
      modifies this`events, this`segments
      ensures Valid()
      ensures var d := DropCount(old(segments), old(events), now - MAX_RETENTION);
              segments == old(segments)[d..] && events == Kept(old(events), old(segments)[..d])
      ensures IsSuffix(events, old(events))
    {
      ghost var d := DropCount(segments, events, now - MAX_RETENTION);
      PruneKeepsShape(events, segments, nextSeq, d);
      SuffixUnwritten(segments, nextSeq, d);
      var left, removed := DropOld(segments, events, now - MAX_RETENTION);
      events := Filter(events, removed, segments[..d]);
      segments := left;
    }

    /** A successful append numbers the event, writes it and prunes; a failed one changes no event.
        The prune keeps the new event unless its segment shares its name with an older one, which
        only a failed write leaves behind, and the event is older than the retention time. */
    method Append(lineBytes: nat, pageBytes: nat, at: int, now: int, rotates: bool, writes: bool) returns (ok: bool, e: Event)
      requires Valid()
      modifies this
      ensures Valid()
      ensures ok == (writes && (rotates || !MustRotate(old(segments), old(open), lineBytes, now)))
      ensures !ok ==> events == old(events) && nextSeq == old(nextSeq)
      ensures !ok && rotates ==> segments == Opened(old(segments), old(open), old(nextSeq), lineBytes, now) && open
      ensures ok ==> nextSeq == old(nextSeq) + 1 && e.seqNo == old(nextSeq) && e.occurredAt == at && e.pageBytes == pageBytes
      ensures ok ==> IsSuffix(events, old(events) + [e])
      ensures ok ==> (e in events <==> NewestKept(Written(old(segments), old(open), old(nextSeq), lineBytes, now),
                                                  old(events) + [e], now - MAX_RETENTION))
      ensures ok && at >= now - MAX_RETENTION && SizesOk(old(segments)) && lineBytes <= MAX_SEGMENT_BYTES ==> e in events
      ensures SizesOk(old(segments)) && lineBytes <= MAX_SEGMENT_BYTES ==>
          SizesOk(segments) && (ok ==> TotalBytes(segments) <= MAX_OUTBOX_BYTES)
    {
      e := Event(nextSeq, at, pageBytes, 0);
      var rotated := Rotate(lineBytes, now, rotates);
      if !rotated || !writes {
        return false, e;
      }
      e := Commit(lineBytes, pageBytes, at, now);
      ok := true;
    }

    /** Writes the event into the open segment and prunes. */
    method Commit(lineBytes: nat, pageBytes: nat, at: int, now: int) returns (e: Event)
      requires Valid() && segments != []
      modifies this`segments, this`events, this`nextSeq
      ensures Valid() && nextSeq == old(nextSeq) + 1
      ensures e.seqNo == old(nextSeq) && e.occurredAt == at && e.pageBytes == pageBytes
      ensures IsSuffix(events, old(events) + [e])
      ensures e in events <==> NewestKept(Extended(old(segments), old(nextSeq), lineBytes), old(events) + [e], now - MAX_RETENTION)
      ensures SizesOk(Extended(old(segments), old(nextSeq), lineBytes)) ==> SizesOk(segments) && TotalBytes(segments) <= MAX_OUTBOX_BYTES
    {
      e := Write(lineBytes, pageBytes, at);
      AfterWrite(events, segments, nextSeq, now - MAX_RETENTION);
      if SizesOk(segments) {
        WithinBudget(events, segments, now - MAX_RETENTION);
      }
      PruneLocked(now);
    }

    /** Adds the event to the open segment and to the log. */
    method Write(lineBytes: nat, pageBytes: nat, at: int) returns (e: Event)
      requires Valid() && segments != []
      modifies this`segments, this`events, this`nextSeq
      ensures Valid() && nextSeq == old(nextSeq) + 1 && events == old(events) + [e]
      ensures e.seqNo == old(nextSeq) && e.occurredAt == at && e.pageBytes == pageBytes
      ensures segments == Extended(old(segments), old(nextSeq), lineBytes)
      ensures segments != [] && e.segment == segments[|segments| - 1].path
    {
      var index := |segments| - 1;
      var seg := segments[index].(last := nextSeq, size := segments[index].size + lineBytes);
      e := Event(nextSeq, at, pageBytes, seg.path);
      WriteShape(events, segments, nextSeq, e, seg);
      segments := segments[index := seg];
      events := events + [e];
      nextSeq := nextSeq + 1;
    }

    /** Makes sure a segment with room is open, starting a new one if needed. */
    method Rotate(lineBytes: nat, now: int, rotates: bool) returns (ready: bool)
      requires Valid()
      modifies this`segments, this`open
      ensures Valid() && ready == (rotates || !MustRotate(old(segments), old(open), lineBytes, now))
      ensures ready ==> segments == Opened(old(segments), old(open), nextSeq, lineBytes, now) && segments != [] && open
      ensures !ready ==> segments == old(segments)
    {
      if MustRotate(segments, open, lineBytes, now) {
        if !rotates {
          return false;
        }
        RotateShape(events, segments, nextSeq, now);
        open := true;
        segments := segments + [Segment(nextSeq, nextSeq, 0, 0, now)];
      }
      return true;
    }

    method ReadPage(cursor: Cursor, limit: int) returns (page: PageResult)
      requires Valid()
      ensures page == PageOf(events, stream, cursor, limit)
    {
      var room := ClampLimit(limit);
      var earliest, latest := Earliest(events), Latest(events);
      var position := 0;
      match cursor {
        case Garbled => return InvalidCursor;
        case Empty =>
          if earliest > 0 {
            position := earliest - 1;
          }
        case At(s, q) =>
          if s != stream {
            return CursorGap("stream_reset", At(stream, Resume(events)), earliest, latest);
          }
          position := q;
          if latest > 0 && position > latest {
            return InvalidCursor;
          }
          if earliest > 0 && position + 1 < earliest {
            return CursorGap("retention", At(stream, Resume(events)), earliest, latest);
          }
      }
      var taken := CollectPage(events, position, room);
      var last := if taken == [] then position else taken[|taken| - 1].seqNo;
      page := Page(taken, At(stream, last), last < latest, earliest, latest);
    }
  }

  method SumBytes(segments: seq<Segment>) returns (total: nat)
    ensures total == TotalBytes(segments)
  {
    total := 0;
    for i := 0 to |segments|
      invariant total + TotalBytes(segments[i..]) == TotalBytes(segments)
    {
      total := total + segments[i].size;
    }
  }

  /** The retention loop, oldest segment first. */
  method DropOld(segments: seq<Segment>, events: seq<Event>, cutoff: int) returns (left: seq<Segment>, removed: set<nat>)
    ensures var d := DropCount(segments, events, cutoff);
            left == segments[d..] && forall p :: p in removed <==> HasPath(segments[..d], p)
  {
    var total := SumBytes(segments);
    left, removed := segments, {};
    ghost var d := 0;
    while |left| > 1
      invariant d <= |segments| && left == segments[d..] && total == TotalBytes(left)
      invariant forall p :: p in removed <==> HasPath(segments[..d], p)
      invariant DropCount(segments, events, cutoff) == d + DropCount(left, events, cutoff)
      decreases |left|
    {
      var seg := left[0];
      var lastTime := NewestTime(events, seg);
      if total <= MAX_OUTBOX_BYTES && lastTime >= cutoff {
        break;
      }
      OneMorePath(segments, d);
      removed := removed + {seg.path};
      total := total - seg.size;
      left := left[1..];
      d := d + 1;
    }
  }

  lemma {:induction false} OneMorePath(segments: seq<Segment>, d: nat)
    requires d < |segments|
    ensures forall p :: HasPath(segments[..d + 1], p) <==> HasPath(segments[..d], p) || p == segments[d].path
  {
    forall p ensures HasPath(segments[..d + 1], p) <==> HasPath(segments[..d], p) || p == segments[d].path {
      if HasPath(segments[..d], p) {
        var k :| 0 <= k < d && segments[..d][k].path == p;
        assert segments[..d + 1][k] == segments[..d][k];
      }
      assert segments[..d + 1][d] == segments[d];
    }
  }

  method Filter(events: seq<Event>, removed: set<nat>, ghost dropped: seq<Segment>) returns (kept: seq<Event>)
    requires forall p :: p in removed <==> HasPath(dropped, p)
    ensures kept == Kept(events, dropped)
  {
    kept := [];
    for i := 0 to |events|
      invariant kept == Kept(events[..i], dropped)
    {
      assert events[..i + 1][..i] == events[..i];
      if events[i].segment !in removed {
        kept := kept + [events[i]];
      }
    }
    assert events[..|events|] == events;
  }

  /** Skips what the cursor has passed. */
  method SkipPassed(events: seq<Event>, position: nat) returns (i: nat)
    ensures i <= |events| && After(events, position) == events[i..]
  {
    i := 0;
    while i < |events| && events[i].seqNo <= position
      invariant 0 <= i <= |events| && After(events[i..], position) == After(events, position)
    {
      assert events[i..][1..] == events[i + 1..];
      i := i + 1;
    }
  }

  /** Takes events while they fit. */
  method TakeFitting(rest: seq<Event>, room: nat) returns (taken: seq<Event>)
    ensures taken == rest[..Fitting(rest, PAGE_OVERHEAD, room)]
  {
    var used := PAGE_OVERHEAD;
    taken := [];
    for i := 0 to |rest|
      invariant taken == rest[..i] && i <= room && used >= 0
      invariant Fitting(rest, PAGE_OVERHEAD, room) == i + Fitting(rest[i..], used, room - i)
    {
      var size := rest[i].pageBytes;
      assert rest[i..][0] == rest[i] && rest[i..][1..] == rest[i + 1..];
      if i >= room || used + size > MAX_PAGE_BYTES {
        return;
      }
      taken := taken + [rest[i]];
      used := used + size;
    }
  }

  /** The page loop: skip what the cursor has passed, then take events while they fit. */
  method CollectPage(events: seq<Event>, position: nat, room: nat) returns (taken: seq<Event>)
    ensures var rest := After(events, position); taken == rest[..Fitting(rest, PAGE_OVERHEAD, room)]
  {
    var i := SkipPassed(events, position);
    taken := TakeFitting(events[i..], room);
  }

  lemma {:induction false} SuffixUnwritten(segments: seq<Segment>, nextSeq: nat, d: nat)
    requires Unwritten(segments, nextSeq) && d <= |segments|
    ensures Unwritten(segments[d..], nextSeq)
  {
  }

  lemma {:induction false} RotateShape(events: seq<Event>, segments: seq<Segment>, nextSeq: nat, now: int)
    requires Layered(events, segments, nextSeq) && Unwritten(segments, nextSeq)
    ensures Layered(events, segments + [Segment(nextSeq, nextSeq, 0, 0, now)], nextSeq)
    ensures Unwritten(segments + [Segment(nextSeq, nextSeq, 0, 0, now)], nextSeq)
  {
    var more := segments + [Segment(nextSeq, nextSeq, 0, 0, now)];
    forall i | 0 <= i < |events| ensures HasPath(more, events[i].segment) {
      var k :| 0 <= k < |segments| && segments[k].path == events[i].segment;
      assert more[k] == segments[k];
    }
  }

  lemma {:induction false} WriteShape(events: seq<Event>, segments: seq<Segment>, nextSeq: nat, e: Event, seg: Segment)
    requires Contiguous(events, nextSeq) && Layered(events, segments, nextSeq) && Unwritten(segments, nextSeq) && segments != []
    requires e.seqNo == nextSeq && e.segment == seg.path == segments[|segments| - 1].path
    ensures Contiguous(events + [e], nextSeq + 1) && Unwritten(segments[|segments| - 1 := seg], nextSeq + 1)
    ensures Layered(events + [e], segments[|segments| - 1 := seg], nextSeq + 1)
  {
    var n := |segments| - 1;
    var next, log := segments[n := seg], events + [e];
    assert next[n] == seg;
    forall i | 0 <= i < |log| ensures HasPath(next, log[i].segment) && log[i].segment <= seg.path {
      if i < |events| {
        var k :| 0 <= k < |segments| && segments[k].path == events[i].segment;
        assert next[k].path == events[i].segment;
      }
    }
  }

  /** The events a method below was left with, for the two appends it made. */
  datatype Aftermath = Aftermath(first: bool, second: bool, events: seq<Event>, nextSeq: nat)

  /** The state the failed write leaves: an empty segment under the name of the next event. */
  lemma {:induction false} NameTakenAgain(segments: seq<Segment>, lineBytes: nat, now: int, e: Event)
    requires segments == [Segment(1, 1, 0, 0, now - MAX_SEGMENT_AGE)] && e.occurredAt < now - MAX_RETENTION
    ensures !NewestKept(Written(segments, true, 1, lineBytes, now), [e], now - MAX_RETENTION)
  {
    var ws := Written(segments, true, 1, lineBytes, now);
    assert |ws| == 2 && ws[0].path == ws[1].path;
  }

  lemma {:induction false} NothingLeft(events: seq<Event>, e: Event)
    requires IsSuffix(events, [e]) && e !in events
    ensures events == []
  {
    assert forall i :: 0 <= i < |events| ==> events[i] == e;
  }

  /** A run that loses an event it has accepted: the first write into a new segment fails, an hour
      later the next rotation takes the same name, and the event written then is too old. */
  method LosesNewest(lineBytes: nat, pageBytes: nat, at: int, now: int) returns (r: Aftermath)
    requires lineBytes <= MAX_SEGMENT_BYTES && at < now - MAX_RETENTION
    ensures r == Aftermath(false, true, [], 2)
  {
    var log := new Log("stream");
    var ok1, e := log.Append(lineBytes, pageBytes, at, now - MAX_SEGMENT_AGE, true, false);
    ghost var segments := log.segments;
    assert segments == [Segment(1, 1, 0, 0, now - MAX_SEGMENT_AGE)];
    var ok2;
    ok2, e := log.Append(lineBytes, pageBytes, at, now, true, true);
    NameTakenAgain(segments, lineBytes, now, e);
    assert [] + [e] == [e];
    NothingLeft(log.events, e);
    r := Aftermath(ok1, ok2, log.events, log.nextSeq);
  }
}
