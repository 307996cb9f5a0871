/** The gateway's collector: it polls one node's outbox page by page and commits each page's
    effects together with its cursor. Runs mix appends and prunes on the node with polls, aborted
    transactions, expiry of remembered event identities, and restarts of the poll. */
module Collector {
  import opened Outbox

  const MAX_PAGES := 32

  /** What a committed transaction leaves behind: the effects of one event, or a gap mark. The
      session, job and rollup tables are a function of the sequence of applied events. */
  datatype Commit = Applied(seqNo: nat) | GapMark

  /** The gateway's record of one node: the committed cursor, the remembered event identities,
      the commits so far, and the position just before the first page it ever committed. */
  datatype Record = Record(cursor: Cursor, ids: set<nat>, log: seq<Commit>, base: nat)

  datatype Poll = Idle | Ready(cursor: Cursor) | Fetched(cursor: Cursor, answer: PageResult)

  datatype System = System(stream: string, nextSeq: nat, events: seq<Event>, record: Record, poll: Poll)

  datatype Step =
    | NodeAppends(event: Event)
    | NodePrunes(count: nat)
    | Begin
    | Fetch
    | Commits
    | Aborts
    | Forget(ids: set<nat>)

  // ---------- Transactions ----------

  function ApplyEvents(r: Record, events: seq<Event>): Record
    decreases |events|
  {
    if events == [] then r
    else
      var n := |events| - 1;
      var before := ApplyEvents(r, events[..n]);
      var q := events[n].seqNo;
      if q in before.ids then before
      else before.(ids := before.ids + {q}, log := before.log + [Applied(q)])
  }

  function CommitPage(r: Record, page: PageResult): Record
    requires page.Page?
  {
    var applied := ApplyEvents(r, page.events);
    var first := if page.events == [] then (if page.next.At? then page.next.seqNo else 0)
                 else if page.events[0].seqNo > 0 then page.events[0].seqNo - 1 else 0;
    applied.(cursor := page.next, base := if r.cursor.Empty? then first else r.base)
  }

  function CommitGap(r: Record): Record {
    r.(log := r.log + [GapMark])
  }

  predicate Enabled(s: System, step: Step) {
    match step
    case NodeAppends(e) => e.seqNo == s.nextSeq
    case NodePrunes(count) => count <= |s.events|
    case Begin => true
    case Fetch => s.poll.Ready?
    case Commits => s.poll.Fetched?
    case Aborts => s.poll.Fetched?
    case Forget(_) => true
  }

  function Next(s: System, step: Step): System
    requires Enabled(s, step)
  {
    match step
    case NodeAppends(e) => s.(nextSeq := s.nextSeq + 1, events := s.events + [e])
    case NodePrunes(count) => s.(events := s.events[count..])
    case Begin => s.(poll := Ready(s.record.cursor))
    case Fetch => s.(poll := Fetched(s.poll.cursor, PageOf(s.events, s.stream, s.poll.cursor, MAX_PAGE_LIMIT)))
    case Commits =>
      (match s.poll.answer
       case Page(_, next, hasMore, _, _) =>
         s.(record := CommitPage(s.record, s.poll.answer), poll := if hasMore then Ready(next) else Idle)
       case CursorGap(_, resume, _, _) => s.(record := CommitGap(s.record), poll := Ready(resume))
       case InvalidCursor => s.(poll := Idle))
    case Aborts => s.(poll := Idle)
    case Forget(ids) => s.(record := s.record.(ids := s.record.ids - ids))
  }

  function Start(stream: string): System {
    System(stream, 1, [], Record(Empty, {}, [], 0), Idle)
  }

  ghost predicate ValidRun(stream: string, steps: seq<Step>)
    decreases |steps|, 0
  {
    steps == [] ||
    (ValidRun(stream, steps[..|steps| - 1]) && Enabled(Run(stream, steps[..|steps| - 1]), steps[|steps| - 1]))
  }

  ghost function Run(stream: string, steps: seq<Step>): System
    requires ValidRun(stream, steps)
    decreases |steps|, 1
  {
    if steps == [] then Start(stream) else Next(Run(stream, steps[..|steps| - 1]), steps[|steps| - 1])
  }

  // ---------- What every run keeps ----------

  /** The last applied number, or `base` before the first. */
  ghost function Frontier(log: seq<Commit>, base: nat): nat {
    if log == [] then base
    else if log[|log| - 1].Applied? then log[|log| - 1].seqNo
    else Frontier(log[..|log| - 1], base)
  }

  /** Moving on to `position` is safe: it passes over nothing, or a mark has just been committed. */
  ghost predicate Safe(log: seq<Commit>, base: nat, position: nat) {
    && Frontier(log, base) <= position
    && (position > Frontier(log, base) ==> log != [] && log[|log| - 1].GapMark?)
  }

  /** Each application moves forward, and one that passes over numbers comes right after a mark. */
  ghost predicate Sound(log: seq<Commit>, base: nat) {
    log == [] ||
    var n := |log| - 1;
    && Sound(log[..n], base)
    && (log[n].Applied? ==> log[n].seqNo > 0 && Frontier(log[..n], base) < log[n].seqNo && Safe(log[..n], base, log[n].seqNo - 1))
  }

  ghost predicate SafeCursor(s: System, c: Cursor) {
    match c
    case Empty => s.record.cursor.Empty?
    case At(stream, p) => stream == s.stream && !s.record.cursor.Empty? && Safe(s.record.log, s.record.base, p)
    case Garbled => false
  }

  /** A page is the run of events after its cursor; a gap moves forward. */
  ghost predicate AnswerOk(s: System, c: Cursor, answer: PageResult) {
    match answer
    case Page(events, next, _, _, _) =>
      && next.At? && next.stream == s.stream && |events| <= next.seqNo
      && (c.At? ==> c.seqNo + |events| == next.seqNo)
      && forall i :: 0 <= i < |events| ==> events[i].seqNo == next.seqNo - |events| + 1 + i
    case CursorGap(_, resume, _, _) => c.At? && resume.At? && resume.stream == s.stream && c.seqNo <= resume.seqNo
    case InvalidCursor => true
  }

  ghost predicate Inv(s: System) {
    && Contiguous(s.events, s.nextSeq)
    && Sound(s.record.log, s.record.base)
    && (s.record.cursor.Empty? ==> s.record.log == [])
    && (forall n :: n in s.record.ids ==> n <= Frontier(s.record.log, s.record.base))
    && (s.record.cursor.Empty? ==> s.record.ids == {})
    && SafeCursor(s, s.record.cursor)
    && (s.poll.Ready? ==> SafeCursor(s, s.poll.cursor))
    && (s.poll.Fetched? ==> SafeCursor(s, s.poll.cursor) && AnswerOk(s, s.poll.cursor, s.poll.answer))
  }

  lemma Unchanged(log: seq<Commit>, base: nat, c: Commit)
    ensures (log + [c])[..|log|] == log
    ensures Frontier(log + [c], base) == if c.Applied? then c.seqNo else Frontier(log, base)
    ensures Sound(log, base) && (c.Applied? ==> c.seqNo > 0 && Frontier(log, base) < c.seqNo && Safe(log, base, c.seqNo - 1)) ==>
        Sound(log + [c], base)
  {
    assert (log + [c])[..|log|] == log;
  }

  /** What a transaction relies on: nothing remembered lies beyond what was applied. */
  ghost predicate Fresh(r: Record) {
    Sound(r.log, r.base) && forall n :: n in r.ids ==> n <= Frontier(r.log, r.base)
  }

  lemma EventApplied(r: Record, q: nat)
    requires Fresh(r) && q > 0 && Safe(r.log, r.base, q - 1)
    ensures q !in r.ids
    ensures var after := r.(ids := r.ids + {q}, log := r.log + [Applied(q)]);
            Fresh(after) && Frontier(after.log, r.base) == q
  {
    Unchanged(r.log, r.base, Applied(q));
  }

  /** Applying the events from `position` on: each is new, so each is applied, in order. */
  lemma {:induction false} PageApplied(r: Record, events: seq<Event>, position: nat)
    requires Fresh(r) && Safe(r.log, r.base, position)
    requires forall i :: 0 <= i < |events| ==> events[i].seqNo == position + 1 + i
    ensures var after := ApplyEvents(r, events);
            && after.base == r.base && after.cursor == r.cursor && Fresh(after)
            && (if events == [] then after == r else Frontier(after.log, r.base) == position + |events|)
  {
    if events != [] {
      var n := |events| - 1;
      PageApplied(r, events[..n], position);
      EventApplied(ApplyEvents(r, events[..n]), events[n].seqNo);
    }
  }

  lemma PageAnswer(s: System, c: Cursor)
    requires Inv(s) && SafeCursor(s, c)
    ensures AnswerOk(s, c, PageOf(s.events, s.stream, c, MAX_PAGE_LIMIT))
  {
    var answer := PageOf(s.events, s.stream, c, MAX_PAGE_LIMIT);
    if answer.Page? {
      var p := if c.At? then c.seqNo else if s.events == [] then 0 else Earliest(s.events) - 1;
      assert answer == PageOf(s.events, s.stream, At(s.stream, p), MAX_PAGE_LIMIT);
      PageAdvances(s.events, s.nextSeq, s.stream, p, MAX_PAGE_LIMIT);
    }
  }

  /** Committing a fetched page. */
  lemma CommitKeeps(s: System)
    requires Inv(s) && s.poll.Fetched? && s.poll.answer.Page?
    ensures Inv(Next(s, Commits))
  {
    var page, r := s.poll.answer, s.record;
    var position := page.next.seqNo - |page.events|;
    var r0 := if r.cursor.Empty? then r.(base := position) else r;
    PageApplied(r0, page.events, position);
    RebaseApply(r, position, page.events);
    assert CommitPage(r, page) == ApplyEvents(r0, page.events).(cursor := page.next);
  }

  lemma {:induction false} RebaseApply(r: Record, base: nat, events: seq<Event>)
    ensures ApplyEvents(r.(base := base), events) == ApplyEvents(r, events).(base := base)
  {
    if events != [] {
      RebaseApply(r, base, events[..|events| - 1]);
    }
  }

  lemma StepKeeps(s: System, step: Step)
    requires Inv(s) && Enabled(s, step)
    ensures Inv(Next(s, step))
  {
    match step
    case NodeAppends(e) =>
    case NodePrunes(count) =>
    case Begin =>
    case Fetch => PageAnswer(s, s.poll.cursor);
    case Commits =>
      if s.poll.answer.Page? {
        CommitKeeps(s);
      } else if s.poll.answer.CursorGap? {
        Unchanged(s.record.log, s.record.base, GapMark);
      }
    case Aborts =>
    case Forget(ids) =>
  }

  lemma {:induction false} RunKeeps(stream: string, steps: seq<Step>)
    requires ValidRun(stream, steps)
    ensures Inv(Run(stream, steps))
    decreases |steps|
  {
    if steps != [] {
      RunKeeps(stream, steps[..|steps| - 1]);
      StepKeeps(Run(stream, steps[..|steps| - 1]), steps[|steps| - 1]);
    }
  }

  // ---------- The promise, read off the commits ----------

  /** A gap mark before position `q` of the log that came after everything applied below `n`. */
  ghost predicate Marked(log: seq<Commit>, q: int, n: int) {
    exists r :: 0 <= r < q <= |log| && log[r].GapMark? && forall k :: 0 <= k < r && log[k].Applied? ==> log[k].seqNo < n
  }

  lemma {:induction false} AppliedIncrease(log: seq<Commit>, base: nat)
    requires Sound(log, base)
    ensures base <= Frontier(log, base)
    ensures forall k :: 0 <= k < |log| && log[k].Applied? ==> base < log[k].seqNo <= Frontier(log, base)
    ensures forall j, k :: 0 <= j < k < |log| && log[j].Applied? && log[k].Applied? ==> log[j].seqNo < log[k].seqNo
  {
    if log != [] {
      var n := |log| - 1;
      var before := log[..n];
      AppliedIncrease(before, base);
      forall j, k | 0 <= j < k < |log| && log[j].Applied? && log[k].Applied? ensures log[j].seqNo < log[k].seqNo {
        assert before[j] == log[j] && (k < n ==> before[k] == log[k]);
      }
    }
  }

  lemma {:induction false} SkippedAreMarked(log: seq<Commit>, base: nat, q: nat, n: nat)
    requires Sound(log, base) && q < |log| && log[q].Applied?
    requires base < n < log[q].seqNo && Applied(n) !in log
    ensures Marked(log, q, n)
  {
    var last := |log| - 1;
    var before := log[..last];
    if q < last {
      assert before[q] == log[q];
      SkippedAreMarked(before, base, q, n);
      var r :| 0 <= r < q && before[r].GapMark? && forall k :: 0 <= k < r && before[k].Applied? ==> before[k].seqNo < n;
      assert log[r] == before[r];
    } else if n <= Frontier(before, base) {
      var p := LastApplied(before, base);
      assert before[p] == log[p];
      SkippedAreMarked(before, base, p, n);
      var r :| 0 <= r < p && before[r].GapMark? && forall k :: 0 <= k < r && before[k].Applied? ==> before[k].seqNo < n;
      assert log[r] == before[r];
    } else {
      AppliedIncrease(before, base);
      assert log[last - 1] == before[last - 1];
    }
  }

  lemma {:induction false} LastApplied(log: seq<Commit>, base: nat) returns (p: nat)
    requires Sound(log, base) && Frontier(log, base) > base
    ensures p < |log| && log[p].Applied? && log[p].seqNo == Frontier(log, base)
  {
    p := |log| - 1;
    if !log[p].Applied? {
      p := LastApplied(log[..p], base);
    }
  }

  /** Applied numbers strictly increase, so each event is applied at most once, and a number passed
      over after first contact is preceded by a committed gap mark. */
  ghost predicate NothingLostSilently(r: Record) {
    && (forall j, k :: 0 <= j < k < |r.log| && r.log[j].Applied? && r.log[k].Applied? ==> r.log[j].seqNo < r.log[k].seqNo)
    && (forall q, n: nat :: 0 <= q < |r.log| && r.log[q].Applied? && r.base < n < r.log[q].seqNo && Applied(n) !in r.log ==>
          Marked(r.log, q, n))
  }

  /** In every run, whatever aborted or restarted. */
  lemma {:induction false} RunsLoseNothingSilently(stream: string, steps: seq<Step>)
    requires ValidRun(stream, steps)
    ensures NothingLostSilently(Run(stream, steps).record)
  {
    RunKeeps(stream, steps);
    var r := Run(stream, steps).record;
    AppliedIncrease(r.log, r.base);
    forall q, n: nat | 0 <= q < |r.log| && r.log[q].Applied? && r.base < n < r.log[q].seqNo && Applied(n) !in r.log
      ensures Marked(r.log, q, n)
    {
      SkippedAreMarked(r.log, r.base, q, n);
    }
  }

  /** Applying a page again changes no table while its identities are remembered. */
  lemma {:induction false} ReapplyIsNoOp(r: Record, events: seq<Event>)
    requires forall i :: 0 <= i < |events| ==> events[i].seqNo in r.ids
    ensures ApplyEvents(r, events) == r
  {
    if events != [] {
      ReapplyIsNoOp(r, events[..|events| - 1]);
    }
  }

  /** Right after a page is committed all its identities are remembered. */
  lemma {:induction false} IdentitiesRemembered(r: Record, events: seq<Event>)
    ensures r.ids <= ApplyEvents(r, events).ids
    ensures forall i :: 0 <= i < |events| ==> events[i].seqNo in ApplyEvents(r, events).ids
  {
    if events != [] {
      var n := |events| - 1;
      IdentitiesRemembered(r, events[..n]);
      forall i | 0 <= i < |events| ensures events[i].seqNo in ApplyEvents(r, events).ids {
        if i < n {
          assert events[..n][i] == events[i];
        }
      }
    }
  }

  lemma CommitTwice(r: Record, page: PageResult)
    requires page.Page? && page.next.At?
    ensures var once := CommitPage(r, page); CommitPage(once, page) == once
  {
    IdentitiesRemembered(r, page.events);
    ReapplyIsNoOp(CommitPage(r, page), page.events);
  }

  // ---------- The gateway's own form ----------

  class History {
    const stream: string
    var record: Record
    ghost var steps: seq<Step>

    /** The record is what some run of node, poll and transactions left behind. */
    ghost predicate Valid()
      reads this
    {
      ValidRun(stream, steps) && record == Run(stream, steps).record
    }

    constructor (stream: string)
      ensures Valid() && record == Record(Empty, {}, [], 0) && steps == [] && this.stream == stream
    {
      this.stream := stream;
      record := Record(Empty, {}, [], 0);
      steps := [];
    }

    /** One transaction: either everything is committed, or nothing. */
    method ApplyPage(page: PageResult, commits: bool) returns (ok: bool)
      requires page.Page?
      modifies this`record
      ensures ok == commits
      ensures record == if commits then CommitPage(old(record), page) else old(record)
    {
      var r := record;
      for i := 0 to |page.events|
        invariant r == ApplyEvents(old(record), page.events[..i]) && record == old(record)
      {
        assert page.events[..i + 1][..i] == page.events[..i];
        var q := page.events[i].seqNo;
        if q !in r.ids {
          r := r.(ids := r.ids + {q}, log := r.log + [Applied(q)]);
        }
      }
      assert page.events[..|page.events|] == page.events;
      if !commits {
        return false;
      }
      var first := if page.events == [] then (if page.next.At? then page.next.seqNo else 0)
                   else if page.events[0].seqNo > 0 then page.events[0].seqNo - 1 else 0;
      record := r.(cursor := page.next, base := if record.cursor.Empty? then first else record.base);
      return true;
    }

    method MarkGap(commits: bool) returns (ok: bool)
      modifies this`record
      ensures ok == commits
      ensures record == if commits then CommitGap(old(record)) else old(record)
    {
      if commits {
        record := record.(log := record.log + [GapMark]);
      }
      return commits;
    }

    /** One poll of at most 32 pages, starting from the committed cursor, of a node that goes on
        appending and pruning meanwhile; whether each transaction commits is open. The poll
        continues the run, so what holds of every run holds of the record afterwards. */
    method CollectNodeHistory(ask: (nat, Cursor) -> PageResult, commits: nat -> bool, ghost script: nat -> Meanwhile)
      requires Valid() && AnswersOf(stream, NodeOf(Run(stream, steps)), script, ask, 0)
      modifies this
      ensures Valid() && old(steps) <= steps && NothingLostSilently(record)
      ensures record == Collected(old(record), old(record).cursor, ask, commits, 0)
    {
      ghost var end;
      PollPages(ask, commits);
      steps, end := LivePollIsRun(stream, steps, Run(stream, steps), script, ask, commits);
      RunsLoseNothingSilently(stream, steps);
    }

    /** The loop of a poll. */
    method PollPages(ask: (nat, Cursor) -> PageResult, commits: nat -> bool)
      modifies this`record
      ensures record == Collected(old(record), old(record).cursor, ask, commits, 0)
    {
      var cursor := record.cursor;
      var pages := 0;
      while pages < MAX_PAGES
        invariant 0 <= pages <= MAX_PAGES
        invariant Collected(record, cursor, ask, commits, pages) == Collected(old(record), old(record).cursor, ask, commits, 0)
      {
        var answer := ask(pages, cursor);
        var ok, on := false, true;
        match answer {
          case InvalidCursor =>
          case CursorGap(_, resume, _, _) =>
            ok := MarkGap(commits(pages));
            cursor := resume;
          case Page(_, next, hasMore, _, _) =>
            ok := ApplyPage(answer, commits(pages));
            on := hasMore;
            cursor := next;
        }
        if !ok || !on {
          break;
        }
        pages := pages + 1;
      }
    }
  }

  /** The record after the rest of a poll that stands at `cursor` after `pages` turns. */
  function Collected(r: Record, cursor: Cursor, ask: (nat, Cursor) -> PageResult, commits: nat -> bool, pages: nat): Record
    decreases MAX_PAGES - pages
  {
    if pages >= MAX_PAGES then r
    else
      var answer := ask(pages, cursor);
      match answer
      case InvalidCursor => r
      case CursorGap(_, resume, _, _) =>
        if commits(pages) then Collected(CommitGap(r), resume, ask, commits, pages + 1) else r
      case Page(_, next, hasMore, _, _) =>
        if !commits(pages) then r
        else if !hasMore then CommitPage(r, answer)
        else Collected(CommitPage(r, answer), next, ask, commits, pages + 1)
  }

  // ---------- A poll of a live node is a run ----------

  datatype Node = Node(events: seq<Event>, nextSeq: nat)

  function NodeOf(s: System): Node { Node(s.events, s.nextSeq) }

  predicate NodeMay(n: Node, step: Step) {
    (step.NodeAppends? && step.event.seqNo == n.nextSeq) || (step.NodePrunes? && step.count <= |n.events|)
  }

  function NodeNext(n: Node, step: Step): Node {
    if step.NodeAppends? then Node(n.events + [step.event], n.nextSeq + 1)
    else if step.NodePrunes? && step.count <= |n.events| then n.(events := n.events[step.count..])
    else n
  }

  function NodeAfter(n: Node, steps: seq<Step>): Node {
    if steps == [] then n else NodeNext(NodeAfter(n, steps[..|steps| - 1]), steps[|steps| - 1])
  }

  /** The node can take these steps, one after the other. */
  predicate NodeTakes(n: Node, steps: seq<Step>) {
    steps == [] || (NodeTakes(n, steps[..|steps| - 1]) && NodeMay(NodeAfter(n, steps[..|steps| - 1]), steps[|steps| - 1]))
  }

  /** What the node does before it answers a turn of the poll, and between its answer and the commit. */
  datatype Meanwhile = Meanwhile(before: seq<Step>, during: seq<Step>)

  /** From turn `pages` on, `ask` gives the answers of a node that starts as `n` and goes on
      appending and pruning as `script` says. */
  ghost predicate AnswersOf(stream: string, n: Node, script: nat -> Meanwhile, ask: (nat, Cursor) -> PageResult, pages: nat)
    decreases MAX_PAGES - pages
  {
    pages >= MAX_PAGES || (
      var asked := NodeAfter(n, script(pages).before);
      && NodeTakes(n, script(pages).before) && NodeTakes(asked, script(pages).during)
      && (forall c :: ask(pages, c) == PageOf(asked.events, stream, c, MAX_PAGE_LIMIT))
      && AnswersOf(stream, NodeAfter(asked, script(pages).during), script, ask, pages + 1))
  }

  /** These steps are a run, and it ends in `s`. */
  ghost predicate Reaches(stream: string, steps: seq<Step>, s: System) {
    ValidRun(stream, steps) && Run(stream, steps) == s
  }

  lemma {:induction false} OneMore(stream: string, steps: seq<Step>, s: System, step: Step)
    requires Reaches(stream, steps, s) && Enabled(s, step)
    ensures Reaches(stream, steps + [step], Next(s, step))
  {
    assert (steps + [step])[..|steps|] == steps;
  }

  function Moved(s: System, n: Node): System { s.(events := n.events, nextSeq := n.nextSeq) }

  lemma {:induction false} Longer(steps: seq<Step>, more: seq<Step>)
    requires more != []
    ensures steps + more == steps + more[..|more| - 1] + [more[|more| - 1]]
  {
  }

  /** The node's own steps can follow any run, and change nothing but the node. */
  lemma {:induction false} NodeRuns(stream: string, steps: seq<Step>, s: System, more: seq<Step>)
    requires Reaches(stream, steps, s) && NodeTakes(NodeOf(s), more)
    ensures Reaches(stream, steps + more, Moved(s, NodeAfter(NodeOf(s), more)))
    decreases |more|
  {
    if more == [] {
      assert steps + more == steps;
    } else {
      var k := |more| - 1;
      NodeRuns(stream, steps, s, more[..k]);
      OneMore(stream, steps + more[..k], Moved(s, NodeAfter(NodeOf(s), more[..k])), more[k]);
      Longer(steps, more);
    }
  }

  /** What a turn leaves of a poll: the record, and where it goes on, if it does. */
  function Turn(r: Record, answer: PageResult, commit: bool): (Record, Poll) {
    if !commit || answer.InvalidCursor? then (r, Idle)
    else if answer.CursorGap? then (CommitGap(r), Ready(answer.resume))
    else (CommitPage(r, answer), if answer.hasMore then Ready(answer.next) else Idle)
  }

  function Asked(s: System, m: Meanwhile): Node { NodeAfter(NodeOf(s), m.before) }

  function AnswerTo(s: System, m: Meanwhile): PageResult
    requires s.poll.Ready?
  {
    PageOf(Asked(s, m).events, s.stream, s.poll.cursor, MAX_PAGE_LIMIT)
  }

  /** The system after one turn: the node moves, the poll fetches, the node moves on, and the
      transaction commits or aborts. */
  function AfterTurn(s: System, m: Meanwhile, commit: bool): System
    requires s.poll.Ready?
  {
    var (r, poll) := Turn(s.record, AnswerTo(s, m), commit);
    Moved(s, NodeAfter(Asked(s, m), m.during)).(record := r, poll := poll)
  }

  lemma {:induction false} TurnSteps(s: System, m: Meanwhile, commit: bool, fetched: System)
    requires s.poll.Ready? && fetched == Next(Moved(s, Asked(s, m)), Fetch)
    ensures var t, last := Moved(fetched, NodeAfter(Asked(s, m), m.during)), if commit then Commits else Aborts;
            NodeOf(fetched) == Asked(s, m) && Enabled(t, last) && Next(t, last) == AfterTurn(s, m, commit)
  {
    var t := Moved(fetched, NodeAfter(Asked(s, m), m.during));
    var answer := AnswerTo(s, m);
    assert t.poll == Fetched(s.poll.cursor, answer);
  }

  lemma {:induction false} Fetching(stream: string, steps: seq<Step>, s: System, m: Meanwhile)
    requires Reaches(stream, steps, s) && s.poll.Ready? && NodeTakes(NodeOf(s), m.before)
    ensures Reaches(stream, steps + m.before + [Fetch], Next(Moved(s, Asked(s, m)), Fetch))
  {
    NodeRuns(stream, steps, s, m.before);
    OneMore(stream, steps + m.before, Moved(s, Asked(s, m)), Fetch);
  }

  lemma {:induction false} Closing(stream: string, steps: seq<Step>, fetched: System, during: seq<Step>, last: Step)
    requires Reaches(stream, steps, fetched) && NodeTakes(NodeOf(fetched), during)
    requires Enabled(Moved(fetched, NodeAfter(NodeOf(fetched), during)), last)
    ensures Reaches(stream, steps + during + [last], Next(Moved(fetched, NodeAfter(NodeOf(fetched), during)), last))
  {
    NodeRuns(stream, steps, fetched, during);
    OneMore(stream, steps + during, Moved(fetched, NodeAfter(NodeOf(fetched), during)), last);
  }

  lemma {:induction false} OneTurn(stream: string, steps: seq<Step>, s: System, m: Meanwhile, commit: bool) returns (longer: seq<Step>)
    requires Reaches(stream, steps, s) && s.poll.Ready?
    requires NodeTakes(NodeOf(s), m.before) && NodeTakes(Asked(s, m), m.during)
    ensures Reaches(stream, longer, AfterTurn(s, m, commit)) && steps <= longer
  {
    var last := if commit then Commits else Aborts;
    var fetched := Next(Moved(s, Asked(s, m)), Fetch);
    Fetching(stream, steps, s, m);
    TurnSteps(s, m, commit, fetched);
    Closing(stream, steps + m.before + [Fetch], fetched, m.during, last);
    longer := steps + m.before + [Fetch] + m.during + [last];
  }

  /** A poll goes on after a turn exactly as the loop does. */
  lemma {:induction false} LoopTurn(s: System, m: Meanwhile, ask: (nat, Cursor) -> PageResult, commits: nat -> bool, pages: nat)
    requires s.poll.Ready? && pages < MAX_PAGES && ask(pages, s.poll.cursor) == AnswerTo(s, m)
    ensures var t := AfterTurn(s, m, commits(pages));
            Collected(s.record, s.poll.cursor, ask, commits, pages) ==
            if t.poll.Ready? then Collected(t.record, t.poll.cursor, ask, commits, pages + 1) else t.record
  {
  }

  lemma {:induction false} TurnsAreRun(stream: string, steps: seq<Step>, s: System, script: nat -> Meanwhile,
                                       ask: (nat, Cursor) -> PageResult, commits: nat -> bool, pages: nat)
      returns (longer: seq<Step>, end: System)
    requires Reaches(stream, steps, s) && s.poll.Ready? && s.stream == stream
    requires AnswersOf(stream, NodeOf(s), script, ask, pages)
    ensures Reaches(stream, longer, end) && steps <= longer
    ensures end.record == Collected(s.record, s.poll.cursor, ask, commits, pages)
    decreases MAX_PAGES - pages
  {
    longer, end := steps, s;
    if pages < MAX_PAGES {
      var m := script(pages);
      longer := OneTurn(stream, steps, s, m, commits(pages));
      end := AfterTurn(s, m, commits(pages));
      LoopTurn(s, m, ask, commits, pages);
      if end.poll.Ready? {
        longer, end := TurnsAreRun(stream, longer, end, script, ask, commits, pages + 1);
      }
    }
  }

  lemma {:induction false} RunStream(stream: string, steps: seq<Step>)
    requires ValidRun(stream, steps)
    ensures Run(stream, steps).stream == stream
    decreases |steps|
  {
    if steps != [] {
      RunStream(stream, steps[..|steps| - 1]);
    }
  }

  /** A poll of a node that goes on appending and pruning is a run of the system, continuing any run
      before it. */
  lemma {:induction false} LivePollIsRun(stream: string, steps: seq<Step>, s: System, script: nat -> Meanwhile,
                                         ask: (nat, Cursor) -> PageResult, commits: nat -> bool) returns (longer: seq<Step>, end: System)
    requires Reaches(stream, steps, s) && AnswersOf(stream, NodeOf(s), script, ask, 0)
    ensures Reaches(stream, longer, end) && steps <= longer
    ensures end.record == Collected(s.record, s.record.cursor, ask, commits, 0)
  {
    RunStream(stream, steps);
    OneMore(stream, steps, s, Begin);
    longer, end := TurnsAreRun(stream, steps + [Begin], Next(s, Begin), script, ask, commits, 0);
  }
}
