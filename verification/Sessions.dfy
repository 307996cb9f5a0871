/** Which samples reach the rows of a session's GPU. A sample is recorded only under the session
    that holds its group, and a session comes by its group in the transaction that inserts the
    summary rows of its members. So a member's summary always equals the sum of its rollups. */
module Sessions {
  import opened Options
  import opened Text
  import opened Rollups

  /** A session row with its member GPUs; `provisioning` until the node has confirmed it. */
  datatype Session = Session(
    group: string, startsAt: int, expiresAt: int, revokedAt: Option<int>, provisioning: bool, gpus: set<int>)

  datatype Place = Place(session: string, gpu: int)

  /** The session rows by id, their unique index by group, and the rows of each session GPU. */
  datatype Tables = Tables(sessions: map<string, Session>, index: map<string, string>, slots: Place -> Slot)

  /** What changes the tables of one node: sessions made through the web, then confirmed or dropped;
      reservations, revocations, claimed runs and samples reported by the node. One GPU of a sample
      is one event. */
  datatype Event =
    | Prepared(id: string, startsAt: int, expiresAt: int, gpus: set<int>)
    | Confirmed(id: string, group: string, gpus: set<int>)
    | Dropped(id: string)
    | Upserted(id: string, web: bool, group: string, startsAt: int, expiresAt: int, gpus: set<int>)
    | Ended(group: string, at: int)
    | ClaimedRun(id: string, group: string, startedAt: int, endAt: int, gpus: set<int>)
    | Sampled(group: string, gpu: int, sample: Sample, start: int, end: int)

  function Pending(id: string): string { "pending:" + id }

  /** Another session holds the group. */
  predicate Taken(t: Tables, group: string, id: string) {
    group in t.index && t.index[group] != id
  }

  /** The session row an event writes, if its transaction succeeds. */
  function Writes(t: Tables, e: Event): Option<(string, Session)> {
    match e
    case Prepared(id, startsAt, expiresAt, gpus) =>
      if id in t.sessions || Taken(t, Pending(id), id) || expiresAt <= startsAt then None
      else Some((id, Session(Pending(id), startsAt, expiresAt, None, true, gpus)))
    case Confirmed(id, group, gpus) =>
      if id !in t.sessions || !t.sessions[id].provisioning || Taken(t, group, id) || !(gpus <= t.sessions[id].gpus) then None
      else Some((id, t.sessions[id].(group := group, provisioning := false)))
    case Upserted(id, web, group, startsAt, expiresAt, gpus) =>
      if group == "" || expiresAt <= startsAt then None
      else if web && id in t.sessions then
        if Taken(t, group, id) then None else Some((id, Renewed(t.sessions[id], group, startsAt, expiresAt, gpus)))
      else if group in t.index && t.index[group] in t.sessions then
        Some((t.index[group], Renewed(t.sessions[t.index[group]], group, startsAt, expiresAt, gpus)))
      else if id in t.sessions then None
      else Some((id, Session(group, startsAt, expiresAt, None, false, gpus)))
    case ClaimedRun(id, group, startedAt, endAt, gpus) =>
      if Taken(t, group, id) || endAt <= startedAt then None
      else if id in t.sessions then
        if t.sessions[id].group != group then None else Some((id, Longer(t.sessions[id], startedAt, endAt, gpus)))
      else Some((id, Session(group, startedAt, endAt, None, false, gpus)))
    case Ended(group, at) =>
      if group in t.index && t.index[group] in t.sessions
      then Some((t.index[group], t.sessions[t.index[group]].(revokedAt := Some(at)))) else None
    case _ => None
  }

  function Renewed(s: Session, group: string, startsAt: int, expiresAt: int, gpus: set<int>): Session {
    s.(group := group, startsAt := startsAt, expiresAt := expiresAt, provisioning := false, gpus := s.gpus + gpus)
  }

  function Longer(s: Session, startedAt: int, endAt: int, gpus: set<int>): Session {
    s.(startsAt := if startedAt < s.startsAt then startedAt else s.startsAt,
       expiresAt := if endAt > s.expiresAt then endAt else s.expiresAt, gpus := s.gpus + gpus)
  }

  /** The GPUs whose summary rows the event inserts. */
  function Listed(e: Event): set<int> {
    if e.Confirmed? || e.Upserted? || e.ClaimedRun? then e.gpus else {}
  }

  /** The window of a sample that is recorded, if its group has a session and it meets it. */
  function Hit(t: Tables, e: Event): Option<(Place, Window)> {
    if !e.Sampled? || e.end <= e.start || e.group == "" || e.group !in t.index || t.index[e.group] !in t.sessions then None
    else
      var id := t.index[e.group];
      var s := t.sessions[id];
      var w := Clip(Window(e.start, e.end), s.startsAt, s.expiresAt, s.revokedAt);
      if w.end <= w.start then None else Some((Place(id, e.gpu), w))
  }

  predicate Drops(t: Tables, e: Event, id: string) {
    e.Dropped? && e.id == id && id in t.sessions && t.sessions[id].provisioning
  }

  /** What the event does to one session GPU's rows. */
  function Effect(t: Tables, e: Event, p: Place): seq<Op> {
    var hit, writes := Hit(t, e), Writes(t, e);
    if hit.Some? && hit.value.0 == p then [Observe(e.sample, hit.value.1.start, hit.value.1.end)]
    else if writes.Some? && writes.value.0 == p.session && p.gpu in Listed(e) then [CreateSummary]
    else []
  }

  function SlotAfter(t: Tables, e: Event, p: Place): Slot {
    var effect := Effect(t, e, p);
    if Drops(t, e, p.session) then Run([]) else if effect == [] then t.slots(p) else Step(t.slots(p), effect[0])
  }

  function Put(t: Tables, id: string, s: Session): Tables {
    var freed := if id in t.sessions then t.index - {t.sessions[id].group} else t.index;
    t.(sessions := t.sessions[id := s], index := freed[s.group := id])
  }

  function Next(t: Tables, e: Event): Tables {
    var slots := (p: Place) => SlotAfter(t, e, p);
    var writes := Writes(t, e);
    if writes.Some? then Put(t, writes.value.0, writes.value.1).(slots := slots)
    else if e.Dropped? && Drops(t, e, e.id) then
      Tables(t.sessions - {e.id}, t.index - {t.sessions[e.id].group}, slots)
    else t.(slots := slots)
  }

  function NoRows(): Tables { Tables(map[], map[], (p: Place) => Run([])) }

  function After(events: seq<Event>): Tables {
    if events == [] then NoRows() else Next(After(events[..|events| - 1]), events[|events| - 1])
  }

  // ---------- One session GPU's share of a run ----------

  /** The operations a run performs on one session GPU's rows since the session was last dropped. */
  function OpsOf(events: seq<Event>, p: Place): seq<Op> {
    if events == [] then []
    else
      var n := |events| - 1;
      var t := After(events[..n]);
      if Drops(t, events[n], p.session) then [] else OpsOf(events[..n], p) + Effect(t, events[n], p)
  }

  lemma {:induction false} RunStep(ops: seq<Op>, more: seq<Op>)
    requires |more| <= 1
    ensures Run(ops + more) == if more == [] then Run(ops) else Step(Run(ops), more[0])
  {
    if more == [] {
      assert ops + more == ops;
    } else {
      assert (ops + more)[..|ops|] == ops;
    }
  }

  /** The rows of every session GPU are what its own operations made of them, so whatever holds of
      every run of operations holds of the rows after every run of events. */
  lemma {:induction false} RowsFollow(events: seq<Event>, p: Place)
    ensures After(events).slots(p) == Run(OpsOf(events, p))
  {
    if events != [] {
      var n := |events| - 1;
      RowsFollow(events[..n], p);
      RowFollows(After(events[..n]), events[n], p, OpsOf(events[..n], p));
    }
  }

  lemma {:induction false} RowFollows(t: Tables, e: Event, p: Place, ops: seq<Op>)
    requires t.slots(p) == Run(ops)
    ensures Next(t, e).slots(p) == Run(if Drops(t, e, p.session) then [] else ops + Effect(t, e, p))
  {
    RunStep(ops, Effect(t, e, p));
  }

  /** The summary equals the sum of the minute rollups. */
  ghost predicate Balanced(d: Slot) {
    d.summary.Some? && d.summary.value == Total(d.minutes)
  }

  /** Exactly when no window was recorded before the summary row was inserted. */
  lemma {:induction false} BalancedExactly(events: seq<Event>, p: Place)
    requires After(events).slots(p).summary.Some?
    ensures Balanced(After(events).slots(p)) <==> !EarlyWindow(OpsOf(events, p))
  {
    RowsFollow(events, p);
    SummaryExists(OpsOf(events, p));
    SummaryMatches(OpsOf(events, p));
  }

  // ---------- Members ----------

  /** The index lists the sessions by their groups, and an unconfirmed one under its own name. */
  ghost predicate Indexed(t: Tables) {
    && (forall id :: id in t.sessions ==> t.sessions[id].group in t.index && t.index[t.sessions[id].group] == id)
    && (forall g :: g in t.index ==> t.index[g] in t.sessions && t.sessions[t.index[g]].group == g)
    && (forall id :: id in t.sessions && t.sessions[id].provisioning ==> t.sessions[id].group == Pending(id))
  }

  lemma {:induction false} PutIndexed(t: Tables, id: string, s: Session)
    requires Indexed(t) && !Taken(t, s.group, id) && (s.provisioning ==> s.group == Pending(id))
    ensures Indexed(Put(t, id, s))
  {
  }

  lemma {:induction false} WritesWell(t: Tables, e: Event)
    requires Indexed(t) && Writes(t, e).Some?
    ensures var (id, s) := Writes(t, e).value; !Taken(t, s.group, id) && (s.provisioning ==> s.group == Pending(id))
  {
  }

  lemma {:induction false} StepIndexed(t: Tables, e: Event)
    requires Indexed(t)
    ensures Indexed(Next(t, e))
  {
    if Writes(t, e).Some? {
      WritesWell(t, e);
      PutIndexed(t, Writes(t, e).value.0, Writes(t, e).value.1);
    }
  }

  lemma {:induction false} RunIndexed(events: seq<Event>)
    ensures Indexed(After(events))
  {
    if events != [] {
      RunIndexed(events[..|events| - 1]);
      StepIndexed(After(events[..|events| - 1]), events[|events| - 1]);
    }
  }

  /** The session has its group from the node. */
  predicate Open(t: Tables, id: string) {
    id in t.sessions && !t.sessions[id].provisioning
  }

  lemma {:induction false} OpenStays(t: Tables, e: Event, id: string)
    requires Open(t, id)
    ensures Open(Next(t, e), id) && !Drops(t, e, id)
  {
  }

  /** The event that opens a session inserts summary rows for the GPUs it names. */
  lemma {:induction false} OpeningLists(t: Tables, e: Event, id: string)
    requires !Open(t, id) && Open(Next(t, e), id)
    ensures Writes(t, e).Some? && Writes(t, e).value.0 == id && !Drops(t, e, id) && Hit(t, e).None?
  {
  }

  /** No sample names the group of an unconfirmed session: those names are the gateway's own. */
  predicate PlainSample(e: Event) {
    e.Sampled? ==> !HasPrefix(e.group, "pending:")
  }

  predicate PlainSamples(events: seq<Event>) {
    forall i :: 0 <= i < |events| ==> PlainSample(events[i])
  }

  predicate NoWindow(ops: seq<Op>) {
    forall i :: 0 <= i < |ops| ==> !ops[i].Observe?
  }

  lemma {:induction false} PendingIsMissed(t: Tables, e: Event, p: Place)
    requires Indexed(t) && !Open(t, p.session) && PlainSample(e)
    ensures NoWindow(Effect(t, e, p))
  {
    assert HasPrefix(Pending(p.session), "pending:");
  }

  /** Until a session is open nothing is recorded under it. */
  lemma {:induction false} NothingBefore(events: seq<Event>, p: Place)
    requires PlainSamples(events) && !Open(After(events), p.session)
    ensures NoWindow(OpsOf(events, p))
  {
    if events != [] {
      var n := |events| - 1;
      var t := After(events[..n]);
      if Open(t, p.session) {
        OpenStays(t, events[n], p.session);
        assert false;
      }
      NothingBefore(events[..n], p);
      RunIndexed(events[..n]);
      PendingIsMissed(t, events[n], p);
    }
  }

  /** The summary row was there before any window. */
  ghost predicate InTime(ops: seq<Op>) {
    CreateSummary in ops && !EarlyWindow(ops)
  }

  lemma {:induction false} ListedInTime(ops: seq<Op>)
    requires NoWindow(ops)
    ensures InTime(ops + [CreateSummary])
  {
    EarlyGrows(ops, CreateSummary);
  }

  lemma {:induction false} StaysInTime(ops: seq<Op>, more: seq<Op>)
    requires InTime(ops) && |more| <= 1
    ensures InTime(ops + more)
  {
    if more == [] {
      assert ops + more == ops;
    } else {
      EarlyGrows(ops, more[0]);
      assert more == [more[0]];
    }
  }

  /** The session opens with the event at `i`, and that event names the GPU. */
  predicate FoundingMember(events: seq<Event>, i: nat, p: Place)
    requires i < |events|
  {
    !Open(After(events[..i]), p.session) && Open(After(events[..i + 1]), p.session) && p.gpu in Listed(events[i])
  }

  lemma {:induction false} Founding(t: Tables, e: Event, p: Place, ops: seq<Op>)
    requires !Open(t, p.session) && Open(Next(t, e), p.session) && p.gpu in Listed(e) && NoWindow(ops)
    ensures !Drops(t, e, p.session) && InTime(ops + Effect(t, e, p))
  {
    OpeningLists(t, e, p.session);
    ListedInTime(ops);
  }

  lemma {:induction false} OneMoreEvent(events: seq<Event>, p: Place)
    requires events != [] && Open(After(events[..|events| - 1]), p.session) && InTime(OpsOf(events[..|events| - 1], p))
    ensures InTime(OpsOf(events, p)) && Open(After(events), p.session)
  {
    var n := |events| - 1;
    var t := After(events[..n]);
    OpenStays(t, events[n], p.session);
    StaysInTime(OpsOf(events[..n], p), Effect(t, events[n], p));
  }

  lemma {:induction false} FoundedNow(events: seq<Event>, p: Place)
    requires events != [] && PlainSamples(events) && FoundingMember(events, |events| - 1, p)
    ensures InTime(OpsOf(events, p)) && Open(After(events), p.session)
  {
    var n := |events| - 1;
    assert events[..n + 1] == events;
    NothingBefore(events[..n], p);
    Founding(After(events[..n]), events[n], p, OpsOf(events[..n], p));
  }

  lemma {:induction false} FoundedBefore(events: seq<Event>, i: nat, p: Place)
    requires i < |events| - 1 && FoundingMember(events, i, p)
    ensures FoundingMember(events[..|events| - 1], i, p)
  {
    var n := |events| - 1;
    assert events[..n][..i] == events[..i] && events[..n][..i + 1] == events[..i + 1];
  }

  lemma {:induction false} FoundersInTime(events: seq<Event>, i: nat, p: Place)
    requires i < |events| && PlainSamples(events) && FoundingMember(events, i, p)
    ensures InTime(OpsOf(events, p)) && Open(After(events), p.session)
  {
    if i < |events| - 1 {
      FoundedBefore(events, i, p);
      FoundersInTime(events[..|events| - 1], i, p);
      OneMoreEvent(events, p);
    } else {
      FoundedNow(events, p);
    }
  }

  /** Whatever is reported in whatever order: for every GPU that its session was opened with, the
      summary equals the sum of the minute rollups ever after. */
  lemma {:induction false} MembersBalance(events: seq<Event>, i: nat, p: Place)
    requires i < |events| && PlainSamples(events) && FoundingMember(events, i, p)
    ensures Balanced(After(events).slots(p))
  {
    FoundersInTime(events, i, p);
    RowsFollow(events, p);
    SummaryExists(OpsOf(events, p));
    SummaryMatches(OpsOf(events, p));
  }

  // ---------- A GPU that joins later ----------

  /** A session opened with GPU 0, a sample of GPU 1 under its group, and the same group again with
      both GPUs. */
  function LateJoiner(s: Sample): seq<Event> {
    [Upserted("s", false, "g", 0, MINUTE, {0}), Sampled("g", 1, s, 0, MINUTE), Upserted("s", false, "g", 0, MINUTE, {0, 1})]
  }

  lemma {:induction false} LateOps(s: Sample)
    ensures OpsOf(LateJoiner(s), Place("s", 1)) == [Observe(s, 0, MINUTE), CreateSummary]
  {
    var e, p := LateJoiner(s), Place("s", 1);
    assert e[..0] == [] && e[..1] == [e[0]] && e[..2] == [e[0], e[1]] && e[..3] == e;
    assert e[..1][..0] == [] && e[..2][..1] == e[..1] && e[..3][..2] == e[..2];
    var t := After(e[..1]);
    var first := Session("g", 0, MINUTE, None, false, {0});
    assert Writes(NoRows(), e[0]) == Some(("s", first));
    assert After(e[..0]) == NoRows() && t == Next(NoRows(), e[0]);
    assert t.sessions == NoRows().sessions["s" := first] && t.index == NoRows().index["g" := "s"];
    assert t.sessions == map["s" := Session("g", 0, MINUTE, None, false, {0})] && t.index == map["g" := "s"];
    assert OpsOf(e[..1], p) == [];
    assert Effect(t, e[1], p) == [Observe(s, 0, MINUTE)];
    assert OpsOf(e[..2], p) == [Observe(s, 0, MINUTE)];
    assert Effect(After(e[..2]), e[2], p) == [CreateSummary];
  }

  /** Its rollups and its summary disagree: what was sampled before it joined is in no summary. */
  lemma {:induction false} LateJoinerUnbalanced(s: Sample)
    ensures After(LateJoiner(s)).slots(Place("s", 1)).summary.Some?
    ensures !Balanced(After(LateJoiner(s)).slots(Place("s", 1)))
  {
    var e, p := LateJoiner(s), Place("s", 1);
    LateOps(s);
    RowsFollow(e, p);
    SummaryExists(OpsOf(e, p));
    assert OpsOf(e, p)[1] == CreateSummary;
    assert Parts(0, MINUTE) != [];
    assert OpsOf(e, p)[0].Observe? && CreateSummary !in OpsOf(e, p)[..0];
    BalancedExactly(e, p);
  }
}
