/** The single-flight, time-limited cache in front of the container runtime. Callers interleave
    freely; each step below is one section the code runs under its lock, or the return of the
    underlying (base) call, which happens outside it. */
module Resolver {
  import opened Options

  const MAX_ENTRIES := 1024

  datatype Outcome = Found(value: string) | Failed(error: string)

  /** A cached outcome and the base call it came from. */
  datatype Entry = Entry(outcome: Outcome, expiresAt: int, call: nat)

  /** One base call: when it returned and with what, and when its result was published. */
  datatype Call = Call(key: string, returned: Option<(int, Outcome)>, published: Option<int>)

  /** A caller waiting for a base call, its own or another's: when it read the clock before its
      lookup, and when the lookup took the lock. */
  datatype Waiter = Waiter(key: string, readAt: int, lockedAt: int, call: nat)

  datatype Answer = Answer(key: string, readAt: int, lockedAt: int, call: nat, outcome: Outcome, hit: bool)

  datatype State = State(
    clock: int, cache: map<string, Entry>, calls: map<string, nat>,
    log: seq<Call>, waiters: seq<Waiter>, answers: seq<Answer>)

  datatype Step =
    | Lookup(key: string, readAt: int, at: int)
    | Return(call: nat, outcome: Outcome, at: int)
    | Publish(call: nat, at: int, liveAtEviction: bool, liveAtStore: bool, kept: set<string>)
    | Deliver(waiter: nat, at: int)

  /** The entries still valid at time `at`. */
  function Unexpired(cache: map<string, Entry>, at: int): map<string, Entry> {
    map k | k in cache && at < cache[k].expiresAt :: cache[k]
  }

  function Restrict(cache: map<string, Entry>, kept: set<string>): map<string, Entry> {
    map k | k in cache && k in kept :: cache[k]
  }

  /** Making room: expired entries go first, then arbitrary ones until there is space. */
  function Evict(cache: map<string, Entry>, completedAt: int, kept: set<string>): map<string, Entry> {
    if |cache| < MAX_ENTRIES then cache else Restrict(Unexpired(cache, completedAt), kept)
  }

  /** What each step needs: the clock never goes back, cancellation is permanent, and eviction
      keeps an arbitrary choice of entries that leaves room. */
  predicate Enabled(s: State, step: Step) {
    && s.clock <= step.at
    && match step
       case Lookup(key, readAt, at) => readAt <= at
       case Return(c, _, _) => c < |s.log| && s.log[c].returned.None?
       case Publish(c, at, live, store, kept) =>
         && c < |s.log| && s.log[c].returned.Some? && s.log[c].published.None?
         && (store ==> live)
         && (live ==> |Evict(s.cache, s.log[c].returned.value.0, kept)| < MAX_ENTRIES)
       case Deliver(w, _) =>
         w < |s.waiters| && s.waiters[w].call < |s.log| && s.log[s.waiters[w].call].published.Some?
         && s.log[s.waiters[w].call].returned.Some?
  }

  function Next(s: State, ttl: int, step: Step): State
    requires Enabled(s, step)
  {
    match step
    case Lookup(key, readAt, at) =>
      if key in s.cache && readAt < s.cache[key].expiresAt then
        s.(clock := at,
           answers := s.answers + [Answer(key, readAt, at, s.cache[key].call, s.cache[key].outcome, true)])
      else
        var cache := s.cache - {key};
        if key in s.calls then
          s.(clock := at, cache := cache, waiters := s.waiters + [Waiter(key, readAt, at, s.calls[key])])
        else
          var c := |s.log|;
          State(at, cache, s.calls[key := c], s.log + [Call(key, None, None)],
                s.waiters + [Waiter(key, readAt, at, c)], s.answers)
    case Return(c, outcome, at) =>
      s.(clock := at, log := s.log[c := s.log[c].(returned := Some((at, outcome)))])
    case Publish(c, at, live, store, kept) =>
      var call := s.log[c];
      var roomy := if live then Evict(s.cache, call.returned.value.0, kept) else s.cache;
      var cache := if store then roomy[call.key := Entry(call.returned.value.1, call.returned.value.0 + ttl, c)] else roomy;
      s.(clock := at, cache := cache, calls := s.calls - {call.key}, log := s.log[c := call.(published := Some(at))])
    case Deliver(w, at) =>
      var x := s.waiters[w];
      s.(clock := at, answers := s.answers + [Answer(x.key, x.readAt, x.lockedAt, x.call, s.log[x.call].returned.value.1, false)])
  }

  const EMPTY := State(0, map[], map[], [], [], [])

  ghost predicate ValidRun(ttl: int, steps: seq<Step>)
    decreases |steps|, 0
  {
    steps == [] || (
      ValidRun(ttl, steps[..|steps| - 1]) &&
      Enabled(Run(ttl, steps[..|steps| - 1]), steps[|steps| - 1]))
  }

  ghost function Run(ttl: int, steps: seq<Step>): State
    requires ValidRun(ttl, steps)
    decreases |steps|, 1
  {
    if steps == [] then EMPTY
    else Next(Run(ttl, steps[..|steps| - 1]), ttl, steps[|steps| - 1])
  }

  /** At most one base call per key is unpublished, so at most one is in flight. */
  ghost predicate SingleFlight(s: State) {
    forall i, j :: 0 <= i < j < |s.log| && s.log[i].published.None? && s.log[j].published.None? ==>
      s.log[i].key != s.log[j].key
  }

  /** A base call the log knows, with this key and outcome. */
  ghost predicate Produced(s: State, call: nat, key: string, outcome: Outcome) {
    call < |s.log| && s.log[call].key == key && s.log[call].returned.Some? && s.log[call].returned.value.1 == outcome
  }

  /** An answer is the outcome of a base call for its key that either finished less than one
      lifetime before the caller read the clock, or was published after the caller's lookup. */
  ghost predicate Justified(s: State, ttl: int, a: Answer) {
    && Produced(s, a.call, a.key, a.outcome)
    && if a.hit then a.readAt < s.log[a.call].returned.value.0 + ttl
       else s.log[a.call].published.Some? && a.lockedAt <= s.log[a.call].published.value
  }

  /** The calls in flight are exactly the unpublished ones. */
  ghost predicate CallsOk(s: State) {
    && (forall k :: k in s.calls ==> s.calls[k] < |s.log| && s.log[s.calls[k]].key == k && s.log[s.calls[k]].published.None?)
    && (forall c :: 0 <= c < |s.log| && s.log[c].published.None? ==> s.log[c].key in s.calls && s.calls[s.log[c].key] == c)
    && (forall c :: 0 <= c < |s.log| && s.log[c].published.Some? ==> s.log[c].returned.Some?)
  }

  ghost predicate EntryOk(s: State, ttl: int, key: string, e: Entry) {
    && Produced(s, e.call, key, e.outcome)
    && e.expiresAt == s.log[e.call].returned.value.0 + ttl
  }

  ghost predicate CacheOk(s: State, ttl: int) {
    |s.cache| <= MAX_ENTRIES && forall k :: k in s.cache ==> EntryOk(s, ttl, k, s.cache[k])
  }

  ghost predicate CallersOk(s: State, ttl: int) {
    && (forall w :: 0 <= w < |s.waiters| ==> WaiterOk(s, s.waiters[w]))
    && (forall a :: 0 <= a < |s.answers| ==> Justified(s, ttl, s.answers[a]))
  }

  ghost predicate Inv(s: State, ttl: int) {
    CallsOk(s) && CacheOk(s, ttl) && CallersOk(s, ttl)
  }

  ghost predicate WaiterOk(s: State, w: Waiter) {
    && w.call < |s.log| && s.log[w.call].key == w.key && w.readAt <= w.lockedAt <= s.clock
    && (s.log[w.call].published.Some? ==> w.lockedAt <= s.log[w.call].published.value)
  }

  /** Calls only gain information: nothing recorded about one is ever rewritten. */
  ghost predicate Extends(s: State, s': State) {
    && |s.log| <= |s'.log| && s.clock <= s'.clock
    && forall c :: 0 <= c < |s.log| ==>
         && s'.log[c].key == s.log[c].key
         && (s.log[c].returned.Some? ==> s'.log[c].returned == s.log[c].returned)
         && (s.log[c].published.Some? ==> s'.log[c].published == s.log[c].published)
         && (s.log[c].published.None? && s'.log[c].published.Some? ==> s.clock <= s'.log[c].published.value)
  }

  lemma {:induction false} StepExtends(s: State, ttl: int, step: Step)
    requires Enabled(s, step)
    ensures Extends(s, Next(s, ttl, step))
  {
  }

  lemma {:induction false} JustifiedStays(s: State, s': State, ttl: int, a: Answer)
    requires Extends(s, s') && Justified(s, ttl, a)
    ensures Justified(s', ttl, a)
  {
  }

  lemma {:induction false} WaiterStays(s: State, s': State, w: Waiter)
    requires Extends(s, s') && WaiterOk(s, w)
    ensures WaiterOk(s', w)
  {
  }

  lemma {:induction false} EntryStays(s: State, s': State, ttl: int, k: string, e: Entry)
    requires Extends(s, s') && EntryOk(s, ttl, k, e)
    ensures EntryOk(s', ttl, k, e)
  {
  }

  lemma {:induction false} FewerKeys<V>(big: map<string, V>, small: map<string, V>)
    requires small.Keys <= big.Keys
    ensures |small| <= |big|
  {
    assert big.Keys == small.Keys + (big.Keys - small.Keys);
  }

  lemma {:induction false} CallsKept(s: State, ttl: int, step: Step)
    requires CallsOk(s) && Enabled(s, step)
    ensures CallsOk(Next(s, ttl, step))
  {
  }

  /** Eviction only removes entries, and leaves room for one more. */
  lemma {:induction false} RoomMade(cache: map<string, Entry>, at: int, kept: set<string>)
    ensures var roomy := Evict(cache, at, kept); roomy.Keys <= cache.Keys && forall k :: k in roomy ==> roomy[k] == cache[k]
  {
  }

  lemma {:induction false} StoreFits(cache: map<string, Entry>, key: string, e: Entry)
    requires |cache| < MAX_ENTRIES
    ensures |cache[key := e]| <= MAX_ENTRIES
  {
    assert cache[key := e].Keys == cache.Keys + {key};
  }

  lemma {:induction false} PublishCache(s: State, ttl: int, step: Step)
    requires CallsOk(s) && CacheOk(s, ttl) && step.Publish? && Enabled(s, step)
    ensures CacheOk(Next(s, ttl, step), ttl)
  {
    var s' := Next(s, ttl, step);
    StepExtends(s, ttl, step);
    var call := s.log[step.call];
    RoomMade(s.cache, call.returned.value.0, step.kept);
    var roomy := if step.liveAtEviction then Evict(s.cache, call.returned.value.0, step.kept) else s.cache;
    FewerKeys(s.cache, roomy);
    var e := Entry(call.returned.value.1, call.returned.value.0 + ttl, step.call);
    if step.liveAtStore {
      StoreFits(roomy, call.key, e);
    }
    forall k | k in s'.cache ensures EntryOk(s', ttl, k, s'.cache[k]) {
      if step.liveAtStore && k == call.key {
        assert EntryOk(s', ttl, call.key, e);
      } else {
        EntryStays(s, s', ttl, k, s.cache[k]);
      }
    }
  }

  lemma {:induction false} KeptCache(s: State, ttl: int, step: Step)
    requires CallsOk(s) && CacheOk(s, ttl) && !step.Publish? && Enabled(s, step)
    ensures CacheOk(Next(s, ttl, step), ttl)
  {
    var s' := Next(s, ttl, step);
    StepExtends(s, ttl, step);
    assert s'.cache.Keys <= s.cache.Keys;
    FewerKeys(s.cache, s'.cache);
    forall k | k in s'.cache ensures EntryOk(s', ttl, k, s'.cache[k]) {
      EntryStays(s, s', ttl, k, s.cache[k]);
    }
  }

  lemma {:induction false} CacheKept(s: State, ttl: int, step: Step)
    requires CallsOk(s) && CacheOk(s, ttl) && Enabled(s, step)
    ensures CacheOk(Next(s, ttl, step), ttl)
  {
    if step.Publish? {
      PublishCache(s, ttl, step);
    } else {
      KeptCache(s, ttl, step);
    }
  }

  lemma {:induction false} WaitersKept(s: State, ttl: int, step: Step, w: nat)
    requires Inv(s, ttl) && Enabled(s, step) && w < |Next(s, ttl, step).waiters|
    ensures WaiterOk(Next(s, ttl, step), Next(s, ttl, step).waiters[w])
  {
    if w < |s.waiters| {
      StepExtends(s, ttl, step);
      WaiterStays(s, Next(s, ttl, step), s.waiters[w]);
    }
  }

  lemma {:induction false} AnswersKept(s: State, ttl: int, step: Step, a: nat)
    requires Inv(s, ttl) && Enabled(s, step) && a < |Next(s, ttl, step).answers|
    ensures Justified(Next(s, ttl, step), ttl, Next(s, ttl, step).answers[a])
  {
    if a < |s.answers| {
      StepExtends(s, ttl, step);
      JustifiedStays(s, Next(s, ttl, step), ttl, s.answers[a]);
    } else if step.Deliver? {
      assert WaiterOk(s, s.waiters[step.waiter]);
    } else {
      assert EntryOk(s, ttl, step.key, s.cache[step.key]);
    }
  }

  lemma {:induction false} CallersKept(s: State, ttl: int, step: Step)
    requires Inv(s, ttl) && Enabled(s, step)
    ensures CallersOk(Next(s, ttl, step), ttl)
  {
    var s' := Next(s, ttl, step);
    forall w | 0 <= w < |s'.waiters| ensures WaiterOk(s', s'.waiters[w]) {
      WaitersKept(s, ttl, step, w);
    }
    forall a | 0 <= a < |s'.answers| ensures Justified(s', ttl, s'.answers[a]) {
      AnswersKept(s, ttl, step, a);
    }
  }

  /** For every interleaving of callers: one base call in flight per key, at most 1024 entries,
      and every answer justified. */
  lemma {:induction false} RunSafe(ttl: int, steps: seq<Step>)
    requires ValidRun(ttl, steps)
    ensures var s := Run(ttl, steps);
            && SingleFlight(s) && |s.cache| <= MAX_ENTRIES
            && forall a :: 0 <= a < |s.answers| ==> Justified(s, ttl, s.answers[a])
    ensures Inv(Run(ttl, steps), ttl)
    decreases |steps|
  {
    if steps != [] {
      var n := |steps| - 1;
      RunSafe(ttl, steps[..n]);
      CallsKept(Run(ttl, steps[..n]), ttl, steps[n]);
      CacheKept(Run(ttl, steps[..n]), ttl, steps[n]);
      CallersKept(Run(ttl, steps[..n]), ttl, steps[n]);
    }
  }

  /** Every published call was published less than one lifetime after it returned. */
  ghost predicate Prompt(s: State, ttl: int) {
    forall c :: 0 <= c < |s.log| && s.log[c].published.Some? && s.log[c].returned.Some? ==>
      s.log[c].published.value < s.log[c].returned.value.0 + ttl
  }

  /** If results are published promptly, no answer at all is older than one lifetime. */
  lemma {:induction false} PromptAnswersAreFresh(ttl: int, steps: seq<Step>, a: nat)
    requires ValidRun(ttl, steps) && Prompt(Run(ttl, steps), ttl) && a < |Run(ttl, steps).answers|
    ensures var s := Run(ttl, steps); var x := s.answers[a];
            Produced(s, x.call, x.key, x.outcome) && x.readAt < s.log[x.call].returned.value.0 + ttl
  {
    RunSafe(ttl, steps);
    AnswerTimes(ttl, steps);
    var s := Run(ttl, steps);
    assert Justified(s, ttl, s.answers[a]);
  }

  lemma {:induction false} AnswerTimes(ttl: int, steps: seq<Step>)
    requires ValidRun(ttl, steps)
    ensures forall a :: 0 <= a < |Run(ttl, steps).answers| ==> Run(ttl, steps).answers[a].readAt <= Run(ttl, steps).answers[a].lockedAt
    decreases |steps|
  {
    if steps != [] {
      var n := |steps| - 1;
      AnswerTimes(ttl, steps[..n]);
      RunSafe(ttl, steps[..n]);
      var s := Run(ttl, steps[..n]);
      if steps[n].Deliver? {
        assert WaiterOk(s, s.waiters[steps[n].waiter]);
      }
    }
  }

  lemma {:induction false} Extend(ttl: int, steps: seq<Step>, step: Step) returns (longer: seq<Step>)
    requires ValidRun(ttl, steps) && Enabled(Run(ttl, steps), step)
    ensures longer == steps + [step] && ValidRun(ttl, longer) && Run(ttl, longer) == Next(Run(ttl, steps), ttl, step)
  {
    longer := steps + [step];
    assert longer[..|longer| - 1] == steps;
  }

  /** Some answer is the result of a base call that returned at `r` and was published at `p`, and
      that result was a whole lifetime old or older when the caller read the clock. */
  ghost predicate StaleFrom(s: State, ttl: int, r: int, p: int) {
    exists a :: 0 <= a < |s.answers| && s.answers[a].call < |s.log| && OldAnswer(s.answers[a], s.log[s.answers[a].call], ttl, r, p)
  }

  predicate OldAnswer(a: Answer, c: Call, ttl: int, r: int, p: int) {
    c.returned.Some? && c.returned.value.0 == r && c.published == Some(p) && r + ttl <= a.readAt
  }

  /** Whenever publication is late by a lifetime the bound fails: the base call returns at `r`, its
      caller is held up before it takes the lock, and one who looks up at `p` is handed that result. */
  lemma {:induction false} LateJoinerGetsOldResult(ttl: int, r: int, p: int) returns (steps: seq<Step>)
    requires 0 <= r <= p && r + ttl <= p
    ensures ValidRun(ttl, steps) && StaleFrom(Run(ttl, steps), ttl, r, p)
  {
    var out := Found("pod-a");
    var c0 := Extend(ttl, [], Lookup("c1", 0, 0));
    var c1 := Extend(ttl, c0, Return(0, out, r));
    var c2 := Extend(ttl, c1, Lookup("c1", p, p));
    var c3 := Extend(ttl, c2, Publish(0, p, true, true, {}));
    steps := Extend(ttl, c3, Deliver(1, p));
    assert Run(ttl, steps).answers == [Answer("c1", p, p, 0, out, false)];
    assert Run(ttl, steps).log == [Call("c1", Some((r, out)), Some(p))];
    assert OldAnswer(Run(ttl, steps).answers[0], Run(ttl, steps).log[0], ttl, r, p);
  }

  ghost predicate TimesOk(s: State) {
    && s.clock >= 0
    && forall c :: 0 <= c < |s.log| ==>
         && (s.log[c].returned.Some? ==> 0 <= s.log[c].returned.value.0 <= s.clock)
         && (s.log[c].published.Some? && s.log[c].returned.Some? ==> s.log[c].returned.value.0 <= s.log[c].published.value)
         && (s.log[c].published.Some? ==> s.log[c].returned.Some?)
  }

  lemma {:induction false} CallTimes(ttl: int, steps: seq<Step>)
    requires ValidRun(ttl, steps)
    ensures TimesOk(Run(ttl, steps))
    decreases |steps|
  {
    if steps != [] {
      CallTimes(ttl, steps[..|steps| - 1]);
    }
  }

  /** A stale answer needs a late publication. */
  lemma {:induction false} StaleMeansLate(ttl: int, steps: seq<Step>, r: int, p: int)
    requires ValidRun(ttl, steps) && StaleFrom(Run(ttl, steps), ttl, r, p)
    ensures 0 <= r <= p && r + ttl <= p
  {
    RunSafe(ttl, steps);
    AnswerTimes(ttl, steps);
    CallTimes(ttl, steps);
    var s := Run(ttl, steps);
    var a :| 0 <= a < |s.answers| && s.answers[a].call < |s.log| && OldAnswer(s.answers[a], s.log[s.answers[a].call], ttl, r, p);
    assert Justified(s, ttl, s.answers[a]);
  }

  /** A result that returned at `r` and was published at `p` can reach a caller a lifetime too late
      exactly when it was published a lifetime or more after it returned. */
  lemma {:induction false} StaleExactlyWhenLate(ttl: int, r: int, p: int)
    ensures (exists steps :: StaleRun(steps, ttl, r, p)) <==> 0 <= r <= p && r + ttl <= p
  {
    if 0 <= r <= p && r + ttl <= p {
      var steps := LateJoinerGetsOldResult(ttl, r, p);
      assert StaleRun(steps, ttl, r, p);
    }
    if steps :| StaleRun(steps, ttl, r, p) {
      StaleMeansLate(ttl, steps, r, p);
    }
  }

  ghost predicate StaleRun(steps: seq<Step>, ttl: int, r: int, p: int) {
    ValidRun(ttl, steps) && StaleFrom(Run(ttl, steps), ttl, r, p)
  }

  /** The locked sections, as the code runs them on its two maps. */
  class CachedResolver {
    const ttl: int
    var cache: map<string, Entry>
    var calls: map<string, nat>
    var log: seq<Call>

    constructor (ttl: int)
      ensures cache == map[] && calls == map[] && log == [] && this.ttl == ttl
    {
      this.ttl := ttl;
      cache, calls, log := map[], map[], [];
    }

    function View(clock: int, waiters: seq<Waiter>, answers: seq<Answer>): State
      reads this
    {
      State(clock, cache, calls, log, waiters, answers)
    }

    /** The lookup section: a hit, joining the pending call, or starting one. */
    method LookUp(key: string, readAt: int, at: int, ghost s: State) returns (hit: Option<Outcome>, call: nat)
      requires s == View(s.clock, s.waiters, s.answers) && Enabled(s, Lookup(key, readAt, at))
      requires forall k :: k in calls ==> calls[k] < |log|
      modifies this
      ensures var s' := Next(s, ttl, Lookup(key, readAt, at));
              && s' == View(at, s'.waiters, s'.answers)
              && (hit.Some? ==> s'.answers == s.answers + [Answer(key, readAt, at, call, hit.value, true)])
              && (hit.None? ==> s'.waiters == s.waiters + [Waiter(key, readAt, at, call)])
    {
      if key in cache {
        if readAt < cache[key].expiresAt {
          return Some(cache[key].outcome), cache[key].call;
        }
        cache := cache - {key};
      }
      assert cache == s.cache - {key};
      if key in calls {
        return None, calls[key];
      }
      call := |log|;
      log := log + [Call(key, None, None)];
      calls := calls[key := call];
      hit := None;
    }

    /** The publishing section. */
    method PublishResult(call: nat, at: int, live: bool, store: bool, ghost s: State) returns (ghost kept: set<string>)
      requires s == View(s.clock, s.waiters, s.answers) && s.clock <= at && (store ==> live)
      requires call < |log| && log[call].returned.Some? && log[call].published.None?
      modifies this
      ensures Enabled(s, Publish(call, at, live, store, kept))
      ensures Next(s, ttl, Publish(call, at, live, store, kept)) == View(at, s.waiters, s.answers)
    {
      var key, completedAt, outcome := log[call].key, log[call].returned.value.0, log[call].returned.value.1;
      kept := {};
      if live {
        cache, kept := MakeRoom(cache, completedAt);
      }
      if store {
        cache := cache[key := Entry(outcome, completedAt + ttl, call)];
      }
      calls := calls - {key};
      log := log[call := log[call].(published := Some(at))];
      PublishIs(s, ttl, Publish(call, at, live, store, kept), cache);
    }
  }

  lemma {:induction false} PublishIs(s: State, ttl: int, step: Step, cache: map<string, Entry>)
    requires step.Publish? && step.call < |s.log| && s.log[step.call].returned.Some? && s.log[step.call].published.None?
    requires s.clock <= step.at && (step.liveAtStore ==> step.liveAtEviction)
    requires var call := s.log[step.call];
             var roomy := if step.liveAtEviction then Evict(s.cache, call.returned.value.0, step.kept) else s.cache;
             && (step.liveAtEviction ==> |roomy| < MAX_ENTRIES)
             && cache == if step.liveAtStore then roomy[call.key := Entry(call.returned.value.1, call.returned.value.0 + ttl, step.call)] else roomy
    ensures Enabled(s, step)
    ensures Next(s, ttl, step) == State(step.at, cache, s.calls - {s.log[step.call].key},
              s.log[step.call := s.log[step.call].(published := Some(step.at))], s.waiters, s.answers)
  {
  }

  /** The two eviction loops. */
  method MakeRoom(full: map<string, Entry>, completedAt: int) returns (cache: map<string, Entry>, ghost kept: set<string>)
    ensures cache == Evict(full, completedAt, kept) && |cache| < MAX_ENTRIES
  {
    cache, kept := full, {};
    if |cache| >= MAX_ENTRIES {
      cache := Unexpired(full, completedAt);
      while |cache| >= MAX_ENTRIES
        invariant cache == Restrict(Unexpired(full, completedAt), cache.Keys)
        decreases |cache|
      {
        var candidate :| candidate in cache;
        assert (cache - {candidate}).Keys == cache.Keys - {candidate};
        cache := cache - {candidate};
      }
      kept := cache.Keys;
    }
  }
}
