/** A run in which a released scope is pruned although the sample of that very pass finds a process
    in it. The scope was clean three times and released; only the prune of that pass did not reach
    the disk, so the record was still there when the process appeared. */
module Leftovers {
  import opened Options
  import opened Text
  import opened Model
  import opened Operations
  import opened Scope
  import opened Kills
  import opened Enforce
  import opened Evict
  import opened Monitor
  import opened Patience
  import opened Departures

  const CREDENTIAL := Credential("tok_1", "h", "s")

  const TOKEN := Token("tok_1", "h", "s", "u", Claimed, 0, false, 0, false)

  /** A container's authorization that ends at time 2. */
  const SCOPE := Authorization("a", Docker, "h", Claimed, 0, "u", -1, "", 0, "", "", "box", "", "", 2, true, false)

  const STRAY := Row(7, 0, 1, false)

  /** The ledger with the token and one authorization. */
  function Holding(a: Authorization): Ledger {
    EMPTY.(tokens := [TOKEN], authorizations := [a])
  }

  function Released(): Authorization { SCOPE.(active := false) }

  /** A world in which every process that is asked about runs in the container. */
  function BoxEnv(now: int): Env {
    Env((pid: int) => true, (pid: int) => InfoFound(Info(pid, 1000, "", 1, "box", "", "")), false,
        (id: string) => NotFound, (id: string) => NotFound, (uid: int) => Unavailable,
        (raw: string, rel: string, path: string) => false, "", now)
  }

  function PassAt(now: int, rows: seq<Row>, prune: SaveEnd): Round {
    var all := (id: string) => true;
    var saves := (id: string) => Renamed;
    Round(BoxEnv(now), rows, |rows|, false, false, now, [], Deadline((g: int) => 0, 0), now, now, now, now,
          all, all, all, UnusedIDs(EMPTY), (d: Decision) => Renamed, saves, saves, saves, saves, saves, prune)
  }

  // ---------- What such a pass writes ----------

  lemma {:induction false} NothingToEnforce(l: Ledger, o: Round)
    requires l.claims == [] && Remaining(l, o) == [] && o.order == []
    ensures ClaimEvents(l, o) == []
  {
    var ws := Wishes(EnforceEnv(o), l, Remaining(l, o), o.order, o.deadline);
    assert ws == [];
  }

  lemma {:induction false} CollectOne<T>(x: T, f: T -> seq<Event>)
    ensures Collect([x], f) == f(x)
  {
    assert [x][..0] == [];
  }

  function ReleaseIfDue(a: Authorization, clean: map<ScopeKey, nat>, o: Round): seq<Event> {
    AuthorizationEvent([TOKEN], clean, o.authorizationNow, o.stopped, o.authorizationSave)(a)
  }

  /** The writes before the prune: the scope's release if it is due and ready, nothing otherwise. */
  lemma {:induction false} OneScopeWrites(a: Authorization, clean: map<ScopeKey, nat>, o: Round)
    requires a.mode == Docker
    ensures var l := Holding(a);
            && ReservationEvents(l, o) == [] && BareEvents(l, o) == [] && LeaseEvents(l, clean, o) == [] && BareLeaseEvents(l, o) == []
            && AuthorizationEvents(l, clean, o) == ReleaseIfDue(a, clean, o)
  {
    CollectOne(a, AuthorizationEvent([TOKEN], clean, o.authorizationNow, o.stopped, o.authorizationSave));
    CollectOne(a, BareEvent(o));
  }

  lemma {:induction false} OneScopeCleanup(l: Ledger, a: Authorization, clean: map<ScopeKey, nat>, o: Round)
    requires l == Holding(a) && a.mode == Docker && Remaining(l, o) == [] && o.order == []
    ensures ClaimEvents(l, o) == [] && CleanupEvents(l, clean, o) == ReleaseIfDue(a, clean, o)
    ensures BeforePrune(l, clean, o) == Run(l, ReleaseIfDue(a, clean, o))
  {
    NothingToEnforce(l, o);
    OneScopeWrites(a, clean, o);
    var es := ReleaseIfDue(a, clean, o);
    assert [] + es + [] + [] + [] == es;
  }

  predicate Due(a: Authorization, now: int) { a.active && now >= 2 }

  lemma {:induction false} DueMeans(a: Authorization, now: int)
    requires a == SCOPE || a == Released()
    ensures now >= 2 ==> (DueAuthorization([TOKEN], a, now) <==> Due(a, now))
  {
  }

  lemma {:induction false} NoRelease(a: Authorization, clean: map<ScopeKey, nat>, o: Round)
    requires (a == SCOPE || a == Released()) && o.authorizationNow >= 2 && (Due(a, o.authorizationNow) ==> !Ready(clean, AuthKey("a")))
    ensures ReleaseIfDue(a, clean, o) == []
  {
    DueMeans(a, o.authorizationNow);
  }

  lemma {:induction false} NoWrites(l: Ledger, clean: map<ScopeKey, nat>, o: Round)
    requires ReservationEvents(l, o) == [] && AuthorizationEvents(l, clean, o) == [] && LeaseEvents(l, clean, o) == []
    ensures CleanupOK(l, clean, o) <==> NothingHeld(l, clean, o)
  {
  }

  lemma {:induction false} OneHeld(l: Ledger, a: Authorization, clean: map<ScopeKey, nat>, o: Round)
    requires l == Holding(a) && (a == SCOPE || a == Released()) && o.authorizationNow >= 2
    requires Due(a, o.authorizationNow) ==> !Ready(clean, AuthKey("a"))
    ensures NothingHeld(l, clean, o) <==> !Due(a, o.authorizationNow)
  {
    DueMeans(a, o.authorizationNow);
    assert l.authorizations[0] == a;
  }

  /** Not due, or due and not ready: the ledger stays, and only in the first case may a prune follow. */
  lemma {:induction false} NothingReleased(l: Ledger, a: Authorization, clean: map<ScopeKey, nat>, o: Round)
    requires l == Holding(a) && (a == SCOPE || a == Released())
    requires Remaining(l, o) == [] && o.order == [] && o.authorizationNow >= 2
    requires Due(a, o.authorizationNow) ==> !Ready(clean, AuthKey("a"))
    ensures BeforePrune(l, clean, o) == l
    ensures CleanupOK(l, clean, o) <==> !Due(a, o.authorizationNow)
  {
    OneScopeCleanup(l, a, clean, o);
    OneScopeWrites(a, clean, o);
    NoRelease(a, clean, o);
    NoWrites(l, clean, o);
    OneHeld(l, a, clean, o);
  }

  lemma {:induction false} ReleaseWritten(l: Ledger, e: Event)
    requires l == Holding(SCOPE) && e == Event(ReleaseAuthorizationOp("a"), Renamed)
    ensures Run(l, [e]) == Holding(Released())
  {
    assert [e][..0] == [];
    assert ReleaseAuthorization(l, "a") == Saved(Holding(Released()));
  }

  /** Due and ready: the scope is released. */
  lemma {:induction false} Releasing(l: Ledger, clean: map<ScopeKey, nat>, o: Round)
    requires l == Holding(SCOPE) && Remaining(l, o) == [] && o.order == [] && o.authorizationNow >= 2
    requires Ready(clean, AuthKey("a")) && o.authorizationSave("a") == Renamed
    ensures BeforePrune(l, clean, o) == Holding(Released())
  {
    OneScopeCleanup(l, SCOPE, clean, o);
    DueMeans(SCOPE, o.authorizationNow);
    ReleaseWritten(l, Event(ReleaseAuthorizationOp("a"), Renamed));
  }

  lemma {:induction false} NotPruned(l: Ledger, clean: map<ScopeKey, nat>, o: Round)
    requires o.pruneSave.NotRenamed? || !CleanupOK(l, clean, o)
    ensures PassLedger(l, clean, o) == BeforePrune(l, clean, o)
  {
  }

  lemma {:induction false} KeptLedger(l: Ledger, clean: map<ScopeKey, nat>, o: Round)
    requires l == Holding(SCOPE) && Remaining(l, o) == [] && o.order == [] && o.authorizationNow >= 2 && !Ready(clean, AuthKey("a"))
    ensures PassLedger(l, clean, o) == l
  {
    NothingReleased(l, SCOPE, clean, o);
    NotPruned(l, clean, o);
  }

  // ---------- What its sample says ----------

  lemma {:induction false} EmptyRemaining(l: Ledger, o: Round)
    requires o.rows == []
    ensures Remaining(l, o) == []
  {
  }

  lemma {:induction false} OnlyToken()
    ensures TokenOf([TOKEN], "h") == Some(TOKEN)
  {
  }

  /** An empty sample finds the scope clean. */
  lemma {:induction false} EmptySample(w: World, now: int, prune: SaveEnd)
    requires w.ledger == Holding(SCOPE) && now >= 2
    ensures var o := PassAt(now, [], prune);
            CleanIn(Evicted(o.env, w.ledger, o.rows, o.reach, o.killsFail).assessment, AuthKey("a"))
  {
    var o := PassAt(now, [], prune);
    OnlyToken();
    DueMeans(SCOPE, now);
    assert w.ledger.authorizations[0] == SCOPE;
    assert Leaving(w, SCOPE, o.env.now);
    QuietPassCleans(w, o, SCOPE);
  }

  lemma {:induction false} InBox()
    ensures SameContainer("box", "box")
  {
    assert Trim("box") == "box";
    assert Lower("box") != "";
  }

  lemma {:induction false} StrayIsJudged(env: Env, r: Rules, info: Info)
    requires r.ledger == Holding(Released()) && env.now >= 2 && info.containerID == "box"
    ensures Judge(env, r, 0, info) == Stray([Released()], [])
  {
    var as', sa, va := r.ledger.authorizations, AuthStanding(env, r, 0), ScopeTest(env, info);
    OnlyToken();
    InBox();
    assert as' == [Released()] && as'[1..] == [];
    assert sa(Released()) == Stale && va(Released()) == Yes;
    assert Scan(as', sa, va) == Scopes([Released()]);
  }

  /** The sample with the stray: it is planned for killing, and the scope counts as not clean. */
  lemma {:induction false} StraySample(l: Ledger, now: int)
    requires l == Holding(Released()) && now >= 2
    ensures var p := Evicted(BoxEnv(now), l, [STRAY], 1, false);
            !p.failed && p.wishes == [Kill(STRAY, "h")] && "a" in p.assessment.authorizations && !p.assessment.authorizations["a"]
  {
    var env, r := BoxEnv(now), RulesOf(l, now);
    var start := EvictRows(env, r, []);
    assert [STRAY][..0] == [];
    var info := env.info(7).info;
    StrayIsJudged(env, r, info);
    assert Examined(start, STRAY);
    assert EvictRow(env, r, start, STRAY) == MarkStray(start, STRAY, Stray([Released()], []), false);
    assert [Released()][..0] == [];
  }

  lemma {:induction false} StrayRemaining(l: Ledger, o: Round)
    requires o.rows == [STRAY] && Evicted(o.env, l, o.rows, o.reach, o.killsFail).wishes == [Kill(STRAY, "h")]
    ensures Remaining(l, o) == []
  {
    var ws := [Kill(STRAY, "h")];
    assert ws[..0] == [];
    assert Targets(ws) == {7};
    assert [STRAY][..0] == [];
  }

  // ---------- The run ----------

  /** A run that has come to this state. */
  ghost predicate ComesTo(steps: seq<Step>, w: World) {
    PossibleRun(steps) && RunSteps(steps) == w
  }

  lemma {:induction false} GoOn(steps: seq<Step>, w: World, step: Step)
    requires ComesTo(steps, w) && Possible(w, step)
    ensures ComesTo(steps + [step], Next(w, step))
  {
    assert (steps + [step])[..|steps|] == steps;
  }

  lemma {:induction false} FreshHere(l: Ledger)
    requires l.claims == []
    ensures FreshClaims(l, UnusedIDs(EMPTY))
  {
    UnusedAreFresh(EMPTY);
  }

  lemma {:induction false} PassPossible(w: World, now: int, rows: seq<Row>, prune: SaveEnd)
    requires w.clock <= now && w.ledger.claims == [] && Remaining(w.ledger, PassAt(now, rows, prune)) == []
    ensures Possible(w, Pass(PassAt(now, rows, prune)))
  {
    FreshHere(w.ledger);
  }

  lemma {:induction false} EmptyPassPossible(w: World, now: int, prune: SaveEnd)
    requires w.clock <= now && w.ledger.claims == []
    ensures Possible(w, Pass(PassAt(now, [], prune)))
  {
    EmptyRemaining(w.ledger, PassAt(now, [], prune));
    PassPossible(w, now, [], prune);
  }

  /** Where the run stands: the ledger holds the scope alone, clean for so many samples. */
  predicate Standing(w: World, a: Authorization, streak: nat, now: int) {
    w.ledger == Holding(a) && Count(w.clean, AuthKey("a")) == streak && w.clock == now
  }

  lemma {:induction false} TokenIssued(w: World)
    requires w == START
    ensures var s1 := Serve(RegisterSoftOp(CREDENTIAL, "u", 1), Renamed, 1);
            Possible(w, s1) && Next(w, s1) == World(EMPTY.(tokens := [TOKEN]), map[], [], 1)
  {
    assert Trim("u") == "u";
  }

  lemma {:induction false} ScopeAdded(w: World)
    requires w == World(EMPTY.(tokens := [TOKEN]), map[], [], 1)
    ensures var s2 := Serve(AddAuthorizationOp(SCOPE, 1), Renamed, 1);
            Possible(w, s2) && Next(w, s2) == World(Holding(SCOPE), map[], [], 1)
  {
  }

  lemma {:induction false} Beginning() returns (steps: seq<Step>, w: World)
    ensures ComesTo(steps, w) && w == World(Holding(SCOPE), map[], [], 1)
  {
    var s1, s2 := Serve(RegisterSoftOp(CREDENTIAL, "u", 1), Renamed, 1), Serve(AddAuthorizationOp(SCOPE, 1), Renamed, 1);
    TokenIssued(START);
    GoOn([], START, s1);
    var w1 := Next(START, s1);
    ScopeAdded(w1);
    GoOn([] + [s1], w1, s2);
    steps, w := [] + [s1] + [s2], Next(w1, s2);
  }

  lemma {:induction false} Counted(w: World, now: int, prune: SaveEnd)
    requires w.ledger == Holding(SCOPE) && now >= 2
    ensures Count(Next(w, Pass(PassAt(now, [], prune))).clean, AuthKey("a")) == Count(w.clean, AuthKey("a")) + 1
  {
    EmptySample(w, now, prune);
  }

  lemma {:induction false} KeptWorld(w: World, o: Round)
    requires w.ledger == Holding(SCOPE) && o.rows == [] && o.order == [] && o.authorizationNow >= 2
    requires Count(Next(w, Pass(o)).clean, AuthKey("a")) < CLEAN_SAMPLES
    ensures Next(w, Pass(o)).ledger == w.ledger && Next(w, Pass(o)).clock == o.leaseNow
  {
    EmptyRemaining(w.ledger, o);
    KeptLedger(w.ledger, Next(w, Pass(o)).clean, o);
  }

  lemma {:induction false} ReleasedWorld(w: World, o: Round)
    requires w.ledger == Holding(SCOPE) && o.rows == [] && o.order == [] && o.authorizationNow >= 2
    requires Count(Next(w, Pass(o)).clean, AuthKey("a")) >= CLEAN_SAMPLES && o.authorizationSave("a") == Renamed && o.pruneSave.NotRenamed?
    ensures Next(w, Pass(o)).ledger == Holding(Released()) && Next(w, Pass(o)).clock == o.leaseNow
  {
    EmptyRemaining(w.ledger, o);
    Releasing(w.ledger, Next(w, Pass(o)).clean, o);
    NotPruned(w.ledger, Next(w, Pass(o)).clean, o);
  }

  /** An empty sample short of the third: the scope is kept, and nothing is pruned. */
  lemma {:induction false} KeptByPass(w: World, streak: nat, now: int)
    requires Standing(w, SCOPE, streak, now) && streak + 1 < CLEAN_SAMPLES && now >= 1
    ensures Standing(Next(w, Pass(PassAt(now + 1, [], Renamed))), SCOPE, streak + 1, now + 1)
  {
    Counted(w, now + 1, Renamed);
    KeptWorld(w, PassAt(now + 1, [], Renamed));
  }

  /** The third empty sample: the scope is released, and the prune does not reach the disk. */
  lemma {:induction false} ReleasedByPass(w: World, now: int)
    requires Standing(w, SCOPE, 2, now) && now >= 1
    ensures var step := Pass(PassAt(now + 1, [], NotRenamed));
            Next(w, step).ledger == Holding(Released()) && Next(w, step).clock == now + 1
  {
    Counted(w, now + 1, NotRenamed);
    ReleasedWorld(w, PassAt(now + 1, [], NotRenamed));
  }

  lemma {:induction false} OneMoreEmpty(steps: seq<Step>, w: World, streak: nat, now: int) returns (longer: seq<Step>, n: World)
    requires ComesTo(steps, w) && Standing(w, SCOPE, streak, now) && streak + 1 < CLEAN_SAMPLES && now >= 1
    ensures ComesTo(longer, n) && Standing(n, SCOPE, streak + 1, now + 1)
  {
    var step := Pass(PassAt(now + 1, [], Renamed));
    EmptyPassPossible(w, now + 1, Renamed);
    KeptByPass(w, streak, now);
    GoOn(steps, w, step);
    longer, n := steps + [step], Next(w, step);
  }

  lemma {:induction false} LastEmpty(steps: seq<Step>, w: World, now: int) returns (longer: seq<Step>, n: World)
    requires ComesTo(steps, w) && Standing(w, SCOPE, 2, now) && now >= 1
    ensures ComesTo(longer, n) && n.ledger == Holding(Released()) && n.clock == now + 1
  {
    var step := Pass(PassAt(now + 1, [], NotRenamed));
    EmptyPassPossible(w, now + 1, NotRenamed);
    ReleasedByPass(w, now);
    GoOn(steps, w, step);
    longer, n := steps + [step], Next(w, step);
  }

  /** Three empty samples later. */
  lemma {:induction false} UpToRelease() returns (steps: seq<Step>, w: World)
    ensures ComesTo(steps, w) && w.ledger == Holding(Released()) && w.clock == 4
  {
    steps, w := Beginning();
    steps, w := OneMoreEmpty(steps, w, 0, 1);
    steps, w := OneMoreEmpty(steps, w, 1, 2);
    steps, w := LastEmpty(steps, w, 3);
  }

  /** The fourth pass finds the stray, plans its kill, and prunes the record. */
  lemma {:induction false} PrunedByPass(w: World, now: int)
    requires w.ledger == Holding(Released()) && w.clock <= now && now >= 2
    ensures var o := PassAt(now, [STRAY], Renamed);
            && Possible(w, Pass(o)) && Prunes(w, o)
            && var sample := Next(w, Pass(o)).samples[|w.samples|];
               AuthKey("a") in KeysOf(sample) && !CleanIn(sample, AuthKey("a"))
  {
    var o := PassAt(now, [STRAY], Renamed);
    StraySample(w.ledger, now);
    StrayRemaining(w.ledger, o);
    PassPossible(w, now, [STRAY], Renamed);
    NothingReleased(w.ledger, Released(), Next(w, Pass(o)).clean, o);
  }

  /** A possible run whose last pass removes the record of a released scope although it finds a
      process in that scope. */
  lemma {:induction false} PrunedUnderAStray() returns (steps: seq<Step>, w: World, o: Round, a: Authorization)
    ensures ComesTo(steps, w) && Possible(w, Pass(o))
    ensures a in w.ledger.authorizations && !a.active && a.mode != Bare && a.cgroupPath == ""
    ensures NoRecord(Next(w, Pass(o)).ledger, a.id)
    ensures var sample := Next(w, Pass(o)).samples[|w.samples|]; AuthKey(a.id) in KeysOf(sample) && !CleanIn(sample, AuthKey(a.id))
  {
    steps, w := UpToRelease();
    o, a := PassAt(5, [STRAY], Renamed), Released();
    PrunedByPass(w, 5);
    RunConsistent(steps);
    RunInBounds(steps);
    assert w.ledger.authorizations[0] == a;
    ReleasedGoesExactlyWithPrune(w, o, a);
  }
}
