/** How a watched scope leaves: three clean samples in a row do drop it once it is due; the record it
    leaves behind goes with the next prune, whatever that pass's sample says; and a scope once watched
    and later gone was found clean three times in between. */
module Departures {
  import opened Seqs
  import opened Model
  import opened Operations
  import opened Lifecycles
  import opened Scope
  import opened Evict
  import opened Strays
  import opened Integrity
  import opened Monitor
  import opened Patience

  // ---------- What a step makes of the authorizations ----------

  predicate NoneAdded(events: seq<Event>) {
    forall i :: 0 <= i < |events| ==> !events[i].op.AddAuthorizationOp?
  }

  lemma {:induction false} PassAddsNone(l: Ledger, clean: map<ScopeKey, nat>, o: Round)
    requires ReservationsDistinct(l)
    ensures NoneAdded(ClaimEvents(l, o)) && NoneAdded(CleanupEvents(l, clean, o))
  {
    forall i | 0 <= i < |ClaimEvents(l, o)| ensures !ClaimEvents(l, o)[i].op.AddAuthorizationOp? {
      ClaimEventOps(l, o, ClaimEvents(l, o)[i]);
    }
    var events := CleanupEvents(l, clean, o);
    forall i | 0 <= i < |events| ensures !events[i].op.AddAuthorizationOp? {
      CleanupReleases(l, clean, o, o.reservationNow, events[i]);
    }
  }

  /** Runs that add nothing, one after the other. */
  lemma {:induction false} RunsEvolve(l: Ledger, a: seq<Event>, b: seq<Event>, r: Authorization)
    requires NoneAdded(a) && NoneAdded(b) && r in Run(Run(l, a), b).authorizations
    ensures Descends(l.authorizations, r)
  {
    var mid := Run(l, a);
    RunEvolves(mid, b, r);
    var i :| 0 <= i < |mid.authorizations| && Evolved(mid.authorizations[i], r);
    RunEvolves(l, a, mid.authorizations[i]);
    var j :| 0 <= j < |l.authorizations| && Evolved(l.authorizations[j], mid.authorizations[i]);
    EvolvedTrans(l.authorizations[j], mid.authorizations[i], r);
  }

  lemma {:induction false} ThenStep(l: Ledger, m: Ledger, op: Op, save: SaveEnd, r: Authorization)
    requires forall b :: b in m.authorizations ==> Descends(l.authorizations, b)
    requires !op.AddAuthorizationOp? && r in After(m, op, save).authorizations
    ensures Descends(l.authorizations, r)
  {
    StepContinues(m, op, save);
    var k :| 0 <= k < |After(m, op, save).authorizations| && After(m, op, save).authorizations[k] == r;
    var i :| 0 <= i < |m.authorizations| && Evolved(m.authorizations[i], r);
    assert m.authorizations[i] in m.authorizations;
    var j :| 0 <= j < |l.authorizations| && Evolved(l.authorizations[j], m.authorizations[i]);
    EvolvedTrans(l.authorizations[j], m.authorizations[i], r);
  }

  lemma {:induction false} PassEvolves(l: Ledger, clean: map<ScopeKey, nat>, o: Round, r: Authorization)
    requires ReservationsDistinct(l) && r in PassLedger(l, clean, o).authorizations
    ensures Descends(l.authorizations, r)
  {
    var done := BeforePrune(l, clean, o);
    PassAddsNone(l, clean, o);
    forall b | b in done.authorizations ensures Descends(l.authorizations, b) {
      RunsEvolve(l, ClaimEvents(l, o), CleanupEvents(l, clean, o), b);
    }
    if r !in done.authorizations {
      ThenStep(l, done, PruneOp(o.now), o.pruneSave, r);
    }
  }

  lemma {:induction false} OutageEvolves(l: Ledger, clean: map<ScopeKey, nat>, o: Outage, r: Authorization)
    requires r in OutageLedger(l, clean, o).authorizations
    ensures Descends(l.authorizations, r)
  {
    var events := OutageEvents(l, clean, o);
    forall i | 0 <= i < |events| ensures !events[i].op.AddAuthorizationOp? {
      OutageAllowed(l, clean, o, events[i]);
    }
    var l1 := Run(l, events);
    var scopes := PruneManagedScopesOp(Removable(l1, o), RemovableLeases(l1, o));
    var l2 := After(l1, scopes, o.scopeSave);
    forall b | b in l1.authorizations ensures Descends(l.authorizations, b) {
      RunEvolves(l, events, b);
    }
    forall b | b in l2.authorizations ensures Descends(l.authorizations, b) {
      ThenStep(l, l1, scopes, o.scopeSave, b);
    }
    ThenStep(l, l2, PruneUnreferencedOp(o.now), o.clearSave, r);
  }

  lemma {:induction false} ServeEvolves(l: Ledger, op: Op, save: SaveEnd, now: int, a: Authorization, r: Authorization)
    requires Allowed(l, op, now) && a in l.authorizations && r in After(l, op, save).authorizations && r.id == a.id
    ensures Descends(l.authorizations, r)
  {
    if op.AddAuthorizationOp? {
      var i :| 0 <= i < |l.authorizations| && l.authorizations[i] == a;
      AddingContinues(l, op, save, r);
    } else {
      StepContinues(l, op, save);
      var k :| 0 <= k < |After(l, op, save).authorizations| && After(l, op, save).authorizations[k] == r;
    }
  }

  lemma {:induction false} StepDescends(w: World, step: Step, a: Authorization, r: Authorization)
    requires ReservationsDistinct(w.ledger) && Possible(w, step)
    requires a in w.ledger.authorizations && r in Next(w, step).ledger.authorizations && r.id == a.id
    ensures Descends(w.ledger.authorizations, r)
  {
    match step
    case Serve(op, save, now) => ServeEvolves(w.ledger, op, save, now, a, r);
    case Pass(o) => PassEvolves(w.ledger, Next(w, step).clean, o, r);
    case Blind(o) => OutageEvolves(w.ledger, w.clean, o, r);
    case Restart(_) => SameContinues(w.ledger.authorizations);
  }

  lemma {:induction false} SameDescends(l: Ledger, a: Authorization, r: Authorization)
    requires AuthorizationsDistinct(l) && a in l.authorizations && Descends(l.authorizations, r) && r.id == a.id
    ensures Evolved(a, r)
  {
    var j :| 0 <= j < |l.authorizations| && Evolved(l.authorizations[j], r);
    SameIDSame(l, a, l.authorizations[j]);
  }

  /** Whatever a step leaves under an id in use evolved from what was there. */
  lemma {:induction false} StepEvolves(w: World, step: Step, a: Authorization, r: Authorization)
    requires Consistent(w) && Possible(w, step)
    requires a in w.ledger.authorizations && r in Next(w, step).ledger.authorizations && r.id == a.id
    ensures Evolved(a, r)
  {
    StepDescends(w, step, a, r);
    SameDescends(w.ledger, a, r);
  }

  // ---------- Once watched, later gone ----------

  predicate WatchedAt(l: Ledger, id: string) {
    exists i :: 0 <= i < |l.authorizations| && l.authorizations[i].id == id && Watched(l.authorizations[i])
  }

  /** A watched scope that a step leaves active is still watched. */
  lemma {:induction false} StillWatched(w: World, step: Step, id: string)
    requires Consistent(w) && Possible(w, step) && WatchedAt(w.ledger, id) && StillActive(Next(w, step).ledger, id)
    ensures WatchedAt(Next(w, step).ledger, id)
  {
    var i :| 0 <= i < |w.ledger.authorizations| && w.ledger.authorizations[i].id == id && Watched(w.ledger.authorizations[i]);
    var n := Next(w, step).ledger.authorizations;
    var k :| 0 <= k < |n| && n[k].id == id && n[k].active;
    StepEvolves(w, step, w.ledger.authorizations[i], n[k]);
  }

  /** The last step of these is a pass, and it and the two samples before it found the scope clean. */
  ghost predicate CleanPassAt(steps: seq<Step>, j: nat, id: string)
    requires 0 < j <= |steps|
  {
    steps[j - 1].Pass? && CleanForLast(RunSteps(steps[..j]).samples, AuthKey(id), CLEAN_SAMPLES)
  }

  lemma {:induction false} PrefixPossible(steps: seq<Step>, i: nat)
    requires PossibleRun(steps) && i <= |steps|
    ensures PossibleRun(steps[..i])
  {
    if i < |steps| {
      PrefixPossible(steps[..|steps| - 1], i);
      assert steps[..|steps| - 1][..i] == steps[..i];
    } else {
      assert steps[..i] == steps;
    }
  }

  /** A watched scope is still watched after one more step, or was just dropped by a clean pass. */
  lemma {:induction false} OneStepWatched(w: World, step: Step, id: string)
    requires Consistent(w) && Possible(w, step) && WatchedAt(w.ledger, id)
    ensures WatchedAt(Next(w, step).ledger, id) || (step.Pass? && CleanForLast(Next(w, step).samples, AuthKey(id), CLEAN_SAMPLES))
  {
    if StillActive(Next(w, step).ledger, id) {
      StillWatched(w, step, id);
    } else {
      var i :| 0 <= i < |w.ledger.authorizations| && w.ledger.authorizations[i].id == id && Watched(w.ledger.authorizations[i]);
      DropNeedsThreeCleanSamples(w, step, w.ledger.authorizations[i]);
    }
  }

  lemma {:induction false} StepAt(steps: seq<Step>, i: nat)
    requires PossibleRun(steps) && i < |steps|
    ensures RunSteps(steps[..i + 1]) == Next(RunSteps(steps[..i]), steps[i])
    ensures Possible(RunSteps(steps[..i]), steps[i]) && Consistent(RunSteps(steps[..i]))
  {
    PrefixPossible(steps, i + 1);
    PrefixPossible(steps, i);
    RunConsistent(steps[..i]);
    assert steps[..i + 1][..i] == steps[..i];
  }

  ghost predicate WatchedAfter(steps: seq<Step>, k: nat, id: string)
    requires k <= |steps|
  {
    WatchedAt(RunSteps(steps[..k]).ledger, id)
  }

  lemma {:induction false} StepWatched(steps: seq<Step>, k: nat, id: string)
    requires PossibleRun(steps) && k < |steps| && WatchedAfter(steps, k, id)
    ensures WatchedAfter(steps, k + 1, id) || CleanPassAt(steps, k + 1, id)
  {
    StepAt(steps, k);
    OneStepWatched(RunSteps(steps[..k]), steps[k], id);
  }

  predicate GoesOn(holds: int -> bool, happens: int -> bool, k: int) {
    holds(k) ==> holds(k + 1) || happens(k + 1)
  }

  /** Where something that holds at `i` and not at `n` first fails, the other thing happens. */
  lemma {:induction false} FirstFailure(holds: int -> bool, happens: int -> bool, i: int, n: int) returns (j: int)
    requires i <= n && holds(i) && !holds(n)
    requires forall k :: i <= k < n ==> GoesOn(holds, happens, k)
    ensures i < j <= n && happens(j)
    decreases n - i
  {
    j := i + 1;
    assert GoesOn(holds, happens, i);
    if holds(i + 1) {
      j := FirstFailure(holds, happens, i + 1, n);
    }
  }

  ghost function WatchedFrom(steps: seq<Step>, id: string): int -> bool {
    (k: int) => 0 <= k <= |steps| && WatchedAfter(steps, k, id)
  }

  ghost function CleanPasses(steps: seq<Step>, id: string): int -> bool {
    (k: int) => 0 < k <= |steps| && CleanPassAt(steps, k, id)
  }

  lemma {:induction false} RunGoesOn(steps: seq<Step>, id: string, k: int)
    requires PossibleRun(steps) && 0 <= k < |steps|
    ensures GoesOn(WatchedFrom(steps, id), CleanPasses(steps, id), k)
  {
    if WatchedFrom(steps, id)(k) {
      StepWatched(steps, k, id);
    }
  }

  lemma {:induction false} GoneAtEnd(steps: seq<Step>, id: string)
    requires !StillActive(RunSteps(steps).ledger, id)
    ensures !WatchedFrom(steps, id)(|steps|)
  {
    assert steps[..|steps|] == steps;
  }

  /** Over every run, restarts included: a scope that was watched at some time and later is neither
      present nor active was in between found clean by a pass and the two samples before it. So a
      record that is gone, released or pruned, was clean three times in a row before it went. */
  lemma {:induction false} GoneWasCleanThrice(steps: seq<Step>, i: nat, id: string) returns (j: nat)
    requires PossibleRun(steps) && i <= |steps| && WatchedAfter(steps, i, id)
    requires !StillActive(RunSteps(steps).ledger, id)
    ensures i < j <= |steps| && CleanPassAt(steps, j, id)
  {
    forall k | i <= k < |steps| ensures GoesOn(WatchedFrom(steps, id), CleanPasses(steps, id), k) {
      RunGoesOn(steps, id, k);
    }
    GoneAtEnd(steps, id);
    j := FirstFailure(WatchedFrom(steps, id), CleanPasses(steps, id), i, |steps|);
  }

  // ---------- A record already released ----------

  lemma {:induction false} InactiveStep(l: Ledger, e: Event, a: Authorization)
    requires PassWrite(e.op) && a in l.authorizations && !a.active
    ensures a in After(l, e.op, e.save).authorizations
  {
    if e.op.ReleaseAuthorizationOp? {
      var i :| 0 <= i < |l.authorizations| && l.authorizations[i] == a;
      assert After(l, e.op, e.save).authorizations[i] == a;
    }
  }

  lemma {:induction false} InactiveRun(l: Ledger, events: seq<Event>, a: Authorization)
    requires (forall e :: e in events ==> PassWrite(e.op)) && a in l.authorizations && !a.active
    ensures a in Run(l, events).authorizations
  {
    if events != [] {
      var n := |events| - 1;
      InactiveRun(l, events[..n], a);
      assert events[n] in events;
      InactiveStep(Run(l, events[..n]), events[n], a);
    }
  }

  lemma {:induction false} InactiveUpToPrune(l: Ledger, clean: map<ScopeKey, nat>, o: Round, a: Authorization)
    requires ReservationsDistinct(l) && a in l.authorizations && !a.active
    ensures a in BeforePrune(l, clean, o).authorizations
  {
    forall e | e in ClaimEvents(l, o) ensures PassWrite(e.op) {
      ClaimEventOps(l, o, e);
    }
    InactiveRun(l, ClaimEvents(l, o), a);
    forall e | e in CleanupEvents(l, clean, o) ensures PassWrite(e.op) {
      CleanupReleases(l, clean, o, o.reservationNow, e);
    }
    InactiveRun(Run(l, ClaimEvents(l, o)), CleanupEvents(l, clean, o), a);
  }

  predicate NoRecord(l: Ledger, id: string) {
    forall i :: 0 <= i < |l.authorizations| ==> l.authorizations[i].id != id
  }

  lemma {:induction false} PrunedInBounds(l: Ledger, now: int)
    requires WithinBounds(l) && Prune(l, now).Saved?
    ensures WithinBounds(Prune(l, now).ledger)
  {
    var n := Prune(l, now).ledger;
    FilterMembers(l.reservations, KeepReservation(l, now));
    FilterMembers(l.claims, KeepClaim(l, n.authorizations, now));
    FilterMembers(l.leases, KeepLease(l, now));
    forall i | 0 <= i < |n.reservations| ensures ValidGPU(n.reservations[i].gpu) {
      assert n.reservations[i] in l.reservations;
    }
    forall i | 0 <= i < |n.claims| ensures ValidGPU(n.claims[i].gpu) {
      assert n.claims[i] in l.claims;
    }
    forall i | 0 <= i < |n.leases| ensures ValidGPU(n.leases[i].gpu) {
      assert n.leases[i] in l.leases;
    }
  }

  /** A prune that reaches the disk leaves only active records. */
  lemma {:induction false} PruneLeavesActive(l: Ledger, now: int, save: SaveEnd, r: Authorization)
    requires WithinBounds(l) && !save.NotRenamed? && r in After(l, PruneOp(now), save).authorizations
    ensures r in l.authorizations && r.active
  {
    FilterMembers(l.authorizations, KeepAuthorization(l, now));
    if Prune(l, now).Saved? {
      PrunedInBounds(l, now);
    } else {
      FilterAll(l.authorizations, KeepAuthorization(l, now));
    }
  }

  /** The pass comes to prune, and what it prunes reaches the disk. */
  predicate Prunes(w: World, o: Round) {
    && !Evicted(o.env, w.ledger, o.rows, o.reach, o.killsFail).failed
    && CleanupOK(w.ledger, Next(w, Pass(o)).clean, o) && !o.pruneSave.NotRenamed?
  }

  lemma {:induction false} PruneTakesInactive(w: World, o: Round, a: Authorization)
    requires Consistent(w) && WithinBounds(w.ledger) && a in w.ledger.authorizations && !a.active && Prunes(w, o)
    ensures NoRecord(Next(w, Pass(o)).ledger, a.id)
  {
    var l, clean := w.ledger, Next(w, Pass(o)).clean;
    var done, n := BeforePrune(l, clean, o), PassLedger(l, clean, o);
    BoundsKept(l, ClaimEvents(l, o));
    BoundsKept(Run(l, ClaimEvents(l, o)), CleanupEvents(l, clean, o));
    forall i | 0 <= i < |n.authorizations| ensures n.authorizations[i].id != a.id {
      var r := n.authorizations[i];
      PassEvolves(l, clean, o, r);
      PruneLeavesActive(done, o.now, o.pruneSave, r);
      if r.id == a.id {
        SameDescends(l, a, r);
        assert false;
      }
    }
  }

  /** A record that is no longer active, a released scope outside cgroups among them, disappears in a
      pass exactly when the pass prunes, whatever its sample says about the scope. */
  lemma {:induction false} ReleasedGoesExactlyWithPrune(w: World, o: Round, a: Authorization)
    requires Consistent(w) && WithinBounds(w.ledger) && a in w.ledger.authorizations && !a.active
    ensures NoRecord(Next(w, Pass(o)).ledger, a.id) <==> Prunes(w, o)
  {
    if Prunes(w, o) {
      PruneTakesInactive(w, o, a);
    } else {
      var clean := Next(w, Pass(o)).clean;
      InactiveUpToPrune(w.ledger, clean, o, a);
      assert Next(w, Pass(o)).ledger == BeforePrune(w.ledger, clean, o);
      var i :| 0 <= i < |Next(w, Pass(o)).ledger.authorizations| && Next(w, Pass(o)).ledger.authorizations[i] == a;
    }
  }

  /** Every ledger a run reaches is within the bounds of the store. */
  lemma {:induction false} StepInBounds(w: World, step: Step)
    requires WithinBounds(w.ledger)
    ensures WithinBounds(Next(w, step).ledger)
  {
    match step
    case Serve(op, save, _) =>
    case Pass(o) =>
      var clean := Next(w, step).clean;
      BoundsKept(w.ledger, ClaimEvents(w.ledger, o));
      BoundsKept(Run(w.ledger, ClaimEvents(w.ledger, o)), CleanupEvents(w.ledger, clean, o));
    case Blind(o) =>
      BoundsKept(w.ledger, OutageEvents(w.ledger, w.clean, o));
    case Restart(_) =>
  }

  lemma {:induction false} RunInBounds(steps: seq<Step>)
    ensures WithinBounds(RunSteps(steps).ledger)
  {
    if steps != [] {
      RunInBounds(steps[..|steps| - 1]);
      StepInBounds(RunSteps(steps[..|steps| - 1]), steps[|steps| - 1]);
    }
  }

  // ---------- Three quiet passes do drop a due scope ----------

  lemma {:induction false} TrackedFromStart(r: Rules, as': seq<Authorization>, a: Authorization, now: int)
    requires a in as' && Tracked(r, a, now)
    ensures a.id in TrackedIDs(r, as', now) && TrackedIDs(r, as', now)[a.id]
  {
    var n := |as'| - 1;
    if as'[n] != a {
      assert a in as'[..n];
      TrackedFromStart(r, as'[..n], a, now);
    }
  }

  lemma {:induction false} OthersMarked(m: map<string, bool>, as': seq<Authorization>, id: string)
    requires id in m && forall i :: 0 <= i < |as'| ==> as'[i].id != id
    ensures id in SetFalse(m, as') && SetFalse(m, as')[id] == m[id]
  {
    if as' != [] {
      OthersMarked(m, as'[..|as'| - 1], id);
    }
  }

  /** The row's process, if there is one, is not in the scope. */
  predicate Outside(env: Env, row: Row, a: Authorization) {
    env.info(row.pid).InfoFound? ==> ScopeVerdict(env, a, env.info(row.pid).info) != Yes
  }

  predicate CleanSoFar(p: Progress, id: string) {
    id in p.assessment.authorizations && p.assessment.authorizations[id]
  }

  /** A row outside the scope leaves it clean unless something goes wrong. */
  lemma {:induction false} OutsideRow(env: Env, r: Rules, p: Progress, row: Row, a: Authorization)
    requires AuthorizationsDistinct(r.ledger) && a in r.ledger.authorizations && Outside(env, row, a)
    requires CleanSoFar(p, a.id) && !EvictRow(env, r, p, row).failed
    ensures CleanSoFar(EvictRow(env, r, p, row), a.id)
  {
    if Examined(p, row) && env.info(row.pid).InfoFound? {
      var info := env.info(row.pid).info;
      var o := Judge(env, r, row.gpu, info);
      if o.Stray? {
        JudgedStray(env, r, row.gpu, info);
        forall i | 0 <= i < |o.authorizations| ensures o.authorizations[i].id != a.id {
          assert o.authorizations[i] in o.authorizations;
          if o.authorizations[i].id == a.id {
            SameIDSame(r.ledger, a, o.authorizations[i]);
          }
        }
        OthersMarked(p.assessment.authorizations, o.authorizations, a.id);
      }
    }
  }

  lemma {:induction false} OutsideRows(env: Env, r: Rules, rows: seq<Row>, a: Authorization)
    requires AuthorizationsDistinct(r.ledger) && a in r.ledger.authorizations && Tracked(r, a, env.now)
    requires !EvictRows(env, r, rows).failed && forall i :: 0 <= i < |rows| ==> Outside(env, rows[i], a)
    ensures CleanSoFar(EvictRows(env, r, rows), a.id)
  {
    if rows == [] {
      TrackedFromStart(r, r.ledger.authorizations, a, env.now);
    } else {
      var n := |rows| - 1;
      RowOnlyWorsens(env, r, EvictRows(env, r, rows[..n]), rows[n]);
      OutsideRows(env, r, rows[..n], a);
      OutsideRow(env, r, EvictRows(env, r, rows[..n]), rows[n], a);
    }
  }

  /** The validity cleanup looks at and the one eviction looks at agree on the token of a hash. */
  lemma {:induction false} SameToken(ts: seq<Token>, hash: string, now: int)
    ensures HashUsable(ts, hash, now) <==> TokenOf(ts, hash).Some? && TokenUsable(TokenOf(ts, hash).value, now)
  {
    if ts != [] {
      SameToken(ts[..|ts| - 1], hash, now);
    }
  }

  lemma {:induction false} DueIsTracked(l: Ledger, a: Authorization, now: int)
    requires Watched(a) && DueAuthorization(l.tokens, a, now) && SoftMode(EvictionMode(l.tokens, a))
    ensures Tracked(RulesOf(l, now), a, now)
  {
    SameToken(l.tokens, a.tokenHash, now);
  }

  lemma {:induction false} DueLater(ts: seq<Token>, a: Authorization, now: int, later: int)
    requires DueAuthorization(ts, a, now) && now <= later
    ensures DueAuthorization(ts, a, later)
  {
    SameToken(ts, a.tokenHash, now);
    SameToken(ts, a.tokenHash, later);
  }

  /** A pass over the whole sample in which no lookup and no kill failed, no process was in the
      scope, and the scope's release, should it come to that, reaches the disk. */
  predicate QuietPass(w: World, o: Round, a: Authorization) {
    && o.reach >= |o.rows| && !o.killsFail
    && (forall i :: 0 <= i < |o.rows| ==> !FailsAt(o.env, RulesOf(w.ledger, o.env.now), o.rows, i) && Outside(o.env, o.rows[i], a))
    && !o.authorizationSave(a.id).NotRenamed?
  }

  /** A watched scope of a claimed or managed token that is due. */
  predicate Leaving(w: World, a: Authorization, now: int) {
    && a in w.ledger.authorizations && Watched(a) && DueAuthorization(w.ledger.tokens, a, now)
    && SoftMode(EvictionMode(w.ledger.tokens, a))
  }

  lemma {:induction false} QuietPassCleans(w: World, o: Round, a: Authorization)
    requires AuthorizationsDistinct(w.ledger) && Leaving(w, a, o.env.now) && QuietPass(w, o, a)
    ensures var p := Evicted(o.env, w.ledger, o.rows, o.reach, o.killsFail); !p.failed && CleanIn(p.assessment, AuthKey(a.id))
  {
    FailsExactly(o.env, w.ledger, o.rows, o.reach, o.killsFail);
    DueIsTracked(w.ledger, a, o.env.now);
    OutsideRows(o.env, RulesOf(w.ledger, o.env.now), o.rows, a);
  }

  lemma {:induction false} HeldBack(l: Ledger, clean: map<ScopeKey, nat>, o: Round, a: Authorization)
    requires AuthorizationsDistinct(l) && a in l.authorizations && Watched(a) && !Ready(clean, AuthKey(a.id))
    requires DueAuthorization(l.tokens, a, o.authorizationNow)
    ensures a in PassLedger(l, clean, o).authorizations && PassLedger(l, clean, o).tokens == l.tokens
  {
    KeptUpToPrune(l, clean, o, a);
    var i :| 0 <= i < |l.authorizations| && l.authorizations[i] == a;
    assert !NothingHeld(l, clean, o);
  }

  lemma {:induction false} StreakGrows(samples: seq<Assessment>, sample: Assessment, k: ScopeKey)
    requires CleanIn(sample, k)
    ensures Streak(samples + [sample], k) == Streak(samples, k) + 1
  {
    assert (samples + [sample])[..|samples|] == samples;
  }

  /** One such pass: one more clean sample, and the scope is dropped if that makes three. */
  lemma {:induction false} OneQuietPass(w: World, o: Round, a: Authorization)
    requires Consistent(w) && WithinBounds(w.ledger) && Possible(w, Pass(o)) && Leaving(w, a, o.env.now) && QuietPass(w, o, a)
    ensures var n := Next(w, Pass(o));
            && Streak(n.samples, AuthKey(a.id)) == Streak(w.samples, AuthKey(a.id)) + 1
            && (if Streak(n.samples, AuthKey(a.id)) >= CLEAN_SAMPLES then !StillActive(n.ledger, a.id) else Leaving(n, a, o.leaseNow))
  {
    var n := Next(w, Pass(o));
    var sample := Evicted(o.env, w.ledger, o.rows, o.reach, o.killsFail).assessment;
    QuietPassCleans(w, o, a);
    StreakGrows(w.samples, sample, AuthKey(a.id));
    DueLater(w.ledger.tokens, a, o.env.now, o.authorizationNow);
    DueLater(w.ledger.tokens, a, o.env.now, o.leaseNow);
    StreakMeaning(n.samples, AuthKey(a.id), CLEAN_SAMPLES);
    DueIsDroppedExactlyWhenClean(w, o, a);
    if Streak(n.samples, AuthKey(a.id)) < CLEAN_SAMPLES {
      RecordKeeps(w.clean, w.samples, sample);
      HeldBack(w.ledger, n.clean, o, a);
    }
  }

  /** Once dropped, a scope is not active again after a pass. */
  lemma {:induction false} DropStays(w: World, o: Round, id: string)
    requires ReservationsDistinct(w.ledger) && !StillActive(w.ledger, id)
    ensures !StillActive(Next(w, Pass(o)).ledger, id)
  {
    var n := Next(w, Pass(o));
    if StillActive(n.ledger, id) {
      var i :| 0 <= i < |n.ledger.authorizations| && n.ledger.authorizations[i].id == id && n.ledger.authorizations[i].active;
      PassEvolves(w.ledger, n.clean, o, n.ledger.authorizations[i]);
      assert false;
    }
  }

  /** From here on a scope is either dropped, or has been clean for at least this long and still is due. */
  predicate Underway(w: World, a: Authorization, streak: nat) {
    !StillActive(w.ledger, a.id) || (Leaving(w, a, w.clock) && Streak(w.samples, AuthKey(a.id)) >= streak)
  }

  lemma {:induction false} OnePassOn(w: World, o: Round, a: Authorization, streak: nat)
    requires Consistent(w) && WithinBounds(w.ledger) && Possible(w, Pass(o)) && Underway(w, a, streak) && QuietPass(w, o, a)
    ensures Consistent(Next(w, Pass(o))) && WithinBounds(Next(w, Pass(o)).ledger)
    ensures if streak + 1 >= CLEAN_SAMPLES then !StillActive(Next(w, Pass(o)).ledger, a.id) else Underway(Next(w, Pass(o)), a, streak + 1)
  {
    StepConsistent(w, Pass(o));
    StepInBounds(w, Pass(o));
    if StillActive(w.ledger, a.id) {
      DueLater(w.ledger.tokens, a, w.clock, o.env.now);
      OneQuietPass(w, o, a);
    } else {
      DropStays(w, o, a.id);
    }
  }

  /** Three consecutive quiet passes drop a due scope of a claimed or managed token. */
  lemma {:induction false} ThreeQuietPassesDrop(w: World, o1: Round, o2: Round, o3: Round, a: Authorization)
    requires Consistent(w) && WithinBounds(w.ledger) && Leaving(w, a, w.clock)
    requires Possible(w, Pass(o1)) && QuietPass(w, o1, a)
    requires var w1 := Next(w, Pass(o1));
             && Possible(w1, Pass(o2)) && QuietPass(w1, o2, a)
             && var w2 := Next(w1, Pass(o2)); Possible(w2, Pass(o3)) && QuietPass(w2, o3, a)
    ensures !StillActive(Next(Next(Next(w, Pass(o1)), Pass(o2)), Pass(o3)).ledger, a.id)
  {
    var w1 := Next(w, Pass(o1));
    OnePassOn(w, o1, a, 0);
    OnePassOn(w1, o2, a, 1);
    OnePassOn(Next(w1, Pass(o2)), o3, a, 2);
  }
}
