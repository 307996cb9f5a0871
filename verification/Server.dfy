/** The monitor as the daemon runs it: loops over the snapshot taken at the start of the pass,
    each write going to the store at once. */
module Server {
  import opened Seqs
  import opened Model
  import opened Operations
  import opened Scope
  import opened Kills
  import opened Enforce
  import opened Evict
  import opened Strays
  import opened Monitor
  import opened Claims
  import opened Store

  lemma CollectStep<T>(xs: seq<T>, i: nat, f: T -> seq<Event>)
    requires i < |xs|
    ensures Collect(xs[..i + 1], f) == Collect(xs[..i], f) + f(xs[i])
  {
    assert xs[..i + 1][..i] == xs[..i];
  }

  /** The store after a prefix of a list of writes, and whether all of them succeeded. */
  ghost predicate Performed(s: Store, start: Ledger, events: seq<Event>, ok: bool)
    reads s
  {
    s.Agrees() && s.state == Run(start, events) && ok == AllSucceed(start, events)
  }

  lemma NothingMore(start: Ledger, events: seq<Event>)
    ensures events + [] == events && Run(start, []) == start && AllSucceed(start, [])
  {
  }

  // ---------- Cleanup loops ----------

  method CleanupExpiredReservations(s: Store, l: Ledger, o: Round) returns (ok: bool)
    requires s.Agrees()
    modifies s
    ensures Performed(s, old(s.state), ReservationEvents(l, o), ok)
  {
    var f := ReservationEvent(o);
    ok := true;
    for i := 0 to |l.reservations|
      invariant Performed(s, old(s.state), Collect(l.reservations[..i], f), ok)
    {
      var r := l.reservations[i];
      CollectStep(l.reservations, i, f);
      NothingMore(old(s.state), Collect(l.reservations[..i], f));
      if DueReservation(r, o.reservationNow) {
        OneMoreEvent(old(s.state), Collect(l.reservations[..i], f), Event(ReleaseReservationOp(r.id), o.reservationSave(r.id)));
        var released := s.ReleaseReservation(r.id, o.reservationSave(r.id));
        ok := ok && released;
      }
    }
    assert l.reservations[..|l.reservations|] == l.reservations;
  }

  lemma Joined(start: Ledger, before: seq<Event>, more: seq<Event>)
    ensures Run(start, before + more) == Run(Run(start, before), more)
    ensures AllSucceed(start, before + more) <==> AllSucceed(start, before) && AllSucceed(Run(start, before), more)
  {
    RunAppend(start, before, more);
    AllSucceedAppend(start, before, more);
  }

  lemma One(start: Ledger, e: Event)
    ensures Run(start, [e]) == After(start, e.op, e.save) && AllSucceed(start, [e]) == Succeeds(start, e)
  {
    OneMoreEvent(start, [], e);
    assert [] + [e] == [e];
  }

  method CleanupAuthorization(s: Store, a: Authorization, ts: seq<Token>, clean: map<ScopeKey, nat>, now: int,
                              stopped: string -> bool, save: string -> SaveEnd) returns (held: bool, ok: bool)
    requires s.Agrees()
    modifies s
    ensures Performed(s, old(s.state), AuthorizationEvent(ts, clean, now, stopped, save)(a), ok)
    ensures held == (DueAuthorization(ts, a, now) && Held(clean, stopped, a))
  {
    NothingMore(s.state, []);
    if !DueAuthorization(ts, a, now) {
      return false, true;
    }
    if Held(clean, stopped, a) {
      return true, true;
    }
    One(s.state, Event(ReleaseAuthorizationOp(a.id), save(a.id)));
    held := false;
    ok := s.ReleaseAuthorization(a.id, save(a.id));
  }

  predicate AnyHeld(as': seq<Authorization>, ts: seq<Token>, clean: map<ScopeKey, nat>, now: int, stopped: string -> bool) {
    exists i :: 0 <= i < |as'| && DueAuthorization(ts, as'[i], now) && Held(clean, stopped, as'[i])
  }

  lemma HeldStep(as': seq<Authorization>, i: nat, ts: seq<Token>, clean: map<ScopeKey, nat>, now: int, stopped: string -> bool)
    requires i < |as'|
    ensures AnyHeld(as'[..i + 1], ts, clean, now, stopped)
            <==> AnyHeld(as'[..i], ts, clean, now, stopped) || (DueAuthorization(ts, as'[i], now) && Held(clean, stopped, as'[i]))
  {
    var more := as'[..i + 1];
    assert more[i] == as'[i] && forall j :: 0 <= j < i ==> more[j] == as'[..i][j];
    if AnyHeld(as'[..i], ts, clean, now, stopped) {
      var j :| 0 <= j < |as'[..i]| && DueAuthorization(ts, as'[..i][j], now) && Held(clean, stopped, as'[..i][j]);
      assert DueAuthorization(ts, more[j], now);
    }
  }

  /** Releases due authorizations, telling whether one had to be kept and whether all writes succeeded. */
  method CleanupExpiredAuthorizations(s: Store, as': seq<Authorization>, ts: seq<Token>, clean: map<ScopeKey, nat>, now: int,
                                      stopped: string -> bool, save: string -> SaveEnd) returns (held: bool, ok: bool)
    requires s.Agrees()
    modifies s
    ensures Performed(s, old(s.state), Collect(as', AuthorizationEvent(ts, clean, now, stopped, save)), ok)
    ensures held == AnyHeld(as', ts, clean, now, stopped)
  {
    var f := AuthorizationEvent(ts, clean, now, stopped, save);
    ok, held := true, false;
    for i := 0 to |as'|
      invariant Performed(s, old(s.state), Collect(as'[..i], f), ok)
      invariant held == AnyHeld(as'[..i], ts, clean, now, stopped)
    {
      CollectStep(as', i, f);
      Joined(old(s.state), Collect(as'[..i], f), f(as'[i]));
      var h, k := CleanupAuthorization(s, as'[i], ts, clean, now, stopped, save);
      HeldStep(as', i, ts, clean, now, stopped);
      held, ok := held || h, ok && k;
    }
    assert as'[..|as'|] == as';
  }

  method CleanupFinishedBareAuthorizations(s: Store, l: Ledger, o: Round)
    requires s.Agrees()
    modifies s
    ensures s.Agrees() && s.state == Run(old(s.state), BareEvents(l, o))
  {
    var f := BareEvent(o);
    for i := 0 to |l.authorizations|
      invariant s.Agrees() && s.state == Run(old(s.state), Collect(l.authorizations[..i], f))
    {
      var a := l.authorizations[i];
      CollectStep(l.authorizations, i, f);
      NothingMore(old(s.state), Collect(l.authorizations[..i], f));
      if a.active && a.mode == Bare && a.rootPID > 0 && o.finished(a.id) {
        OneMoreEvent(old(s.state), Collect(l.authorizations[..i], f), Event(ReleaseAuthorizationOp(a.id), o.bareSave(a.id)));
        var _ := s.ReleaseAuthorization(a.id, o.bareSave(a.id));
      }
    }
    assert l.authorizations[..|l.authorizations|] == l.authorizations;
  }

  method CleanupLease(s: Store, e: Lease, ts: seq<Token>, clean: map<ScopeKey, nat>, now: int,
                      stopped: string -> bool, save: string -> SaveEnd) returns (held: bool, ok: bool)
    requires s.Agrees()
    modifies s
    ensures Performed(s, old(s.state), LeaseEvent(ts, clean, now, stopped, save)(e), ok)
    ensures held == (DueLease(ts, e, now) && LeaseHeld(clean, stopped, e))
  {
    NothingMore(s.state, []);
    if !DueLease(ts, e, now) {
      return false, true;
    }
    if LeaseHeld(clean, stopped, e) {
      return true, true;
    }
    One(s.state, Event(ReleaseLeaseOp(e.id), save(e.id)));
    held := false;
    ok := s.ReleaseLease(e.id, save(e.id));
  }

  predicate AnyLeaseHeld(es: seq<Lease>, ts: seq<Token>, clean: map<ScopeKey, nat>, now: int, stopped: string -> bool) {
    exists i :: 0 <= i < |es| && DueLease(ts, es[i], now) && LeaseHeld(clean, stopped, es[i])
  }

  lemma LeaseHeldStep(es: seq<Lease>, i: nat, ts: seq<Token>, clean: map<ScopeKey, nat>, now: int, stopped: string -> bool)
    requires i < |es|
    ensures AnyLeaseHeld(es[..i + 1], ts, clean, now, stopped)
            <==> AnyLeaseHeld(es[..i], ts, clean, now, stopped) || (DueLease(ts, es[i], now) && LeaseHeld(clean, stopped, es[i]))
  {
    var more := es[..i + 1];
    assert more[i] == es[i] && forall j :: 0 <= j < i ==> more[j] == es[..i][j];
    if AnyLeaseHeld(es[..i], ts, clean, now, stopped) {
      var j :| 0 <= j < |es[..i]| && DueLease(ts, es[..i][j], now) && LeaseHeld(clean, stopped, es[..i][j]);
      assert DueLease(ts, more[j], now);
    }
  }

  method CleanupExpiredLeases(s: Store, es: seq<Lease>, ts: seq<Token>, clean: map<ScopeKey, nat>, now: int,
                              stopped: string -> bool, save: string -> SaveEnd) returns (held: bool, ok: bool)
    requires s.Agrees()
    modifies s
    ensures Performed(s, old(s.state), Collect(es, LeaseEvent(ts, clean, now, stopped, save)), ok)
    ensures held == AnyLeaseHeld(es, ts, clean, now, stopped)
  {
    var f := LeaseEvent(ts, clean, now, stopped, save);
    ok, held := true, false;
    for i := 0 to |es|
      invariant Performed(s, old(s.state), Collect(es[..i], f), ok)
      invariant held == AnyLeaseHeld(es[..i], ts, clean, now, stopped)
    {
      CollectStep(es, i, f);
      Joined(old(s.state), Collect(es[..i], f), f(es[i]));
      var h, k := CleanupLease(s, es[i], ts, clean, now, stopped, save);
      LeaseHeldStep(es, i, ts, clean, now, stopped);
      held, ok := held || h, ok && k;
    }
    assert es[..|es|] == es;
  }

  method CleanupFinishedBareLeases(s: Store, l: Ledger, o: Round)
    requires s.Agrees()
    modifies s
    ensures s.Agrees() && s.state == Run(old(s.state), BareLeaseEvents(l, o))
  {
    var f := BareLeaseEvent(o);
    for i := 0 to |l.leases|
      invariant s.Agrees() && s.state == Run(old(s.state), Collect(l.leases[..i], f))
    {
      var e := l.leases[i];
      CollectStep(l.leases, i, f);
      NothingMore(old(s.state), Collect(l.leases[..i], f));
      if e.active && e.mode == Bare && e.rootPID > 0 && o.leaseFinished(e.id) {
        OneMoreEvent(old(s.state), Collect(l.leases[..i], f), Event(ReleaseLeaseOp(e.id), o.bareLeaseSave(e.id)));
        var _ := s.ReleaseLease(e.id, o.bareLeaseSave(e.id));
      }
    }
    assert l.leases[..|l.leases|] == l.leases;
  }

  /** Makes the claim changes that a list of decisions asks for. */
  method ApplyClaims(s: Store, ds: seq<Decision>, o: Round)
    requires s.Agrees()
    modifies s
    ensures s.Agrees() && s.state == Run(old(s.state), Collect(ds, ClaimEvent(o)))
  {
    var f := ClaimEvent(o);
    for i := 0 to |ds|
      invariant s.Agrees() && s.state == Run(old(s.state), Collect(ds[..i], f))
    {
      CollectStep(ds, i, f);
      NothingMore(old(s.state), Collect(ds[..i], f));
      match ds[i] {
        case Claim(c) =>
          OneMoreEvent(old(s.state), Collect(ds[..i], f), Event(UpsertClaimOp(c, o.freshClaim(c.gpu)), o.claimSave(ds[i])));
          var _ := s.UpsertSoftClaim(c, o.freshClaim(c.gpu), o.claimSave(ds[i]));
        case Release(id) =>
          OneMoreEvent(old(s.state), Collect(ds[..i], f), Event(ReleaseClaimOp(id), o.claimSave(ds[i])));
          var _ := s.ReleaseSoftClaim(id, o.claimSave(ds[i]));
        case _ =>
      }
    }
    assert ds[..|ds|] == ds;
  }

  // ---------- The passes ----------

  /** The counters after some of the sample's scopes were counted. */
  ghost predicate Partly(was: map<ScopeKey, nat>, is': map<ScopeKey, nat>, a: Assessment, seen: set<ScopeKey>) {
    forall k :: if k in seen then k in is' && is'[k] == (if CleanIn(a, k) then Count(was, k) + 1 else 0) else Same(was, is', k)
  }

  predicate Same(was: map<ScopeKey, nat>, is': map<ScopeKey, nat>, k: ScopeKey) {
    (k in is' <==> k in was) && (k in was ==> is'[k] == was[k])
  }

  lemma PartlyStep(was: map<ScopeKey, nat>, is': map<ScopeKey, nat>, a: Assessment, seen: set<ScopeKey>, k: ScopeKey)
    requires Partly(was, is', a, seen) && k !in seen
    ensures Partly(was, is'[k := if CleanIn(a, k) then Count(is', k) + 1 else 0], a, seen + {k})
  {
    assert Same(was, is', k);
    forall j | j !in seen + {k} ensures Same(was, is'[k := if CleanIn(a, k) then Count(is', k) + 1 else 0], j) {
      assert Same(was, is', j);
    }
  }

  /** Counts each of these scopes, in whatever order the map gives them. */
  method CountSample(was: map<ScopeKey, nat>, a: Assessment, keys: set<ScopeKey>) returns (m: map<ScopeKey, nat>)
    ensures Partly(was, m, a, keys)
  {
    m := was;
    var todo := keys;
    assert keys - todo == {};
    while todo != {}
      invariant todo <= keys && Partly(was, m, a, keys - todo)
      decreases |todo|
    {
      var k :| k in todo;
      PartlyStep(was, m, a, keys - todo, k);
      m := m[k := if CleanIn(a, k) then Count(m, k) + 1 else 0];
      assert keys - (todo - {k}) == keys - todo + {k};
      todo := todo - {k};
    }
    assert keys - todo == keys;
  }

  lemma PartlyDone(was: map<ScopeKey, nat>, is': map<ScopeKey, nat>, a: Assessment)
    requires Partly(was, is', a, KeysOf(a))
    ensures (map k | k in is' && k in KeysOf(a) :: is'[k]) == Record(was, a)
  {
  }

  class Server {
    const store: Store
    var evictionClean: map<ScopeKey, nat>

    constructor (store: Store)
      ensures this.store == store && evictionClean == map[]
    {
      this.store, evictionClean := store, map[];
    }

    /** Counts clean samples per scope and forgets the scopes this sample does not mention. */
    method RecordEvictionAssessment(a: Assessment)
      modifies this`evictionClean
      ensures evictionClean == Record(old(evictionClean), a)
    {
      ghost var was := evictionClean;
      var seen := KeysOf(a);
      evictionClean := CountSample(evictionClean, a, seen);
      PartlyDone(was, evictionClean, a);
      evictionClean := map k | k in evictionClean && k in seen :: evictionClean[k];
    }

    /** The writes of a pass after the claims, and whether pruning may follow. */
    method Cleanup(l: Ledger, o: Round) returns (ok: bool)
      requires store.Agrees() && store.state == Run(l, ClaimEvents(l, o))
      modifies store
      ensures store.Agrees() && store.state == BeforePrune(l, evictionClean, o)
      ensures ok == CleanupOK(l, evictionClean, o)
    {
      var clean := evictionClean;
      ghost var l1 := store.state;
      var ok1 := CleanupExpiredReservations(store, l, o);
      ghost var l2 := store.state;
      var held2, ok2 := CleanupExpiredAuthorizations(store, l.authorizations, l.tokens, clean, o.authorizationNow, o.stopped, o.authorizationSave);
      CleanupFinishedBareAuthorizations(store, l, o);
      ghost var l4 := store.state;
      var held3, ok3 := CleanupExpiredLeases(store, l.leases, l.tokens, clean, o.leaseNow, o.stopped, o.leaseSave);
      CleanupFinishedBareLeases(store, l, o);
      ok := ok1 && ok2 && ok3 && !held2 && !held3;
      CleanupJoins(l1, l, clean, o);
    }

    /** One pass with a sample: evict, count, enforce on the rest, update claims, clean up, prune. */
    method MonitorOnce(o: Round) returns (evicted: seq<Decision>, enforced: seq<Decision>)
      requires store.Agrees() && VisitOrder(EnforceEnv(o), store.state, Remaining(store.state, o), o.order)
      modifies this`evictionClean, store
      ensures store.Agrees() && store.state == PassLedger(old(store.state), evictionClean, o)
      ensures evictionClean == Record(old(evictionClean), Evicted(o.env, old(store.state), o.rows, o.reach, o.killsFail).assessment)
      ensures evicted == Settled(Evicted(o.env, old(store.state), o.rows, o.reach, o.killsFail).wishes, o.dryRun)
      ensures enforced == EnforceDecisions(old(store.state), o)
    {
      var l := store.state;
      var assessment, failed;
      assessment, evicted, failed := EvictExpired(o.env, l, o.rows, o.reach, o.killsFail, o.dryRun);
      RecordEvictionAssessment(assessment);
      var rows := RemainingRows(l, o, evicted);
      var pending;
      enforced, pending := EnforcePass(EnforceEnv(o), l, rows, o.order, o.deadline, o.dryRun);
      ApplyClaims(store, enforced, o);
      var ok := Cleanup(l, o);
      if !failed && ok {
        var _ := store.Prune(o.now, o.pruneSave);
      }
    }

    /** One pass without a sample: only managed cgroups are cleaned up. */
    method CleanupExpiredManagedCgroups(o: Outage)
      requires store.Agrees()
      modifies store
      ensures store.Agrees() && store.state == OutageLedger(old(store.state), evictionClean, o)
    {
      var l := store.state;
      var as' := FilterSlice(l.authorizations, InCgroup());
      var es := FilterSlice(l.leases, LeaseInCgroup());
      var _, _ := CleanupExpiredAuthorizations(store, as', l.tokens, evictionClean, o.authorizationNow, o.stopped, o.authorizationSave);
      ghost var mid := store.state;
      var _, _ := CleanupExpiredLeases(store, es, l.tokens, evictionClean, o.leaseNow, o.stopped, o.leaseSave);
      RunAppend(l, Collect(as', AuthorizationEvent(l.tokens, evictionClean, o.authorizationNow, o.stopped, o.authorizationSave)),
                Collect(es, LeaseEvent(l.tokens, evictionClean, o.leaseNow, o.stopped, o.leaseSave)));
      var l1 := store.state;
      var _ := store.PruneInactiveManagedScopes(Removable(l1, o), RemovableLeases(l1, o), o.scopeSave);
      var _ := store.PruneUnreferencedInvalidEntitlements(o.now, o.clearSave);
    }
  }

  lemma CleanupJoins(start: Ledger, l: Ledger, clean: map<ScopeKey, nat>, o: Round)
    ensures Run(start, CleanupEvents(l, clean, o))
            == Run(Run(Run(Run(Run(start, ReservationEvents(l, o)), AuthorizationEvents(l, clean, o)), BareEvents(l, o)),
                       LeaseEvents(l, clean, o)), BareLeaseEvents(l, o))
  {
    var a, b, c, d, e := ReservationEvents(l, o), AuthorizationEvents(l, clean, o), BareEvents(l, o), LeaseEvents(l, clean, o), BareLeaseEvents(l, o);
    RunAppend(start, a, b);
    RunAppend(start, a + b, c);
    RunAppend(start, a + b + c, d);
    RunAppend(start, a + b + c + d, e);
  }

  /** The pids of a list of decisions about rows. */
  function DecidedPIDs(ds: seq<Decision>): set<int> {
    set i | 0 <= i < |ds| && (ds[i].Kill? || ds[i].Skip?) && ds[i].row.pid > 0 :: ds[i].row.pid
  }

  /** Takes the rows of every pid that eviction decided about out of the sample. */
  method RemainingRows(l: Ledger, o: Round, evicted: seq<Decision>) returns (rows: seq<Row>)
    requires evicted == Settled(Evicted(o.env, l, o.rows, o.reach, o.killsFail).wishes, o.dryRun)
    ensures rows == Remaining(l, o)
  {
    var targeted := DecidedPIDs(evicted);
    ghost var ws := Evicted(o.env, l, o.rows, o.reach, o.killsFail).wishes;
    DecidedAreTargets(l, o, evicted);
    rows := FilterSlice(o.rows, (row: Row) => row.pid !in targeted);
    SameFilter(o.rows, (row: Row) => row.pid !in targeted, Untargeted(ws));
  }

  lemma {:induction false} SettledTargets(ws: seq<Decision>, dryRun: bool)
    requires forall i :: 0 <= i < |ws| ==> ws[i].Kill? && ws[i].row.pid > 0
    ensures DecidedPIDs(Settled(ws, dryRun)) == Targets(ws)
  {
    var ds := Settled(ws, dryRun);
    forall i | 0 <= i < |ws| ensures (ds[i].Kill? || ds[i].Skip?) && ds[i].row == ws[i].row {
      SettledAt(ws, dryRun, i);
    }
    forall pid ensures pid in DecidedPIDs(ds) <==> pid in Targets(ws) {
      TargetsMember(ws, pid);
    }
  }

  lemma {:induction false} DecidedAreTargets(l: Ledger, o: Round, evicted: seq<Decision>)
    requires evicted == Settled(Evicted(o.env, l, o.rows, o.reach, o.killsFail).wishes, o.dryRun)
    ensures DecidedPIDs(evicted) == Targets(Evicted(o.env, l, o.rows, o.reach, o.killsFail).wishes)
  {
    var ws := Evicted(o.env, l, o.rows, o.reach, o.killsFail).wishes;
    OnlyStraysAreEvicted(o.env, l, o.rows, o.reach, o.killsFail);
    forall i | 0 <= i < |ws| ensures ws[i].Kill? && ws[i].row.pid > 0 {
      assert MayEvict(o.env, RulesOf(l, o.env.now), ws[i].row);
    }
    SettledTargets(ws, o.dryRun);
  }
}
