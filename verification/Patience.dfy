/** The daemon never loses sight of a straggler: a scope that names processes outside managed
    cgroups is dropped only after three clean samples in a row. */
module Patience {
  import opened Seqs
  import opened Model
  import opened Operations
  import opened Lifecycles
  import opened Scope
  import opened Kills
  import opened Enforce
  import opened Exclusivity
  import opened Evict
  import opened Integrity
  import opened Monitor
  import opened Claims

  // ---------- Counters ----------

  ghost predicate CountersAgree(w: World) {
    forall k :: Count(w.clean, k) == Streak(w.samples, k)
  }

  lemma {:induction false} RecordKeeps(clean: map<ScopeKey, nat>, samples: seq<Assessment>, a: Assessment)
    requires forall k :: Count(clean, k) == Streak(samples, k)
    ensures forall k :: Count(Record(clean, a), k) == Streak(samples + [a], k)
  {
    forall k ensures Count(Record(clean, a), k) == Streak(samples + [a], k) {
      assert (samples + [a])[..|samples|] == samples;
      assert CleanIn(a, k) ==> k in KeysOf(a);
    }
  }

  /** The scope was clean in each of the last `n` samples. */
  predicate CleanForLast(samples: seq<Assessment>, k: ScopeKey, n: nat) {
    |samples| >= n && forall j :: |samples| - n <= j < |samples| ==> CleanIn(samples[j], k)
  }

  lemma {:induction false} StreakMeaning(samples: seq<Assessment>, k: ScopeKey, n: nat)
    ensures Streak(samples, k) >= n <==> CleanForLast(samples, k, n)
  {
    if samples != [] && n > 0 {
      StreakMeaning(samples[..|samples| - 1], k, n - 1);
    }
  }

  // ---------- What the writes of a pass leave alone ----------

  /** The write does not release the authorization with this id. */
  predicate Spares(op: Op, id: string) {
    || op.UpsertClaimOp? || op.ReleaseClaimOp? || op.ReleaseReservationOp? || op.ReleaseLeaseOp?
    || (op.ReleaseAuthorizationOp? && op.id != id)
  }

  lemma {:induction false} ReleaseOther(l: Ledger, id: string, save: SaveEnd, a: Authorization)
    requires a in l.authorizations && a.id != id
    ensures a in After(l, ReleaseAuthorizationOp(id), save).authorizations
  {
    var i :| 0 <= i < |l.authorizations| && l.authorizations[i] == a;
    assert After(l, ReleaseAuthorizationOp(id), save).authorizations[i] == a;
  }

  lemma {:induction false} SparedStep(l: Ledger, e: Event, a: Authorization)
    requires a in l.authorizations && Spares(e.op, a.id)
    ensures a in After(l, e.op, e.save).authorizations && After(l, e.op, e.save).tokens == l.tokens
  {
    if e.op.ReleaseAuthorizationOp? {
      ReleaseOther(l, e.op.id, e.save, a);
    }
  }

  lemma {:induction false} SparedRun(l: Ledger, events: seq<Event>, a: Authorization)
    requires a in l.authorizations && forall e :: e in events ==> Spares(e.op, a.id)
    ensures a in Run(l, events).authorizations && Run(l, events).tokens == l.tokens
  {
    if events != [] {
      var n := |events| - 1;
      SparedRun(l, events[..n], a);
      assert events[n] in events;
      SparedStep(Run(l, events[..n]), events[n], a);
    }
  }

  predicate PassWrite(op: Op) {
    op.UpsertClaimOp? || op.ReleaseClaimOp? || op.ReleaseReservationOp? || op.ReleaseLeaseOp? || op.ReleaseAuthorizationOp?
  }

  lemma {:induction false} OverStep(l: Ledger, e: Event, id: string, clock: int)
    requires Over(l, id, clock) && PassWrite(e.op)
    ensures Over(After(l, e.op, e.save), id, clock)
  {
  }

  lemma {:induction false} OverRun(l: Ledger, events: seq<Event>, id: string, clock: int)
    requires Over(l, id, clock) && forall e :: e in events ==> PassWrite(e.op)
    ensures Over(Run(l, events), id, clock)
  {
    if events != [] {
      var n := |events| - 1;
      OverRun(l, events[..n], id, clock);
      assert events[n] in events;
      OverStep(Run(l, events[..n]), events[n], id, clock);
    }
  }

  /** A write of the cleanup: a release, of a reservation only when it is over. */
  predicate CleanupWrite(l: Ledger, op: Op, clock: int) {
    AlwaysAllowed(op) || (op.ReleaseReservationOp? && Over(l, op.id, clock))
  }

  lemma {:induction false} ReleasesSound(l: Ledger, events: seq<Event>, clock: int)
    requires Sound(l, clock) && forall e :: e in events ==> CleanupWrite(l, e.op, clock)
    ensures Sound(Run(l, events), clock)
  {
    if events != [] {
      var n := |events| - 1;
      ReleasesSound(l, events[..n], clock);
      var e := events[n];
      assert e in events;
      if e.op.ReleaseReservationOp? {
        forall x | x in events[..n] ensures PassWrite(x.op) {
          assert x in events;
        }
        OverRun(l, events[..n], e.op.id, clock);
      }
      StepSound(Run(l, events[..n]), e.op, e.save, clock);
    }
  }

  lemma {:induction false} DueIsOver(l: Ledger, r: Reservation, now: int, clock: int)
    requires ReservationsDistinct(l) && r in l.reservations && DueReservation(r, now) && now <= clock
    ensures Over(l, r.id, clock)
  {
    var j :| 0 <= j < |l.reservations| && l.reservations[j] == r;
    assert forall i :: 0 <= i < |l.reservations| && l.reservations[i].id == r.id ==> i == j;
  }

  lemma {:induction false} CleanupReleases(l: Ledger, clean: map<ScopeKey, nat>, o: Round, clock: int, e: Event)
    requires ReservationsDistinct(l) && o.reservationNow <= clock && e in CleanupEvents(l, clean, o)
    ensures CleanupWrite(l, e.op, clock)
  {
    if e in ReservationEvents(l, o) {
      CollectMember(l.reservations, ReservationEvent(o), e);
      var r :| r in l.reservations && e in ReservationEvent(o)(r);
      DueIsOver(l, r, o.reservationNow, clock);
    } else if e in AuthorizationEvents(l, clean, o) {
      CollectMember(l.authorizations, AuthorizationEvent(l.tokens, clean, o.authorizationNow, o.stopped, o.authorizationSave), e);
    } else if e in BareEvents(l, o) {
      CollectMember(l.authorizations, BareEvent(o), e);
    } else if e in LeaseEvents(l, clean, o) {
      CollectMember(l.leases, LeaseEvent(l.tokens, clean, o.leaseNow, o.stopped, o.leaseSave), e);
    } else {
      CollectMember(l.leases, BareLeaseEvent(o), e);
    }
  }

  /** Claim writes leave everything else alone. */
  lemma {:induction false} ClaimLeavesRest(l: Ledger, e: Event)
    requires e.op.UpsertClaimOp? || e.op.ReleaseClaimOp?
    ensures After(l, e.op, e.save) == l.(claims := After(l, e.op, e.save).claims)
  {
  }

  lemma {:induction false} ClaimsLeaveRest(l: Ledger, events: seq<Event>)
    requires forall e :: e in events ==> e.op.UpsertClaimOp? || e.op.ReleaseClaimOp?
    ensures Run(l, events) == l.(claims := Run(l, events).claims)
  {
    if events != [] {
      var n := |events| - 1;
      ClaimsLeaveRest(l, events[..n]);
      assert events[n] in events;
      ClaimLeavesRest(Run(l, events[..n]), events[n]);
    }
  }

  lemma {:induction false} ClaimEventOps(l: Ledger, o: Round, e: Event)
    requires e in ClaimEvents(l, o)
    ensures e.op.UpsertClaimOp? || e.op.ReleaseClaimOp?
  {
    ClaimEventOp(EnforceDecisions(l, o), o, e);
  }

  lemma {:induction false} ClaimEventOp(ds: seq<Decision>, o: Round, e: Event)
    requires e in Collect(ds, ClaimEvent(o))
    ensures e.op.UpsertClaimOp? || e.op.ReleaseClaimOp?
  {
    CollectMember(ds, ClaimEvent(o), e);
    var d :| d in ds && e in ClaimEvent(o)(d);
  }

  /** Everything a pass writes before it prunes keeps the ledger sound. */
  lemma {:induction false} BeforePruneSound(l: Ledger, clean: map<ScopeKey, nat>, o: Round, clock: int)
    requires Sound(l, clock) && FreshClaims(l, o.freshClaim) && NoRepeats(o.order) && o.reservationNow <= clock
    ensures Sound(BeforePrune(l, clean, o), clock)
  {
    var l1 := Run(l, ClaimEvents(l, o));
    ClaimEventsSound(l, o, clock);
    forall e | e in ClaimEvents(l, o) ensures e.op.UpsertClaimOp? || e.op.ReleaseClaimOp? {
      ClaimEventOps(l, o, e);
    }
    ClaimsLeaveRest(l, ClaimEvents(l, o));
    forall e | e in CleanupEvents(l, clean, o) ensures CleanupWrite(l1, e.op, clock) {
      CleanupReleases(l, clean, o, clock, e);
    }
    ReleasesSound(l1, CleanupEvents(l, clean, o), clock);
  }

  // ---------- A pass with a sample ----------

  /** A scope found through process samples only. */
  predicate Watched(a: Authorization) {
    a.active && a.mode != Bare && a.cgroupPath == ""
  }

  predicate StillActive(l: Ledger, id: string) {
    exists i :: 0 <= i < |l.authorizations| && l.authorizations[i].id == id && l.authorizations[i].active
  }

  lemma {:induction false} SameIDSame(l: Ledger, a: Authorization, b: Authorization)
    requires AuthorizationsDistinct(l) && a in l.authorizations && b in l.authorizations && a.id == b.id
    ensures a == b
  {
    var i :| 0 <= i < |l.authorizations| && l.authorizations[i] == a;
    var j :| 0 <= j < |l.authorizations| && l.authorizations[j] == b;
  }

  lemma {:induction false} CleanupSpares(l: Ledger, clean: map<ScopeKey, nat>, o: Round, a: Authorization, e: Event)
    requires AuthorizationsDistinct(l) && a in l.authorizations && Watched(a) && !Ready(clean, AuthKey(a.id))
    requires e in CleanupEvents(l, clean, o)
    ensures Spares(e.op, a.id)
  {
    if e in ReservationEvents(l, o) {
      CollectMember(l.reservations, ReservationEvent(o), e);
    } else if e in AuthorizationEvents(l, clean, o) {
      var f := AuthorizationEvent(l.tokens, clean, o.authorizationNow, o.stopped, o.authorizationSave);
      CollectMember(l.authorizations, f, e);
      var b :| b in l.authorizations && e in f(b);
      assert e.op == ReleaseAuthorizationOp(b.id) && !Held(clean, o.stopped, b);
      if b.id == a.id {
        SameIDSame(l, a, b);
      }
    } else if e in BareEvents(l, o) {
      CollectMember(l.authorizations, BareEvent(o), e);
      var b :| b in l.authorizations && e in BareEvent(o)(b);
      if b.id == a.id {
        SameIDSame(l, a, b);
      }
    } else if e in LeaseEvents(l, clean, o) {
      CollectMember(l.leases, LeaseEvent(l.tokens, clean, o.leaseNow, o.stopped, o.leaseSave), e);
    } else {
      CollectMember(l.leases, BareLeaseEvent(o), e);
    }
  }

  /** Up to pruning, a pass does not touch a watched scope that is not ready. */
  lemma {:induction false} KeptUpToPrune(l: Ledger, clean: map<ScopeKey, nat>, o: Round, a: Authorization)
    requires AuthorizationsDistinct(l) && a in l.authorizations && Watched(a) && !Ready(clean, AuthKey(a.id))
    ensures a in BeforePrune(l, clean, o).authorizations && BeforePrune(l, clean, o).tokens == l.tokens
  {
    forall e | e in ClaimEvents(l, o) ensures Spares(e.op, a.id) {
      ClaimEventOps(l, o, e);
    }
    SparedRun(l, ClaimEvents(l, o), a);
    forall e | e in CleanupEvents(l, clean, o) ensures Spares(e.op, a.id) {
      CleanupSpares(l, clean, o, a, e);
    }
    SparedRun(Run(l, ClaimEvents(l, o)), CleanupEvents(l, clean, o), a);
  }

  lemma {:induction false} UsableHash(ts: seq<Token>, hash: string, now: int)
    requires HashUsable(ts, hash, now)
    ensures exists m :: 0 <= m < |ts| && ts[m].hash == hash && TokenUsable(ts[m], now)
  {
    var n := |ts| - 1;
    if ts[n].hash != hash {
      UsableHash(ts[..n], hash, now);
      var m :| 0 <= m < n && ts[..n][m].hash == hash && TokenUsable(ts[..n][m], now);
      assert ts[m] == ts[..n][m];
    }
  }

  /** Behind a token that is still usable at the later time stands a live reservation at the earlier one. */
  lemma {:induction false} UsableTokenStays(l: Ledger, m: nat, now: int, clock: int)
    requires Sound(l, clock) && m < |l.tokens| && now <= clock && TokenUsable(l.tokens[m], clock)
    ensures !TokenGone(l.tokens[m], l.reservations, now)
  {
    var t := l.tokens[m];
    assert TokenFits(l.managedKeys, t) && BackedToken(l.reservations, t, clock);
    if t.mode == Reserved {
      var i :| 0 <= i < |l.reservations| && Behind(l.reservations[i], t);
      assert LiveHash(l.reservations, t.hash, now);
    }
  }

  lemma {:induction false} ValidHashStays(l: Ledger, hash: string, now: int, clock: int)
    requires Sound(l, clock) && now <= clock && HashValid(l.tokens, hash, clock)
    ensures !HashGone(l.tokens, l.reservations, hash, now)
  {
    if hash != "" {
      UsableHash(l.tokens, hash, clock);
      var m :| 0 <= m < |l.tokens| && l.tokens[m].hash == hash && TokenUsable(l.tokens[m], clock);
      UsableTokenStays(l, m, now, clock);
      OnlyToken(l, m, now);
    }
  }

  /** Pruning at an earlier instant keeps what was valid at a later one. */
  lemma {:induction false} PruneKeepsValid(l: Ledger, a: Authorization, now: int, clock: int, save: SaveEnd)
    requires Sound(l, clock) && now <= clock && a in l.authorizations && a.active && !DueAuthorization(l.tokens, a, clock)
    ensures a in After(l, PruneOp(now), save).authorizations
  {
    ValidHashStays(l, a.tokenHash, now, clock);
    assert KeepAuthorization(l, now)(a);
    PruneKeepsChosen(l, a, now, save);
  }

  lemma {:induction false} PruneKeepsChosen(l: Ledger, a: Authorization, now: int, save: SaveEnd)
    requires a in l.authorizations && KeepAuthorization(l, now)(a)
    ensures a in After(l, PruneOp(now), save).authorizations
  {
    FilterMembers(l.authorizations, KeepAuthorization(l, now));
  }

  lemma {:induction false} PassKeeps(l: Ledger, clean: map<ScopeKey, nat>, o: Round, a: Authorization)
    requires Sound(l, o.authorizationNow) && FreshClaims(l, o.freshClaim) && NoRepeats(o.order)
    requires o.now <= o.reservationNow <= o.authorizationNow
    requires a in l.authorizations && Watched(a) && !Ready(clean, AuthKey(a.id))
    ensures a in PassLedger(l, clean, o).authorizations
  {
    var done := BeforePrune(l, clean, o);
    KeptUpToPrune(l, clean, o, a);
    if CleanupOK(l, clean, o) {
      BeforePruneSound(l, clean, o, o.authorizationNow);
      var i :| 0 <= i < |l.authorizations| && l.authorizations[i] == a;
      assert !DueAuthorization(l.tokens, l.authorizations[i], o.authorizationNow);
      PruneKeepsValid(done, a, o.now, o.authorizationNow, o.pruneSave);
    }
  }

  // ---------- Other steps ----------

  lemma {:induction false} OutageSpares(l: Ledger, clean: map<ScopeKey, nat>, o: Outage, a: Authorization, e: Event)
    requires AuthorizationsDistinct(l) && a in l.authorizations && Watched(a) && e in OutageEvents(l, clean, o)
    ensures Spares(e.op, a.id) && AlwaysAllowed(e.op)
  {
    var as', es := Filter(l.authorizations, InCgroup()), Filter(l.leases, LeaseInCgroup());
    var f := AuthorizationEvent(l.tokens, clean, o.authorizationNow, o.stopped, o.authorizationSave);
    var g := LeaseEvent(l.tokens, clean, o.leaseNow, o.stopped, o.leaseSave);
    if e in Collect(as', f) {
      CollectMember(as', f, e);
      var b :| b in as' && e in f(b);
      FilterMembers(l.authorizations, InCgroup());
      if b.id == a.id {
        SameIDSame(l, a, b);
      }
    } else {
      CollectMember(es, g, e);
    }
  }

  /** A pass without a sample never touches a watched scope. */
  lemma {:induction false} OutageKeeps(l: Ledger, clean: map<ScopeKey, nat>, o: Outage, a: Authorization)
    requires AuthorizationsDistinct(l) && a in l.authorizations && Watched(a)
    ensures a in OutageLedger(l, clean, o).authorizations
  {
    var events := OutageEvents(l, clean, o);
    forall e | e in events ensures Spares(e.op, a.id) {
      OutageSpares(l, clean, o, a, e);
    }
    SparedRun(l, events, a);
    var l1 := Run(l, events);
    ScopePruneKeeps(l1, Removable(l1, o), RemovableLeases(l1, o), o.scopeSave, a);
    ClearingLeavesScopes(After(l1, PruneManagedScopesOp(Removable(l1, o), RemovableLeases(l1, o)), o.scopeSave), o.now, o.clearSave);
  }

  lemma {:induction false} ClearingLeavesScopes(l: Ledger, now: int, save: SaveEnd)
    ensures After(l, PruneUnreferencedOp(now), save).authorizations == l.authorizations
  {
  }

  lemma {:induction false} ScopePruneKeeps(l: Ledger, ids: set<string>, leaseIDs: set<string>, save: SaveEnd, a: Authorization)
    requires a in l.authorizations && a.active
    ensures a in After(l, PruneManagedScopesOp(ids, leaseIDs), save).authorizations
  {
    FilterMembers(l.authorizations, KeepScope(ids));
  }

  lemma {:induction false} RevokeKeepsActive(l: Ledger, name: string, hashOfX: string, now: int, i: nat)
    requires i < |l.authorizations| && Revoke(l, name, hashOfX, now).Saved?
    ensures var n := Revoke(l, name, hashOfX, now).ledger.authorizations;
            |n| == |l.authorizations| && n[i].id == l.authorizations[i].id && n[i].active == l.authorizations[i].active
  {
    var how := RevokeShape(l, name, hashOfX, now);
    RevokedKeepsActive(l, Revoke(l, name, hashOfX, now).ledger, how, i);
  }

  lemma {:induction false} RevokedKeepsActive(l: Ledger, n: Ledger, how: Revocation, i: nat)
    requires RevokedTo(l, n, how) && i < |l.authorizations|
    ensures |n.authorizations| == |l.authorizations|
    ensures n.authorizations[i].id == l.authorizations[i].id && n.authorizations[i].active == l.authorizations[i].active
  {
  }

  /** No request served between passes drops a watched scope. */
  lemma {:induction false} ServeKeeps(l: Ledger, op: Op, save: SaveEnd, a: Authorization)
    requires Served(l, op) && a in l.authorizations && Watched(a)
    ensures StillActive(After(l, op, save), a.id)
  {
    var i :| 0 <= i < |l.authorizations| && l.authorizations[i] == a;
    var n := After(l, op, save).authorizations;
    match op
    case RevokeOp(_, _, _) =>
      if Apply(l, op).Saved? {
        RevokeKeepsActive(l, op.name, op.hashOfX, op.now, i);
      }
      assert n[i].active && n[i].id == a.id;
    case ReleaseAuthorizationOp(id) => ReleaseOther(l, id, save, a); StillThere(After(l, op, save), a);
    case AddAuthorizationOp(_, _) => assert n[i] == a;
    case ActivateOp(_, _) => assert n[i].active && n[i].id == a.id;
    case RegisterSoftOp(_, _, _) => assert n[i] == a;
    case RegisterOp(_, _) => assert n[i] == a;
    case RegisterManagedOp(_, _, _) => assert n[i] == a;
    case SyncKeysOp(_, _, _) => assert n[i] == a;
    case AddBypassOp(_) => assert n[i] == a;
  }

  lemma {:induction false} StillThere(l: Ledger, a: Authorization)
    requires a in l.authorizations && a.active
    ensures StillActive(l, a.id)
  {
    var i :| 0 <= i < |l.authorizations| && l.authorizations[i] == a;
  }

  // ---------- Runs ----------

  ghost predicate Consistent(w: World) {
    Sound(w.ledger, w.clock) && CountersAgree(w)
  }

  lemma {:induction false} OutageSound(w: World, o: Outage)
    requires Sound(w.ledger, w.clock) && w.clock <= o.now
    ensures Sound(OutageLedger(w.ledger, w.clean, o), o.now)
  {
    var l, events := w.ledger, OutageEvents(w.ledger, w.clean, o);
    LaterSound(l, w.clock, o.now);
    forall e | e in events ensures AlwaysAllowed(e.op) {
      OutageAllowed(l, w.clean, o, e);
    }
    AllowedSound(l, events, o.now);
    var l1 := Run(l, events);
    var scopes := PruneManagedScopesOp(Removable(l1, o), RemovableLeases(l1, o));
    StepSound(l1, scopes, o.scopeSave, o.now);
    StepSound(After(l1, scopes, o.scopeSave), PruneUnreferencedOp(o.now), o.clearSave, o.now);
  }

  lemma {:induction false} OutageAllowed(l: Ledger, clean: map<ScopeKey, nat>, o: Outage, e: Event)
    requires e in OutageEvents(l, clean, o)
    ensures AlwaysAllowed(e.op) && LeavesClaims(e.op)
  {
    var as', es := Filter(l.authorizations, InCgroup()), Filter(l.leases, LeaseInCgroup());
    var f := AuthorizationEvent(l.tokens, clean, o.authorizationNow, o.stopped, o.authorizationSave);
    if e in Collect(as', f) {
      CollectMember(as', f, e);
    } else {
      CollectMember(es, LeaseEvent(l.tokens, clean, o.leaseNow, o.stopped, o.leaseSave), e);
    }
  }

  lemma {:induction false} PassSound(w: World, o: Round)
    requires Sound(w.ledger, w.clock) && Possible(w, Pass(o))
    ensures Sound(Next(w, Pass(o)).ledger, o.leaseNow)
  {
    var l, clean := w.ledger, Next(w, Pass(o)).clean;
    LaterSound(l, w.clock, o.leaseNow);
    BeforePruneSound(l, clean, o, o.leaseNow);
    StepSound(BeforePrune(l, clean, o), PruneOp(o.now), o.pruneSave, o.leaseNow);
  }

  lemma {:induction false} StepConsistent(w: World, step: Step)
    requires Consistent(w) && Possible(w, step)
    ensures Consistent(Next(w, step))
  {
    match step
    case Serve(op, save, now) =>
      LaterSound(w.ledger, w.clock, now);
      StepSound(w.ledger, op, save, now);
    case Pass(o) =>
      PassSound(w, o);
      RecordKeeps(w.clean, w.samples, Evicted(o.env, w.ledger, o.rows, o.reach, o.killsFail).assessment);
    case Blind(o) =>
      OutageSound(w, o);
    case Restart(now) =>
      LaterSound(w.ledger, w.clock, now);
  }

  /** A step drops a watched scope only if it is a pass with a sample and the scope was assessed
      clean in that sample and in the two before it. */
  lemma {:induction false} DropNeedsThreeCleanSamples(w: World, step: Step, a: Authorization)
    requires Consistent(w) && Possible(w, step)
    requires a in w.ledger.authorizations && Watched(a) && !StillActive(Next(w, step).ledger, a.id)
    ensures step.Pass? && CleanForLast(Next(w, step).samples, AuthKey(a.id), CLEAN_SAMPLES)
  {
    match step
    case Serve(op, save, _) => ServeKeeps(w.ledger, op, save, a);
    case Blind(o) =>
      OutageKeeps(w.ledger, w.clean, o, a);
      StillThere(Next(w, step).ledger, a);
    case Restart(_) => StillThere(w.ledger, a);
    case Pass(o) =>
      var n := Next(w, step);
      RecordKeeps(w.clean, w.samples, Evicted(o.env, w.ledger, o.rows, o.reach, o.killsFail).assessment);
      StreakMeaning(n.samples, AuthKey(a.id), CLEAN_SAMPLES);
      if !Ready(n.clean, AuthKey(a.id)) {
        LaterSound(w.ledger, w.clock, o.authorizationNow);
        PassKeeps(w.ledger, n.clean, o, a);
        StillThere(n.ledger, a);
      }
  }

  const START := World(EMPTY, map[], [], 0)

  function RunSteps(steps: seq<Step>): World {
    if steps == [] then START else Next(RunSteps(steps[..|steps| - 1]), steps[|steps| - 1])
  }

  ghost predicate PossibleRun(steps: seq<Step>) {
    steps == [] || (PossibleRun(steps[..|steps| - 1]) && Possible(RunSteps(steps[..|steps| - 1]), steps[|steps| - 1]))
  }

  lemma {:induction false} RunConsistent(steps: seq<Step>)
    requires PossibleRun(steps)
    ensures Consistent(RunSteps(steps))
  {
    if steps != [] {
      var n := |steps| - 1;
      RunConsistent(steps[..n]);
      StepConsistent(RunSteps(steps[..n]), steps[n]);
    } else {
      assert Pairwise(EMPTY.tokens, OtherHash());
    }
  }

  /** Over every run from the empty ledger, whatever interleaves with the passes: a watched scope
      present before the last step and gone or inactive after it was dropped by a pass whose sample,
      and the two before it, all found the scope clean. */
  lemma {:induction false} NeverDroppedEarly(steps: seq<Step>, step: Step, a: Authorization)
    requires PossibleRun(steps + [step])
    requires a in RunSteps(steps).ledger.authorizations && Watched(a) && !StillActive(RunSteps(steps + [step]).ledger, a.id)
    ensures step.Pass? && CleanForLast(RunSteps(steps + [step]).samples, AuthKey(a.id), CLEAN_SAMPLES)
  {
    assert (steps + [step])[..|steps|] == steps;
    RunConsistent(steps);
    DropNeedsThreeCleanSamples(RunSteps(steps), step, a);
  }

  // ---------- Runs never get stuck ----------

  function Longest(cs: seq<SoftClaim>): (n: nat)
    ensures forall i :: 0 <= i < |cs| ==> |cs[i].id| <= n
  {
    if cs == [] then 0
    else
      var n, k := Longest(cs[..|cs| - 1]), |cs[|cs| - 1].id|;
      if n < k then k else n
  }

  /** Ids longer than any in use, one length per GPU. */
  function UnusedIDs(l: Ledger): int -> string {
    (g: int) => Repeated(Longest(l.claims) + 1 + Numbered(g))
  }

  function Repeated(n: nat): (s: string)
    ensures |s| == n
  {
    seq(n, (_: nat) => 'x')
  }

  /** One natural number per integer. */
  function Numbered(g: int): nat { if g >= 0 then 2 * g else -2 * g - 1 }

  lemma {:induction false} NumberedApart(g: int, h: int)
    requires g != h
    ensures Numbered(g) != Numbered(h)
  {
  }

  lemma {:induction false} UnusedLength(l: Ledger, g: int)
    ensures |UnusedIDs(l)(g)| == Longest(l.claims) + 1 + Numbered(g)
  {
  }

  lemma {:induction false} UnusedAreFresh(l: Ledger)
    ensures FreshClaims(l, UnusedIDs(l))
  {
    forall g ensures FreshClaim(l, UnusedIDs(l)(g)) {
      UnusedLength(l, g);
    }
    forall g, h | g != h ensures UnusedIDs(l)(g) != UnusedIDs(l)(h) {
      NumberedApart(g, h);
      UnusedLength(l, g);
      UnusedLength(l, h);
    }
  }

  /** From every state some pass can follow, for instance one over an empty sample. */
  lemma {:induction false} SomePassIsPossible(w: World) returns (o: Round)
    ensures Possible(w, Pass(o)) && o.rows == []
  {
    var env := Env((pid: int) => false, (pid: int) => NoProcess, true, (id: string) => NotFound, (id: string) => NotFound,
                   (uid: int) => Unavailable, (raw: string, rel: string, path: string) => false, "", w.clock);
    var all := (id: string) => true;
    var saves := (id: string) => Renamed;
    o := Round(env, [], 0, false, false, w.clock, [], Deadline((g: int) => 0, 0), w.clock, w.clock, w.clock, w.clock,
               all, all, all, UnusedIDs(w.ledger), (d: Decision) => Renamed, saves, saves, saves, saves, saves, Renamed);
    UnusedAreFresh(w.ledger);
  }

  // ---------- The other half: a ready scope does go ----------

  predicate Inactive(l: Ledger, id: string) {
    forall i :: 0 <= i < |l.authorizations| && l.authorizations[i].id == id ==> !l.authorizations[i].active
  }

  lemma {:induction false} InactiveStays(l: Ledger, events: seq<Event>, id: string)
    requires Inactive(l, id) && NeverAdded(events, id)
    ensures Inactive(Run(l, events), id)
  {
    var m := Run(l, events);
    forall i | 0 <= i < |m.authorizations| && m.authorizations[i].id == id ensures !m.authorizations[i].active {
      RunEvolves(l, events, m.authorizations[i]);
    }
  }

  lemma {:induction false} BoundsKept(l: Ledger, events: seq<Event>)
    requires WithinBounds(l)
    ensures WithinBounds(Run(l, events))
  {
    if events != [] {
      BoundsKept(l, events[..|events| - 1]);
    }
  }

  lemma {:induction false} ReleaseMakesInactive(l: Ledger, id: string, save: SaveEnd)
    requires AuthorizationsDistinct(l) && WithinBounds(l) && !save.NotRenamed?
    ensures Inactive(After(l, ReleaseAuthorizationOp(id), save), id)
  {
    var k := Find(l.authorizations, AuthIs(id));
    assert forall i :: 0 <= i < |l.authorizations| && l.authorizations[i].id == id ==> AuthIs(id)(l.authorizations[i]);
    if k < |l.authorizations| {
      assert forall i :: 0 <= i < |l.authorizations| && l.authorizations[i].id == id ==> i == k;
    }
  }

  lemma {:induction false} CollectHas<T>(xs: seq<T>, f: T -> seq<Event>, x: T, e: Event)
    requires x in xs && e in f(x)
    ensures e in Collect(xs, f)
  {
    var n := |xs| - 1;
    if xs[n] != x {
      assert x in xs[..n];
      CollectHas(xs[..n], f, x, e);
    }
  }

  lemma {:induction false} PrefixSound(l: Ledger, events: seq<Event>, i: nat, clock: int)
    requires Sound(l, clock) && i <= |events| && forall e :: e in events ==> CleanupWrite(l, e.op, clock)
    ensures Sound(Run(l, events[..i]), clock)
  {
    forall e | e in events[..i] ensures CleanupWrite(l, e.op, clock) {
      assert e in events;
    }
    ReleasesSound(l, events[..i], clock);
  }

  lemma {:induction false} ReleasedThen(l: Ledger, e: Event, post: seq<Event>)
    requires AuthorizationsDistinct(l) && WithinBounds(l) && e.op.ReleaseAuthorizationOp? && !e.save.NotRenamed?
    requires NeverAdded(post, e.op.id)
    ensures Inactive(Run(After(l, e.op, e.save), post), e.op.id)
  {
    ReleaseMakesInactive(l, e.op.id, e.save);
    InactiveStays(After(l, e.op, e.save), post, e.op.id);
  }

  lemma {:induction false} RunBetween(l: Ledger, pre: seq<Event>, e: Event, post: seq<Event>)
    ensures Run(l, pre + [e] + post) == Run(After(Run(l, pre), e.op, e.save), post)
  {
    OneMoreEvent(l, pre, e);
    RunAppend(l, pre + [e], post);
  }

  lemma {:induction false} ReleasesAdd(l: Ledger, events: seq<Event>, i: nat, id: string, clock: int)
    requires i <= |events| && forall e :: e in events ==> CleanupWrite(l, e.op, clock)
    ensures NeverAdded(events[i..], id)
  {
    forall j | 0 <= j < |events[i..]| ensures !events[i..][j].op.AddAuthorizationOp? {
      assert events[i..][j] == events[i + j] && events[i + j] in events;
    }
  }

  lemma {:induction false} SplitAt(events: seq<Event>, i: nat)
    requires i < |events|
    ensures events == events[..i] + [events[i]] + events[i + 1..]
  {
  }

  lemma {:induction false} ReleasedAt(l: Ledger, pre: seq<Event>, e: Event, post: seq<Event>, clock: int)
    requires WithinBounds(l) && Sound(Run(l, pre), clock)
    requires e.op.ReleaseAuthorizationOp? && !e.save.NotRenamed? && NeverAdded(post, e.op.id)
    ensures Inactive(Run(l, pre + [e] + post), e.op.id)
  {
    BoundsKept(l, pre);
    ReleasedThen(Run(l, pre), e, post);
    RunBetween(l, pre, e, post);
  }

  /** Once the release of an authorization is among the writes, it is inactive at their end. */
  lemma {:induction false} ReleasedAmong(l: Ledger, events: seq<Event>, id: string, save: SaveEnd, clock: int)
    requires Sound(l, clock) && WithinBounds(l) && !save.NotRenamed?
    requires forall e :: e in events ==> CleanupWrite(l, e.op, clock)
    requires Event(ReleaseAuthorizationOp(id), save) in events
    ensures Inactive(Run(l, events), id)
  {
    var i :| 0 <= i < |events| && events[i] == Event(ReleaseAuthorizationOp(id), save);
    PrefixSound(l, events, i, clock);
    ReleasesAdd(l, events, i + 1, id, clock);
    ReleasedAt(l, events[..i], events[i], events[i + 1..], clock);
    SplitAt(events, i);
  }

  lemma {:induction false} ReadyIsReleased(l: Ledger, clean: map<ScopeKey, nat>, o: Round, a: Authorization)
    requires Sound(l, o.authorizationNow) && WithinBounds(l) && FreshClaims(l, o.freshClaim) && NoRepeats(o.order)
    requires o.reservationNow <= o.authorizationNow && a in l.authorizations && Watched(a)
    requires DueAuthorization(l.tokens, a, o.authorizationNow) && Ready(clean, AuthKey(a.id)) && !o.authorizationSave(a.id).NotRenamed?
    ensures Inactive(BeforePrune(l, clean, o), a.id)
  {
    var clock, l1 := o.authorizationNow, Run(l, ClaimEvents(l, o));
    ClaimEventsSound(l, o, clock);
    BoundsKept(l, ClaimEvents(l, o));
    forall e | e in ClaimEvents(l, o) ensures e.op.UpsertClaimOp? || e.op.ReleaseClaimOp? {
      ClaimEventOps(l, o, e);
    }
    ClaimsLeaveRest(l, ClaimEvents(l, o));
    forall e | e in CleanupEvents(l, clean, o) ensures CleanupWrite(l1, e.op, clock) {
      CleanupReleases(l, clean, o, clock, e);
    }
    ReleaseIsThere(l, clean, o, a);
    ReleasedAmong(l1, CleanupEvents(l, clean, o), a.id, o.authorizationSave(a.id), clock);
  }

  lemma {:induction false} ReleaseIsThere(l: Ledger, clean: map<ScopeKey, nat>, o: Round, a: Authorization)
    requires a in l.authorizations && Watched(a) && DueAuthorization(l.tokens, a, o.authorizationNow) && Ready(clean, AuthKey(a.id))
    ensures Event(ReleaseAuthorizationOp(a.id), o.authorizationSave(a.id)) in CleanupEvents(l, clean, o)
  {
    var f := AuthorizationEvent(l.tokens, clean, o.authorizationNow, o.stopped, o.authorizationSave);
    var e := Event(ReleaseAuthorizationOp(a.id), o.authorizationSave(a.id));
    assert f(a) == [e];
    CollectHas(l.authorizations, f, a, e);
  }

  lemma {:induction false} PruneKeepsInactive(l: Ledger, now: int, save: SaveEnd, id: string)
    requires Inactive(l, id)
    ensures Inactive(After(l, PruneOp(now), save), id)
  {
    var e := Event(PruneOp(now), save);
    RunOne(l, e);
    InactiveStays(l, [e], id);
  }

  /** For a scope that is due, with a save that reaches the disk: a pass drops it exactly when it
      was assessed clean in this sample and in the two before. */
  lemma {:induction false} DueIsDroppedExactlyWhenClean(w: World, o: Round, a: Authorization)
    requires Consistent(w) && WithinBounds(w.ledger) && Possible(w, Pass(o))
    requires a in w.ledger.authorizations && Watched(a)
    requires DueAuthorization(w.ledger.tokens, a, o.authorizationNow) && !o.authorizationSave(a.id).NotRenamed?
    ensures !StillActive(Next(w, Pass(o)).ledger, a.id) <==> CleanForLast(Next(w, Pass(o)).samples, AuthKey(a.id), CLEAN_SAMPLES)
  {
    var n := Next(w, Pass(o));
    if !StillActive(n.ledger, a.id) {
      DropNeedsThreeCleanSamples(w, Pass(o), a);
    } else if CleanForLast(n.samples, AuthKey(a.id), CLEAN_SAMPLES) {
      StreakMeaning(n.samples, AuthKey(a.id), CLEAN_SAMPLES);
      RecordKeeps(w.clean, w.samples, Evicted(o.env, w.ledger, o.rows, o.reach, o.killsFail).assessment);
      LaterSound(w.ledger, w.clock, o.authorizationNow);
      ReadyIsReleased(w.ledger, n.clean, o, a);
      PruneKeepsInactive(BeforePrune(w.ledger, n.clean, o), o.now, o.pruneSave, a.id);
      assert false;
    }
  }

  // ---------- One claim per GPU, over runs ----------

  /** A pass is not cut short and its claim writes succeed. */
  ghost predicate Undisturbed(w: World, step: Step) {
    step.Pass? ==>
      && Uncut(step.round.deadline, w.ledger, Remaining(w.ledger, step.round))
      && AllSucceed(w.ledger, ClaimEvents(w.ledger, step.round))
  }

  lemma {:induction false} ServedClaims(l: Ledger, op: Op)
    requires Served(l, op) && !op.RevokeOp? && Apply(l, op).Saved?
    ensures Apply(l, op).ledger.claims == l.claims
  {
  }

  lemma {:induction false} RevokedClaimsOne(l: Ledger, n: Ledger, how: Revocation)
    requires RevokedTo(l, n, how) && OneClaimPerGPU(l)
    ensures OneClaimPerGPU(n)
  {
    if how.Marking? {
      FilterPairwise(l.claims, OtherClaim(how.id), OtherGPU());
    }
  }

  lemma {:induction false} ServeKeepsOneClaim(l: Ledger, op: Op, save: SaveEnd)
    requires Served(l, op) && OneClaimPerGPU(l)
    ensures OneClaimPerGPU(After(l, op, save))
  {
    if Apply(l, op).Saved? {
      if op.RevokeOp? {
        var how := RevokeShape(l, op.name, op.hashOfX, op.now);
        RevokedClaimsOne(l, Apply(l, op).ledger, how);
      } else {
        ServedClaims(l, op);
      }
    }
  }

  lemma {:induction false} OutageKeepsClaims(l: Ledger, clean: map<ScopeKey, nat>, o: Outage)
    ensures OutageLedger(l, clean, o).claims == l.claims
  {
    var events := OutageEvents(l, clean, o);
    forall e | e in events ensures LeavesClaims(e.op) {
      OutageAllowed(l, clean, o, e);
    }
    ClaimsUntouched(l, events);
    var l1 := Run(l, events);
    PruningLeavesClaims(l1, PruneManagedScopesOp(Removable(l1, o), RemovableLeases(l1, o)), o.scopeSave);
    PruningLeavesClaims(After(l1, PruneManagedScopesOp(Removable(l1, o), RemovableLeases(l1, o)), o.scopeSave),
                        PruneUnreferencedOp(o.now), o.clearSave);
  }

  lemma {:induction false} PruningLeavesClaims(l: Ledger, op: Op, save: SaveEnd)
    requires op.PruneManagedScopesOp? || op.PruneUnreferencedOp?
    ensures After(l, op, save).claims == l.claims
  {
  }

  ghost predicate UndisturbedRun(steps: seq<Step>) {
    steps == [] || (UndisturbedRun(steps[..|steps| - 1]) && Undisturbed(RunSteps(steps[..|steps| - 1]), steps[|steps| - 1]))
  }

  /** Over every run whose passes are not cut short and whose claim writes succeed, no GPU is ever
      claimed twice. */
  lemma {:induction false} OneClaimOverRuns(steps: seq<Step>)
    requires PossibleRun(steps) && UndisturbedRun(steps)
    ensures OneClaimPerGPU(RunSteps(steps).ledger)
  {
    if steps != [] {
      var n := |steps| - 1;
      var w := RunSteps(steps[..n]);
      OneClaimOverRuns(steps[..n]);
      RunConsistent(steps[..n]);
      match steps[n]
      case Serve(op, save, _) => ServeKeepsOneClaim(w.ledger, op, save);
      case Pass(o) => PassKeepsOneClaim(w, o);
      case Blind(o) => OutageKeepsClaims(w.ledger, w.clean, o);
      case Restart(_) =>
    }
  }

  // ---------- One kill per process ----------

  lemma {:induction false} TargetsAreRows(env: Env, l: Ledger, rows: seq<Row>, order: seq<int>, d: Deadline, pid: int)
    requires pid in Targets(Wishes(env, l, rows, order, d))
    ensures exists i :: 0 <= i < |rows| && rows[i].pid == pid
  {
    var ws := Wishes(env, l, rows, order, d);
    TargetsMember(ws, pid);
    var i :| 0 <= i < |ws| && ws[i].Kill? && ws[i].row.pid == pid;
    var cs := if d.claims < |l.claims| then l.claims[..d.claims] else l.claims;
    if ws[i] in Openings(env, l, rows) {
      OpeningsNotHolder(env, l, rows, ws[i]);
    } else if ws[i] in Releases(env, l, rows, cs) {
      ReleasesOnly(env, l, rows, cs, ws[i]);
    } else {
      FlatMember(order, WishesFor(env, l, rows, d), ws[i]);
      var g :| g in order && ws[i] in WishesFor(env, l, rows, d)(g);
      WishConcerns(env, l, g, ViewsOn(env, l, rows, g), d.views(g), ws[i]);
      ViewRowsAreRows(env, l, rows, g, ws[i].row);
    }
  }

  lemma {:induction false} ViewRowsAreRows(env: Env, l: Ledger, rows: seq<Row>, gpu: int, row: Row)
    requires RowAmong(ViewsOn(env, l, rows, gpu), row)
    ensures row in rows
  {
    var n := |rows| - 1;
    if RowAmong(ViewsOn(env, l, rows[..n], gpu), row) {
      ViewRowsAreRows(env, l, rows[..n], gpu, row);
    }
  }

  /** In one pass no process is planned for killing both by eviction and by enforcement, nor twice
      by either. */
  lemma {:induction false} NoProcessPlannedTwice(l: Ledger, o: Round)
    requires !o.dryRun
    ensures var k := Killed(Settled(Evicted(o.env, l, o.rows, o.reach, o.killsFail).wishes, false));
            var k' := Killed(EnforceDecisions(l, o));
            NoRepeats(k) && NoRepeats(k') && AsSet(k) !! AsSet(k')
  {
    var ws := Evicted(o.env, l, o.rows, o.reach, o.killsFail).wishes;
    var vs := Wishes(EnforceEnv(o), l, Remaining(l, o), o.order, o.deadline);
    BudgetedKills(ws);
    BudgetedKills(vs);
    forall pid | pid in Targets(vs) ensures pid !in Targets(ws) {
      TargetsAreRows(EnforceEnv(o), l, Remaining(l, o), o.order, o.deadline, pid);
      var i :| 0 <= i < |Remaining(l, o)| && Remaining(l, o)[i].pid == pid;
      FilterMembers(o.rows, Untargeted(ws));
      assert Remaining(l, o)[i] in Remaining(l, o);
    }
  }
}
