/** The daemon's monitor as a state machine: passes over process samples, passes without a sample,
    and the ledger operations that interleave with them under the same mutex. */
module Monitor {
  import opened Seqs
  import opened Model
  import opened Operations
  import opened Scope
  import opened Kills
  import opened Enforce
  import opened Evict
  import opened Integrity

  const CLEAN_SAMPLES := 3

  // ---------- Clean-sample counters ----------

  datatype ScopeKey = AuthKey(id: string) | LeaseKey(id: string)

  function KeysOf(a: Assessment): set<ScopeKey> {
    (set id | id in a.authorizations :: AuthKey(id)) + (set id | id in a.leases :: LeaseKey(id))
  }

  predicate CleanIn(a: Assessment, k: ScopeKey) {
    match k
    case AuthKey(id) => id in a.authorizations && a.authorizations[id]
    case LeaseKey(id) => id in a.leases && a.leases[id]
  }

  function Count(clean: map<ScopeKey, nat>, k: ScopeKey): nat {
    if k in clean then clean[k] else 0
  }

  /** The counters after a sample: one more for a clean scope, none for another one, and scopes the
      sample does not mention are forgotten. */
  function Record(clean: map<ScopeKey, nat>, a: Assessment): map<ScopeKey, nat> {
    map k | k in KeysOf(a) :: if CleanIn(a, k) then Count(clean, k) + 1 else 0
  }

  predicate Ready(clean: map<ScopeKey, nat>, k: ScopeKey) {
    Count(clean, k) >= CLEAN_SAMPLES
  }

  /** For how many of the latest samples in a row the scope was clean. */
  function Streak(samples: seq<Assessment>, k: ScopeKey): nat {
    if samples == [] || !CleanIn(samples[|samples| - 1], k) then 0
    else 1 + Streak(samples[..|samples| - 1], k)
  }

  // ---------- A pass ----------

  /** Everything a pass with a sample takes from outside: the sample and its lookups, clock
      readings, where it is cancelled, what the system calls answer and how each save ends. */
  datatype Round = Round(
    env: Env, rows: seq<Row>, reach: nat, killsFail: bool, dryRun: bool,
    enforceNow: int, order: seq<int>, deadline: Deadline,
    now: int, reservationNow: int, authorizationNow: int, leaseNow: int,
    stopped: string -> bool, finished: string -> bool, leaseFinished: string -> bool,
    freshClaim: int -> string, claimSave: Decision -> SaveEnd,
    reservationSave: string -> SaveEnd, authorizationSave: string -> SaveEnd, bareSave: string -> SaveEnd,
    leaseSave: string -> SaveEnd, bareLeaseSave: string -> SaveEnd, pruneSave: SaveEnd)

  /** The events that each element of a list gives, in order. */
  function Collect<T>(xs: seq<T>, f: T -> seq<Event>): seq<Event> {
    if xs == [] then [] else Collect(xs[..|xs| - 1], f) + f(xs[|xs| - 1])
  }

  function Untargeted(ws: seq<Decision>): Row -> bool {
    (row: Row) => row.pid !in Targets(ws)
  }

  /** The rows left for enforcement once the evicted pids are taken out. */
  function Remaining(l: Ledger, o: Round): seq<Row> {
    Filter(o.rows, Untargeted(Evicted(o.env, l, o.rows, o.reach, o.killsFail).wishes))
  }

  function EnforceEnv(o: Round): Env { o.env.(now := o.enforceNow) }

  function EnforceDecisions(l: Ledger, o: Round): seq<Decision> {
    Settled(Wishes(EnforceEnv(o), l, Remaining(l, o), o.order, o.deadline), o.dryRun)
  }

  function ClaimEvent(o: Round): Decision -> seq<Event> {
    (d: Decision) =>
      match d
      case Claim(c) => [Event(UpsertClaimOp(c, o.freshClaim(c.gpu)), o.claimSave(d))]
      case Release(id) => [Event(ReleaseClaimOp(id), o.claimSave(d))]
      case _ => []
  }

  predicate DueReservation(r: Reservation, now: int) {
    r.active && (r.revoked || now >= r.expiresAt)
  }

  function ReservationEvent(o: Round): Reservation -> seq<Event> {
    (r: Reservation) =>
      if DueReservation(r, o.reservationNow) then [Event(ReleaseReservationOp(r.id), o.reservationSave(r.id))] else []
  }

  predicate HashValid(ts: seq<Token>, hash: string, now: int) {
    hash == "" || HashUsable(ts, hash, now)
  }

  predicate DueAuthorization(ts: seq<Token>, a: Authorization, now: int) {
    a.active && (a.revoked || Expired(a.expiresAt, now) || !HashValid(ts, a.tokenHash, now))
  }

  /** The scope must be kept for now: its cgroup could not be stopped, or, outside cgroups and bare
      commands, it has not been clean for long enough. */
  predicate Held(clean: map<ScopeKey, nat>, stopped: string -> bool, a: Authorization) {
    if a.cgroupPath != "" then !stopped(a.cgroupPath) else a.mode != Bare && !Ready(clean, AuthKey(a.id))
  }

  function AuthorizationEvent(ts: seq<Token>, clean: map<ScopeKey, nat>, now: int, stopped: string -> bool,
                              save: string -> SaveEnd): Authorization -> seq<Event> {
    (a: Authorization) =>
      if DueAuthorization(ts, a, now) && !Held(clean, stopped, a) then [Event(ReleaseAuthorizationOp(a.id), save(a.id))] else []
  }

  predicate DueLease(ts: seq<Token>, e: Lease, now: int) {
    e.active && (now >= e.expiresAt || !HashValid(ts, e.tokenHash, now))
  }

  predicate LeaseHeld(clean: map<ScopeKey, nat>, stopped: string -> bool, e: Lease) {
    if e.cgroupPath != "" then !stopped(e.cgroupPath) else e.mode != Bare && !Ready(clean, LeaseKey(e.id))
  }

  function LeaseEvent(ts: seq<Token>, clean: map<ScopeKey, nat>, now: int, stopped: string -> bool,
                      save: string -> SaveEnd): Lease -> seq<Event> {
    (e: Lease) => if DueLease(ts, e, now) && !LeaseHeld(clean, stopped, e) then [Event(ReleaseLeaseOp(e.id), save(e.id))] else []
  }

  /** A bare command whose process or cgroup is gone. */
  function BareEvent(o: Round): Authorization -> seq<Event> {
    (a: Authorization) =>
      if a.active && a.mode == Bare && a.rootPID > 0 && o.finished(a.id) then [Event(ReleaseAuthorizationOp(a.id), o.bareSave(a.id))] else []
  }

  function BareLeaseEvent(o: Round): Lease -> seq<Event> {
    (e: Lease) =>
      if e.active && e.mode == Bare && e.rootPID > 0 && o.leaseFinished(e.id) then [Event(ReleaseLeaseOp(e.id), o.bareLeaseSave(e.id))] else []
  }

  function ClaimEvents(l: Ledger, o: Round): seq<Event> {
    Collect(EnforceDecisions(l, o), ClaimEvent(o))
  }

  function ReservationEvents(l: Ledger, o: Round): seq<Event> {
    Collect(l.reservations, ReservationEvent(o))
  }

  function AuthorizationEvents(l: Ledger, clean: map<ScopeKey, nat>, o: Round): seq<Event> {
    Collect(l.authorizations, AuthorizationEvent(l.tokens, clean, o.authorizationNow, o.stopped, o.authorizationSave))
  }

  function BareEvents(l: Ledger, o: Round): seq<Event> {
    Collect(l.authorizations, BareEvent(o))
  }

  function LeaseEvents(l: Ledger, clean: map<ScopeKey, nat>, o: Round): seq<Event> {
    Collect(l.leases, LeaseEvent(l.tokens, clean, o.leaseNow, o.stopped, o.leaseSave))
  }

  function BareLeaseEvents(l: Ledger, o: Round): seq<Event> {
    Collect(l.leases, BareLeaseEvent(o))
  }

  /** No due scope had to be kept. */
  predicate NothingHeld(l: Ledger, clean: map<ScopeKey, nat>, o: Round) {
    && (forall i :: 0 <= i < |l.authorizations| && DueAuthorization(l.tokens, l.authorizations[i], o.authorizationNow)
                    ==> !Held(clean, o.stopped, l.authorizations[i]))
    && (forall i :: 0 <= i < |l.leases| && DueLease(l.tokens, l.leases[i], o.leaseNow) ==> !LeaseHeld(clean, o.stopped, l.leases[i]))
  }

  /** The writes of a pass before pruning, all computed from the ledger the pass started with. */
  function CleanupEvents(l: Ledger, clean: map<ScopeKey, nat>, o: Round): seq<Event> {
    ReservationEvents(l, o) + AuthorizationEvents(l, clean, o) + BareEvents(l, o) + LeaseEvents(l, clean, o) + BareLeaseEvents(l, o)
  }

  /** The cleanups that pruning waits for all went well. */
  predicate CleanupOK(l: Ledger, clean: map<ScopeKey, nat>, o: Round) {
    var l1 := Run(l, ClaimEvents(l, o));
    var l2 := Run(l1, ReservationEvents(l, o));
    var l3 := Run(l2, AuthorizationEvents(l, clean, o));
    var l4 := Run(l3, BareEvents(l, o));
    && NothingHeld(l, clean, o) && AllSucceed(l1, ReservationEvents(l, o)) && AllSucceed(l2, AuthorizationEvents(l, clean, o))
    && AllSucceed(l4, LeaseEvents(l, clean, o))
  }

  function BeforePrune(l: Ledger, clean: map<ScopeKey, nat>, o: Round): Ledger {
    Run(Run(l, ClaimEvents(l, o)), CleanupEvents(l, clean, o))
  }

  function PassLedger(l: Ledger, clean: map<ScopeKey, nat>, o: Round): Ledger {
    var done := BeforePrune(l, clean, o);
    if !Evicted(o.env, l, o.rows, o.reach, o.killsFail).failed && CleanupOK(l, clean, o) then After(done, PruneOp(o.now), o.pruneSave)
    else done
  }

  // ---------- A pass without a sample ----------

  datatype Outage = Outage(
    authorizationNow: int, leaseNow: int, stopped: string -> bool, authorizationSave: string -> SaveEnd,
    leaseSave: string -> SaveEnd, removable: string -> bool, scopeSave: SaveEnd, now: int, clearSave: SaveEnd)

  function InCgroup(): Authorization -> bool { (a: Authorization) => a.cgroupPath != "" }

  function LeaseInCgroup(): Lease -> bool { (e: Lease) => e.cgroupPath != "" }

  function OutageEvents(l: Ledger, clean: map<ScopeKey, nat>, o: Outage): seq<Event> {
    Collect(Filter(l.authorizations, InCgroup()), AuthorizationEvent(l.tokens, clean, o.authorizationNow, o.stopped, o.authorizationSave)) +
    Collect(Filter(l.leases, LeaseInCgroup()), LeaseEvent(l.tokens, clean, o.leaseNow, o.stopped, o.leaseSave))
  }

  function Removable(l: Ledger, o: Outage): set<string> {
    set i | 0 <= i < |l.authorizations| && !l.authorizations[i].active && l.authorizations[i].cgroupPath != ""
            && o.removable(l.authorizations[i].cgroupPath) :: l.authorizations[i].id
  }

  function RemovableLeases(l: Ledger, o: Outage): set<string> {
    set i | 0 <= i < |l.leases| && !l.leases[i].active && l.leases[i].cgroupPath != "" && o.removable(l.leases[i].cgroupPath) :: l.leases[i].id
  }

  function OutageLedger(l: Ledger, clean: map<ScopeKey, nat>, o: Outage): Ledger {
    var l1 := Run(l, OutageEvents(l, clean, o));
    var l2 := After(l1, PruneManagedScopesOp(Removable(l1, o), RemovableLeases(l1, o)), o.scopeSave);
    After(l2, PruneUnreferencedOp(o.now), o.clearSave)
  }

  // ---------- Runs ----------

  /** The daemon's state; `samples` is the history of assessments since it started and `clock` its
      latest reading. */
  datatype World = World(ledger: Ledger, clean: map<ScopeKey, nat>, samples: seq<Assessment>, clock: int)

  /** A restart keeps the ledger, which is on disk, and loses the counters, which are not. */
  datatype Step = Serve(op: Op, save: SaveEnd, now: int) | Pass(round: Round) | Blind(outage: Outage) | Restart(now: int)

  function Next(w: World, step: Step): World {
    match step
    case Serve(op, save, now) => w.(ledger := After(w.ledger, op, save), clock := now)
    case Pass(o) =>
      var a := Evicted(o.env, w.ledger, o.rows, o.reach, o.killsFail).assessment;
      var clean := Record(w.clean, a);
      World(PassLedger(w.ledger, clean, o), clean, w.samples + [a], o.leaseNow)
    case Blind(o) => w.(ledger := OutageLedger(w.ledger, w.clean, o), clock := o.now)
    case Restart(now) => World(w.ledger, map[], [], now)
  }

  /** The requests served between passes. A command's end releases its own, bare, authorization. */
  predicate Served(l: Ledger, op: Op) {
    match op
    case RegisterSoftOp(_, _, _) => true
    case RegisterOp(_, _) => true
    case RegisterManagedOp(_, _, _) => true
    case SyncKeysOp(_, _, _) => true
    case AddAuthorizationOp(_, _) => true
    case ActivateOp(_, _) => true
    case AddBypassOp(_) => true
    case RevokeOp(_, _, _) => true
    case ReleaseAuthorizationOp(id) =>
      forall i :: 0 <= i < |l.authorizations| && l.authorizations[i].id == id ==> l.authorizations[i].mode == Bare
    case _ => false
  }

  ghost predicate FreshClaims(l: Ledger, newID: int -> string) {
    (forall g :: FreshClaim(l, newID(g))) && (forall g, h :: g != h ==> newID(g) != newID(h))
  }

  ghost predicate Possible(w: World, step: Step) {
    match step
    case Serve(op, _, now) => w.clock <= now && Served(w.ledger, op) && Allowed(w.ledger, op, now)
    case Pass(o) =>
      && w.clock <= o.env.now <= o.enforceNow <= o.now <= o.reservationNow <= o.authorizationNow <= o.leaseNow
      && VisitOrder(EnforceEnv(o), w.ledger, Remaining(w.ledger, o), o.order) && FreshClaims(w.ledger, o.freshClaim)
    case Blind(o) => w.clock <= o.authorizationNow <= o.leaseNow <= o.now
    case Restart(now) => w.clock <= now
  }
}
