/** Eviction: before stale records may go, the processes that still run under them are found and
    killed, and each stale scope is assessed as clean or not. */
module Evict {
  import opened Model
  import opened Scope
  import opened Kills

  // ---------- Entitlement by GPU ----------

  datatype Access = Access(gpu: int, hash: string)

  predicate ReservedTokenValid(ts: seq<Token>, hash: string, now: int) {
    var t := TokenOf(ts, hash);
    t.Some? && TokenUsable(t.value, now) && t.value.mode == Reserved
  }

  predicate GivesAccess(ts: seq<Token>, r: Reservation, now: int) {
    r.tokenHash != "" && ReservedTokenValid(ts, r.tokenHash, now) && ActiveAt(r, now)
  }

  /** The reservation shows that access is over, not merely that it has yet to begin. */
  predicate GaveAccess(ts: seq<Token>, r: Reservation, now: int) {
    && r.tokenHash != "" && !GivesAccess(ts, r, now)
    && (!ReservedTokenValid(ts, r.tokenHash, now) || !r.active || r.revoked || now >= r.expiresAt)
  }

  function ValidKeys(ts: seq<Token>, rs: seq<Reservation>, now: int): set<Access> {
    if rs == [] then {}
    else
      var rest, r := ValidKeys(ts, rs[..|rs| - 1], now), rs[|rs| - 1];
      if GivesAccess(ts, r, now) then rest + {Access(r.gpu, r.tokenHash)} else rest
  }

  function StaleKeys(ts: seq<Token>, rs: seq<Reservation>, now: int): set<Access> {
    if rs == [] then {}
    else
      var rest, r := StaleKeys(ts, rs[..|rs| - 1], now), rs[|rs| - 1];
      if GaveAccess(ts, r, now) then rest + {Access(r.gpu, r.tokenHash)} else rest
  }

  function EvictionMode(ts: seq<Token>, a: Authorization): TokenMode {
    var t := TokenOf(ts, a.tokenHash);
    if t.Some? then t.value.mode else a.tokenMode
  }

  /** How a scope stands on a GPU: it entitles its processes, it used to, or it says nothing. */
  datatype Standing = Entitling | Stale | Irrelevant

  function ByStale(b: bool): Standing { if b then Stale else Irrelevant }

  function StandingOn(ts: seq<Token>, valid: set<Access>, stale: set<Access>, gpu: int, now: int): Authorization -> Standing {
    (a: Authorization) =>
      var key := Access(gpu, a.tokenHash);
      var ok := Entitled(ts, a, now);
      match EvictionMode(ts, a)
      case Reserved =>
        if ok && key in valid then Entitling
        else if ok then ByStale(key in stale)
        else ByStale(key in valid || key in stale)
      case Claimed => if ok then Entitling else Stale
      case Managed => if ok then Entitling else Stale
      case OtherMode => Irrelevant
  }

  predicate LeaseEntitled(ts: seq<Token>, e: Lease, gpu: int, now: int) {
    && e.active && e.gpu == gpu && now < e.expiresAt
    && (e.tokenHash == "" || var t := TokenOf(ts, e.tokenHash); t.Some? && TokenUsable(t.value, now))
  }

  function LeaseStanding(ts: seq<Token>, gpu: int, now: int): Lease -> Standing {
    (e: Lease) => if e.gpu != gpu then Irrelevant else if LeaseEntitled(ts, e, gpu, now) then Entitling else Stale
  }

  // ---------- One row ----------

  datatype Scanned<T> = Doubtful | Protected | Scopes(stale: seq<T>)

  function Extend<T>(x: T, s: Scanned<T>): Scanned<T> {
    if s.Scopes? then Scopes([x] + s.stale) else s
  }

  /** The scopes of a list that a process is in, stopping at a failed lookup or an entitling scope. */
  function Scan<T>(xs: seq<T>, standing: T -> Standing, verdict: T -> Verdict): Scanned<T> {
    if xs == [] then Scopes([])
    else if standing(xs[0]) == Irrelevant then Scan(xs[1..], standing, verdict)
    else match verdict(xs[0])
         case Inconclusive => Doubtful
         case No => Scan(xs[1..], standing, verdict)
         case Yes => if standing(xs[0]) == Entitling then Protected else Extend(xs[0], Scan(xs[1..], standing, verdict))
  }

  predicate Cleared<T>(x: T, standing: T -> Standing, verdict: T -> Verdict) {
    standing(x) == Irrelevant || verdict(x) == No || (standing(x) == Stale && verdict(x) == Yes)
  }

  /** A finished scan looked at everything: no doubt, no entitling match, and exactly the stale
      scopes the process is in were collected. */
  lemma {:induction false} ScanMeaning<T>(xs: seq<T>, standing: T -> Standing, verdict: T -> Verdict)
    requires Scan(xs, standing, verdict).Scopes?
    ensures forall i :: 0 <= i < |xs| ==> Cleared(xs[i], standing, verdict)
    ensures forall x :: x in Scan(xs, standing, verdict).stale <==> x in xs && standing(x) == Stale && verdict(x) == Yes
  {
    if xs != [] {
      ScanMeaning(xs[1..], standing, verdict);
      assert forall i :: 1 <= i < |xs| ==> xs[i] == xs[1..][i - 1];
    }
  }

  function Prepend<T>(found: seq<T>, s: Scanned<T>): Scanned<T> {
    if s.Scopes? then Scopes(found + s.stale) else s
  }

  method ScanScopes<T>(xs: seq<T>, standing: T -> Standing, verdict: T -> Verdict) returns (s: Scanned<T>)
    ensures s == Scan(xs, standing, verdict)
  {
    var found: seq<T> := [];
    for i := 0 to |xs|
      invariant Scan(xs, standing, verdict) == Prepend(found, Scan(xs[i..], standing, verdict))
    {
      assert xs[i..][1..] == xs[i + 1..] && xs[i..][0] == xs[i];
      if standing(xs[i]) == Irrelevant {
        continue;
      }
      match verdict(xs[i]) {
        case Inconclusive => return Doubtful;
        case No =>
        case Yes =>
          if standing(xs[i]) == Entitling {
            return Protected;
          }
          ghost var rest := Scan(xs[i + 1..], standing, verdict);
          assert rest.Scopes? ==> found + ([xs[i]] + rest.stale) == found + [xs[i]] + rest.stale;
          found := found + [xs[i]];
      }
    }
    s := Scopes(found);
  }

  function ScopeTest(env: Env, info: Info): Authorization -> Verdict {
    (a: Authorization) => ScopeVerdict(env, a, info)
  }

  function LeaseTest(env: Env, info: Info): Lease -> Verdict {
    (e: Lease) => LeaseVerdict(env, e, info)
  }

  /** What the scopes say about a process: nothing conclusive, it is entitled or in no stale scope,
      or it runs only under stale scopes. */
  datatype Outcome = Unsure | Fine | Stray(authorizations: seq<Authorization>, leases: seq<Lease>)

  datatype Rules = Rules(ledger: Ledger, valid: set<Access>, stale: set<Access>)

  function RulesOf(l: Ledger, now: int): Rules {
    Rules(l, ValidKeys(l.tokens, l.reservations, now), StaleKeys(l.tokens, l.reservations, now))
  }

  function AuthStanding(env: Env, r: Rules, gpu: int): Authorization -> Standing {
    StandingOn(r.ledger.tokens, r.valid, r.stale, gpu, env.now)
  }

  function Judge(env: Env, r: Rules, gpu: int, info: Info): Outcome {
    match Scan(r.ledger.authorizations, AuthStanding(env, r, gpu), ScopeTest(env, info))
    case Doubtful => Unsure
    case Protected => Fine
    case Scopes(as') =>
      match Scan(r.ledger.leases, LeaseStanding(r.ledger.tokens, gpu, env.now), LeaseTest(env, info))
      case Doubtful => Unsure
      case Protected => Fine
      case Scopes(es) => if as' == [] && es == [] then Fine else Stray(as', es)
  }

  method JudgeProcess(env: Env, r: Rules, gpu: int, info: Info) returns (o: Outcome)
    ensures o == Judge(env, r, gpu, info)
  {
    var s := ScanScopes(r.ledger.authorizations, AuthStanding(env, r, gpu), ScopeTest(env, info));
    match s {
      case Doubtful => return Unsure;
      case Protected => return Fine;
      case Scopes(as') =>
        var t := ScanScopes(r.ledger.leases, LeaseStanding(r.ledger.tokens, gpu, env.now), LeaseTest(env, info));
        match t {
          case Doubtful => return Unsure;
          case Protected => return Fine;
          case Scopes(es) => return if as' == [] && es == [] then Fine else Stray(as', es);
        }
    }
  }

  // ---------- The pass ----------

  /** Whether each tracked scope was conclusively quiet in this sample. */
  datatype Assessment = Assessment(authorizations: map<string, bool>, leases: map<string, bool>)

  function AllFalse(m: map<string, bool>): map<string, bool> { map k | k in m :: false }

  function Uncertain(a: Assessment): Assessment {
    Assessment(AllFalse(a.authorizations), AllFalse(a.leases))
  }

  predicate HasKeyFor(keys: set<Access>, hash: string) {
    exists k :: k in keys && k.hash == hash
  }

  /** A stale scope outside managed cgroups that the assessment follows. */
  predicate Tracked(r: Rules, a: Authorization, now: int) {
    && a.mode != Bare && a.cgroupPath == "" && !Entitled(r.ledger.tokens, a, now)
    && (SoftMode(EvictionMode(r.ledger.tokens, a)) || HasKeyFor(r.stale, a.tokenHash) || HasKeyFor(r.valid, a.tokenHash))
  }

  predicate LeaseTracked(r: Rules, e: Lease, now: int) {
    e.mode != Bare && e.cgroupPath == "" && !LeaseEntitled(r.ledger.tokens, e, e.gpu, now)
  }

  function TrackedIDs(r: Rules, as': seq<Authorization>, now: int): map<string, bool> {
    if as' == [] then map[]
    else
      var rest, a := TrackedIDs(r, as'[..|as'| - 1], now), as'[|as'| - 1];
      if Tracked(r, a, now) then rest[a.id := true] else rest
  }

  function TrackedLeaseIDs(r: Rules, es: seq<Lease>, now: int): map<string, bool> {
    if es == [] then map[]
    else
      var rest, e := TrackedLeaseIDs(r, es[..|es| - 1], now), es[|es| - 1];
      if LeaseTracked(r, e, now) then rest[e.id := true] else rest
  }

  function SetFalse(m: map<string, bool>, as': seq<Authorization>): map<string, bool> {
    if as' == [] then m else SetFalse(m, as'[..|as'| - 1])[as'[|as'| - 1].id := false]
  }

  function SetLeasesFalse(m: map<string, bool>, es: seq<Lease>): map<string, bool> {
    if es == [] then m else SetLeasesFalse(m, es[..|es| - 1])[es[|es| - 1].id := false]
  }

  /** The pass so far: the assessment, the kills asked for, and whether anything went wrong. */
  datatype Progress = Progress(assessment: Assessment, wishes: seq<Decision>, failed: bool)

  function Start(r: Rules, now: int): Progress {
    Progress(Assessment(TrackedIDs(r, r.ledger.authorizations, now), TrackedLeaseIDs(r, r.ledger.leases, now)), [], false)
  }

  function Doubt(p: Progress): Progress {
    p.(assessment := Uncertain(p.assessment), failed := true)
  }

  function StrayHash(o: Outcome): string
    requires o.Stray?
  {
    if o.authorizations != [] && o.authorizations[0].id != "" then o.authorizations[0].tokenHash
    else if o.leases != [] then o.leases[0].tokenHash else ""
  }

  function MarkStray(p: Progress, row: Row, o: Outcome, bypassed: bool): Progress
    requires o.Stray?
  {
    var marked := Assessment(SetFalse(p.assessment.authorizations, o.authorizations), SetLeasesFalse(p.assessment.leases, o.leases));
    p.(assessment := marked, wishes := if bypassed then p.wishes else p.wishes + [Kill(row, StrayHash(o))])
  }

  predicate Examined(p: Progress, row: Row) {
    row.pid > 0 && row.pid !in Targets(p.wishes)
  }

  function EvictRow(env: Env, r: Rules, p: Progress, row: Row): Progress {
    if !Examined(p, row) then p
    else match env.info(row.pid)
         case NoProcess => p
         case InfoError => Doubt(p)
         case InfoFound(info) =>
           match Judge(env, r, row.gpu, info)
           case Unsure => Doubt(p)
           case Fine => p
           case Stray(as', es) => MarkStray(p, row, Stray(as', es), Bypassed(r.ledger.bypasses, info, env.now, env.bootID))
  }

  function EvictRows(env: Env, r: Rules, rows: seq<Row>): Progress {
    if rows == [] then Start(r, env.now) else EvictRow(env, r, EvictRows(env, r, rows[..|rows| - 1]), rows[|rows| - 1])
  }

  /** A pass that is cancelled after `reach` rows, and whose kills may fail. */
  function Evicted(env: Env, l: Ledger, rows: seq<Row>, reach: nat, killsFail: bool): Progress {
    var r := RulesOf(l, env.now);
    var p := if reach < |rows| then Doubt(EvictRows(env, r, rows[..reach])) else EvictRows(env, r, rows);
    if killsFail then Doubt(p) else p
  }

  // ---------- The pass as loops ----------

  method ReservationKeys(ts: seq<Token>, rs: seq<Reservation>, now: int) returns (valid: set<Access>, stale: set<Access>)
    ensures valid == ValidKeys(ts, rs, now) && stale == StaleKeys(ts, rs, now)
  {
    valid, stale := {}, {};
    for i := 0 to |rs|
      invariant valid == ValidKeys(ts, rs[..i], now) && stale == StaleKeys(ts, rs[..i], now)
    {
      assert rs[..i + 1][..i] == rs[..i];
      var r := rs[i];
      if GivesAccess(ts, r, now) {
        valid := valid + {Access(r.gpu, r.tokenHash)};
      } else if GaveAccess(ts, r, now) {
        stale := stale + {Access(r.gpu, r.tokenHash)};
      }
    }
    assert rs[..|rs|] == rs;
  }

  method TrackScopes(r: Rules, now: int) returns (a: Assessment)
    ensures a == Start(r, now).assessment
  {
    var as', es := r.ledger.authorizations, r.ledger.leases;
    var ma: map<string, bool>, me: map<string, bool> := map[], map[];
    for i := 0 to |as'|
      invariant ma == TrackedIDs(r, as'[..i], now)
    {
      assert as'[..i + 1][..i] == as'[..i];
      if Tracked(r, as'[i], now) {
        ma := ma[as'[i].id := true];
      }
    }
    for i := 0 to |es|
      invariant me == TrackedLeaseIDs(r, es[..i], now)
    {
      assert es[..i + 1][..i] == es[..i];
      if LeaseTracked(r, es[i], now) {
        me := me[es[i].id := true];
      }
    }
    assert as'[..|as'|] == as' && es[..|es|] == es;
    a := Assessment(ma, me);
  }

  method MarkScopes(p: Progress, o: Outcome) returns (a: Assessment)
    requires o.Stray?
    ensures a == Assessment(SetFalse(p.assessment.authorizations, o.authorizations), SetLeasesFalse(p.assessment.leases, o.leases))
  {
    var ma, me := p.assessment.authorizations, p.assessment.leases;
    for i := 0 to |o.authorizations|
      invariant ma == SetFalse(p.assessment.authorizations, o.authorizations[..i])
    {
      assert o.authorizations[..i + 1][..i] == o.authorizations[..i];
      ma := ma[o.authorizations[i].id := false];
    }
    for i := 0 to |o.leases|
      invariant me == SetLeasesFalse(p.assessment.leases, o.leases[..i])
    {
      assert o.leases[..i + 1][..i] == o.leases[..i];
      me := me[o.leases[i].id := false];
    }
    assert o.authorizations[..|o.authorizations|] == o.authorizations && o.leases[..|o.leases|] == o.leases;
    a := Assessment(ma, me);
  }

  method EvictProcess(env: Env, r: Rules, killed: set<int>, p: Progress, row: Row) returns (q: Progress)
    requires killed == Targets(p.wishes)
    ensures q == EvictRow(env, r, p, row)
  {
    if row.pid <= 0 || row.pid in killed {
      return p;
    }
    match env.info(row.pid) {
      case NoProcess => return p;
      case InfoError => return Doubt(p);
      case InfoFound(info) =>
        var bypassed := Bypassed(r.ledger.bypasses, info, env.now, env.bootID);
        var o := JudgeProcess(env, r, row.gpu, info);
        match o {
          case Unsure => return Doubt(p);
          case Fine => return p;
          case Stray(_, _) =>
            var marked := MarkScopes(p, o);
            if bypassed {
              return p.(assessment := marked);
            }
            return p.(assessment := marked, wishes := p.wishes + [Kill(row, StrayHash(o))]);
        }
    }
  }

  /** Examines one row and, if it must go, plans its kill. */
  method EvictAndPlan(planner: Planner, env: Env, r: Rules, killed: set<int>, p: Progress, row: Row) returns (q: Progress, killed': set<int>)
    requires planner.Valid() && planner.wishes == p.wishes && killed == Targets(p.wishes)
    modifies planner
    ensures q == EvictRow(env, r, p, row) && killed' == Targets(q.wishes)
    ensures planner.Valid() && planner.wishes == q.wishes
  {
    q := EvictProcess(env, r, killed, p, row);
    killed' := killed;
    OneWish(env, r, p, row);
    if |q.wishes| > |p.wishes| {
      var kill := q.wishes[|p.wishes|];
      planner.KillOnce(kill.row, kill.tokenHash);
      killed' := killed + {row.pid};
      TargetsStep(q.wishes);
    }
  }

  lemma {:induction false} OneWish(env: Env, r: Rules, p: Progress, row: Row)
    ensures var ws := EvictRow(env, r, p, row).wishes;
            ws == p.wishes || (|ws| == |p.wishes| + 1 && ws[|p.wishes|].Kill? && ws[|p.wishes|].row == row
                               && ws == p.wishes + [ws[|p.wishes|]] && ws[..|p.wishes|] == p.wishes && row.pid !in Targets(p.wishes))
  {
  }

  method EvictExpired(env: Env, l: Ledger, rows: seq<Row>, reach: nat, killsFail: bool, dryRun: bool)
    returns (assessment: Assessment, decisions: seq<Decision>, failed: bool)
    ensures var p := Evicted(env, l, rows, reach, killsFail);
            assessment == p.assessment && decisions == Settled(p.wishes, dryRun) && failed == p.failed
  {
    var valid, stale := ReservationKeys(l.tokens, l.reservations, env.now);
    var r := Rules(l, valid, stale);
    var tracked := TrackScopes(r, env.now);
    var p, killed := Progress(tracked, [], false), {};
    var planner := new Planner(dryRun);
    var n := if reach < |rows| then reach else |rows|;
    for i := 0 to n
      invariant p == EvictRows(env, r, rows[..i]) && killed == Targets(p.wishes)
      invariant planner.Valid() && planner.wishes == p.wishes
    {
      assert rows[..i + 1][..i] == rows[..i];
      p, killed := EvictAndPlan(planner, env, r, killed, p, rows[i]);
    }
    assert rows[..|rows|] == rows;
    if reach < |rows| {
      p := Doubt(p);
    }
    if killsFail {
      p := Doubt(p);
    }
    assessment, decisions, failed := p.assessment, planner.decisions, p.failed;
  }
}
