/** What an eviction pass guarantees: whom it may kill, what a failed lookup costs, and what it
    means for a scope to be assessed clean. */
module Strays {
  import opened Model
  import opened Scope
  import opened Kills
  import opened Evict

  predicate InStale<T>(x: T, standing: T -> Standing, verdict: T -> Verdict) {
    standing(x) == Stale && verdict(x) == Yes
  }

  predicate Entitles<T>(x: T, standing: T -> Standing, verdict: T -> Verdict) {
    standing(x) == Entitling && verdict(x) == Yes
  }

  /** The process runs under some stale scope, under no entitling one, and nothing about it is in doubt. */
  ghost predicate OnlyStale(env: Env, r: Rules, gpu: int, info: Info) {
    var sa, va := AuthStanding(env, r, gpu), ScopeTest(env, info);
    var se, ve := LeaseStanding(r.ledger.tokens, gpu, env.now), LeaseTest(env, info);
    && (forall i :: 0 <= i < |r.ledger.authorizations| ==> Cleared(r.ledger.authorizations[i], sa, va))
    && (forall i :: 0 <= i < |r.ledger.leases| ==> Cleared(r.ledger.leases[i], se, ve))
    && ((exists i :: 0 <= i < |r.ledger.authorizations| && InStale(r.ledger.authorizations[i], sa, va))
        || (exists i :: 0 <= i < |r.ledger.leases| && InStale(r.ledger.leases[i], se, ve)))
  }

  lemma {:induction false} JudgedStray(env: Env, r: Rules, gpu: int, info: Info)
    requires Judge(env, r, gpu, info).Stray?
    ensures OnlyStale(env, r, gpu, info)
    ensures forall a :: a in Judge(env, r, gpu, info).authorizations <==>
              a in r.ledger.authorizations && InStale(a, AuthStanding(env, r, gpu), ScopeTest(env, info))
  {
    var as', es := r.ledger.authorizations, r.ledger.leases;
    var sa, va := AuthStanding(env, r, gpu), ScopeTest(env, info);
    var se, ve := LeaseStanding(r.ledger.tokens, gpu, env.now), LeaseTest(env, info);
    ScanMeaning(as', sa, va);
    ScanMeaning(es, se, ve);
    var found, leases := Scan(as', sa, va).stale, Scan(es, se, ve).stale;
    if found != [] {
      assert found[0] in found;
      var i :| 0 <= i < |as'| && as'[i] == found[0];
      assert InStale(as'[i], sa, va);
    } else {
      assert leases[0] in leases;
      var i :| 0 <= i < |es| && es[i] == leases[0];
      assert InStale(es[i], se, ve);
    }
  }

  /** The row may be killed. */
  ghost predicate MayEvict(env: Env, r: Rules, row: Row) {
    && row.pid > 0 && env.info(row.pid).InfoFound?
    && !Bypassed(r.ledger.bypasses, env.info(row.pid).info, env.now, env.bootID)
    && OnlyStale(env, r, row.gpu, env.info(row.pid).info)
  }

  /** Every wish is a justified kill of one of these rows, and no pid occurs twice. */
  ghost predicate Justified(env: Env, r: Rules, rows: seq<Row>, ws: seq<Decision>) {
    && (forall i :: 0 <= i < |ws| ==> ws[i].Kill? && ws[i].row in rows && MayEvict(env, r, ws[i].row))
    && |Targets(ws)| == |ws|
  }

  lemma {:induction false} MoreRows(env: Env, r: Rules, rows: seq<Row>, row: Row, ws: seq<Decision>)
    requires Justified(env, r, rows, ws)
    ensures Justified(env, r, rows + [row], ws)
  {
    forall i | 0 <= i < |ws| ensures ws[i].Kill? && ws[i].row in rows + [row] && MayEvict(env, r, ws[i].row) {
      assert ws[i].row in rows;
    }
  }

  lemma {:induction false} MoreWishes(env: Env, r: Rules, rows: seq<Row>, row: Row, ws: seq<Decision>, hash: string)
    requires Justified(env, r, rows, ws) && MayEvict(env, r, row) && row.pid !in Targets(ws)
    ensures Justified(env, r, rows + [row], ws + [Kill(row, hash)])
  {
    MoreRows(env, r, rows, row, ws);
    var vs := ws + [Kill(row, hash)];
    assert vs[..|vs| - 1] == ws;
    TargetsStep(vs);
  }

  lemma {:induction false} WishJustified(env: Env, r: Rules, rows: seq<Row>, p: Progress, row: Row)
    requires Justified(env, r, rows, p.wishes)
    ensures Justified(env, r, rows + [row], EvictRow(env, r, p, row).wishes)
  {
    MoreRows(env, r, rows, row, p.wishes);
    if Examined(p, row) && env.info(row.pid).InfoFound? {
      var info := env.info(row.pid).info;
      var o := Judge(env, r, row.gpu, info);
      if o.Stray? && !Bypassed(r.ledger.bypasses, info, env.now, env.bootID) {
        JudgedStray(env, r, row.gpu, info);
        MoreWishes(env, r, rows, row, p.wishes, StrayHash(o));
      }
    }
  }

  lemma {:induction false} WishesJustified(env: Env, r: Rules, rows: seq<Row>)
    ensures Justified(env, r, rows, EvictRows(env, r, rows).wishes)
  {
    if rows != [] {
      var n := |rows| - 1;
      WishesJustified(env, r, rows[..n]);
      WishJustified(env, r, rows[..n], EvictRows(env, r, rows[..n]), rows[n]);
      assert rows == rows[..n] + [rows[n]];
    }
  }

  /** Every row an eviction pass plans to kill runs under a stale scope and under no entitling one,
      is not bypassed, and was resolved without doubt; no process is planned twice, and at most
      eight are killed. */
  lemma {:induction false} OnlyStraysAreEvicted(env: Env, l: Ledger, rows: seq<Row>, reach: nat, killsFail: bool)
    ensures var ws := Evicted(env, l, rows, reach, killsFail).wishes;
            && (forall i :: 0 <= i < |ws| ==> ws[i].Kill? && ws[i].row in rows && MayEvict(env, RulesOf(l, env.now), ws[i].row))
            && |Targets(ws)| == |ws|
            && NoRepeats(Killed(Settled(ws, false))) && |Killed(Settled(ws, false))| == Least(KILL_BUDGET, |ws|)
  {
    var r := RulesOf(l, env.now);
    WishesJustified(env, r, rows);
    if reach < |rows| {
      WishesJustified(env, r, rows[..reach]);
      assert forall row :: row in rows[..reach] ==> row in rows;
    }
    BudgetedKills(Evicted(env, l, rows, reach, killsFail).wishes);
  }

  // ---------- Doubt ----------

  predicate NothingClean(a: Assessment) {
    && (forall id :: id in a.authorizations ==> !a.authorizations[id])
    && (forall id :: id in a.leases ==> !a.leases[id])
  }

  lemma {:induction false} MarkedFalse(m: map<string, bool>, as': seq<Authorization>)
    ensures forall id :: id in m ==> id in SetFalse(m, as')
    ensures forall id :: id in SetFalse(m, as') && SetFalse(m, as')[id] ==> id in m && m[id] && forall i :: 0 <= i < |as'| ==> as'[i].id != id
  {
    if as' != [] {
      MarkedFalse(m, as'[..|as'| - 1]);
    }
  }

  lemma {:induction false} LeasesMarkedFalse(m: map<string, bool>, es: seq<Lease>)
    ensures forall id :: id in m ==> id in SetLeasesFalse(m, es)
    ensures forall id :: id in SetLeasesFalse(m, es) && SetLeasesFalse(m, es)[id] ==> id in m && m[id] && forall i :: 0 <= i < |es| ==> es[i].id != id
  {
    if es != [] {
      LeasesMarkedFalse(m, es[..|es| - 1]);
    }
  }

  /** A row never makes a scope clean, and never forgets a failure. */
  lemma {:induction false} RowOnlyWorsens(env: Env, r: Rules, p: Progress, row: Row)
    ensures var q := EvictRow(env, r, p, row);
            && (p.failed ==> q.failed)
            && (q.failed && !p.failed ==> NothingClean(q.assessment))
            && (forall id :: id in p.assessment.authorizations ==> id in q.assessment.authorizations)
            && (forall id :: id in q.assessment.authorizations && q.assessment.authorizations[id]
                             ==> id in p.assessment.authorizations && p.assessment.authorizations[id])
            && (forall id :: id in q.assessment.leases && q.assessment.leases[id]
                             ==> id in p.assessment.leases && p.assessment.leases[id])
  {
    if Examined(p, row) && env.info(row.pid).InfoFound? {
      var o := Judge(env, r, row.gpu, env.info(row.pid).info);
      if o.Stray? {
        MarkedFalse(p.assessment.authorizations, o.authorizations);
        LeasesMarkedFalse(p.assessment.leases, o.leases);
      }
    }
  }

  lemma {:induction false} FailureCleansNothing(env: Env, r: Rules, rows: seq<Row>)
    ensures EvictRows(env, r, rows).failed ==> NothingClean(EvictRows(env, r, rows).assessment)
  {
    if rows != [] {
      var n := |rows| - 1;
      FailureCleansNothing(env, r, rows[..n]);
      RowOnlyWorsens(env, r, EvictRows(env, r, rows[..n]), rows[n]);
    }
  }

  /** The lookup about this scope failed, and no earlier scope certainly entitles the process. */
  predicate DoubtAt<T>(xs: seq<T>, standing: T -> Standing, verdict: T -> Verdict, i: nat)
    requires i < |xs|
  {
    && standing(xs[i]) != Irrelevant && verdict(xs[i]) == Inconclusive
    && forall j :: 0 <= j < i ==> !Entitles(xs[j], standing, verdict)
  }

  predicate InDoubt<T>(xs: seq<T>, standing: T -> Standing, verdict: T -> Verdict) {
    exists i :: 0 <= i < |xs| && DoubtAt(xs, standing, verdict, i)
  }

  lemma {:induction false} DoubtBehind<T>(xs: seq<T>, standing: T -> Standing, verdict: T -> Verdict)
    requires xs != [] && !Entitles(xs[0], standing, verdict) && !DoubtAt(xs, standing, verdict, 0)
    ensures InDoubt(xs, standing, verdict) <==> InDoubt(xs[1..], standing, verdict)
  {
    forall i | 0 < i < |xs| ensures DoubtAt(xs, standing, verdict, i) <==> DoubtAt(xs[1..], standing, verdict, i - 1) {
      assert forall j :: 0 < j < i ==> xs[j] == xs[1..][j - 1];
      assert forall j :: 0 <= j < i - 1 ==> xs[1..][j] == xs[j + 1];
    }
    if InDoubt(xs[1..], standing, verdict) {
      var i :| 0 <= i < |xs[1..]| && DoubtAt(xs[1..], standing, verdict, i);
      assert DoubtAt(xs, standing, verdict, i + 1);
    }
    if InDoubt(xs, standing, verdict) {
      var i :| 0 <= i < |xs| && DoubtAt(xs, standing, verdict, i);
      assert DoubtAt(xs[1..], standing, verdict, i - 1);
    }
  }

  /** A scan ends in doubt exactly when a lookup that matters failed before any scope entitled the
      process, and it protects the process exactly when a scope entitles it and no such lookup failed. */
  lemma {:induction false} ScanDoubtful<T>(xs: seq<T>, standing: T -> Standing, verdict: T -> Verdict)
    ensures Scan(xs, standing, verdict) == Doubtful <==> InDoubt(xs, standing, verdict)
    ensures Scan(xs, standing, verdict) == Protected
            <==> !InDoubt(xs, standing, verdict) && exists i :: 0 <= i < |xs| && Entitles(xs[i], standing, verdict)
  {
    if xs != [] {
      ScanDoubtful(xs[1..], standing, verdict);
      if DoubtAt(xs, standing, verdict, 0) {
        assert InDoubt(xs, standing, verdict);
      } else if Entitles(xs[0], standing, verdict) {
        assert !InDoubt(xs, standing, verdict);
      } else {
        DoubtBehind(xs, standing, verdict);
        assert forall i :: 0 < i < |xs| ==> xs[i] == xs[1..][i - 1];
        assert forall i :: 0 <= i < |xs[1..]| ==> xs[1..][i] == xs[i + 1];
      }
    }
  }

  /** What the scopes say about the process is open: the lookup of a relevant authorization failed
      before one was found that entitles it, or none entitles it and the same happened among the leases. */
  predicate Unresolvable(env: Env, r: Rules, gpu: int, info: Info) {
    var as', sa, va := r.ledger.authorizations, AuthStanding(env, r, gpu), (a: Authorization) => ScopeVerdict(env, a, info);
    var es, se, ve := r.ledger.leases, LeaseStanding(r.ledger.tokens, gpu, env.now), (e: Lease) => LeaseVerdict(env, e, info);
    InDoubt(as', sa, va) || ((forall i :: 0 <= i < |as'| ==> !Entitles(as'[i], sa, va)) && InDoubt(es, se, ve))
  }

  lemma {:induction false} JudgedUnsure(env: Env, r: Rules, gpu: int, info: Info)
    ensures Judge(env, r, gpu, info) == Unsure <==> Unresolvable(env, r, gpu, info)
  {
    ScanDoubtful(r.ledger.authorizations, AuthStanding(env, r, gpu), ScopeTest(env, info));
    ScanDoubtful(r.ledger.leases, LeaseStanding(r.ledger.tokens, gpu, env.now), LeaseTest(env, info));
  }

  /** A lookup about the row failed: of its process, or of a scope that could have decided about it. */
  predicate LookupFailed(env: Env, r: Rules, row: Row) {
    env.info(row.pid).InfoError? || (env.info(row.pid).InfoFound? && Unresolvable(env, r, row.gpu, env.info(row.pid).info))
  }

  /** The pass gets to this row, and a lookup about it fails. */
  predicate FailsAt(env: Env, r: Rules, rows: seq<Row>, i: nat)
    requires i < |rows|
  {
    Examined(EvictRows(env, r, rows[..i]), rows[i]) && LookupFailed(env, r, rows[i])
  }

  lemma {:induction false} FailureSticks(env: Env, r: Rules, rows: seq<Row>, i: nat)
    requires i < |rows| && FailsAt(env, r, rows, i)
    ensures EvictRows(env, r, rows).failed
    ensures EvictRows(env, r, rows[..i + 1]).wishes == EvictRows(env, r, rows[..i]).wishes
  {
    var n := |rows| - 1;
    if env.info(rows[i].pid).InfoFound? {
      JudgedUnsure(env, r, rows[i].gpu, env.info(rows[i].pid).info);
    }
    assert rows[..i + 1][..i] == rows[..i];
    if i < n {
      assert rows[..n][..i] == rows[..i] && rows[..n][..i + 1] == rows[..i + 1];
      assert FailsAt(env, r, rows[..n], i);
      FailureSticks(env, r, rows[..n], i);
      RowOnlyWorsens(env, r, EvictRows(env, r, rows[..n]), rows[n]);
    } else {
      assert rows[..i + 1] == rows;
    }
  }

  lemma {:induction false} FailureHasCause(env: Env, r: Rules, rows: seq<Row>)
    requires EvictRows(env, r, rows).failed
    ensures exists i :: 0 <= i < |rows| && FailsAt(env, r, rows, i)
  {
    var n := |rows| - 1;
    if EvictRows(env, r, rows[..n]).failed {
      FailureHasCause(env, r, rows[..n]);
      var i :| 0 <= i < n && FailsAt(env, r, rows[..n], i);
      assert rows[..n][..i] == rows[..i];
      assert FailsAt(env, r, rows, i);
    } else {
      if env.info(rows[n].pid).InfoFound? {
        JudgedUnsure(env, r, rows[n].gpu, env.info(rows[n].pid).info);
      }
      assert FailsAt(env, r, rows, n);
    }
  }

  /** A pass counts as failed exactly when it was cancelled, a kill failed, or a lookup about an
      examined row failed. */
  lemma {:induction false} FailsExactly(env: Env, l: Ledger, rows: seq<Row>, reach: nat, killsFail: bool)
    ensures Evicted(env, l, rows, reach, killsFail).failed
            <==> reach < |rows| || killsFail || exists i :: 0 <= i < |rows| && FailsAt(env, RulesOf(l, env.now), rows, i)
  {
    var r := RulesOf(l, env.now);
    if EvictRows(env, r, rows).failed {
      FailureHasCause(env, r, rows);
    }
    if i :| 0 <= i < |rows| && FailsAt(env, r, rows, i) {
      FailureSticks(env, r, rows, i);
    }
  }

  /** One failed lookup about one examined row, a cancellation or a failed kill: the row is not
      planned, and no tracked scope counts as clean in this sample. */
  lemma {:induction false} DoubtKeepsScopes(env: Env, l: Ledger, rows: seq<Row>, reach: nat, killsFail: bool, i: nat)
    requires i < |rows|
    requires (i < reach && FailsAt(env, RulesOf(l, env.now), rows, i)) || reach < |rows| || killsFail
    ensures Evicted(env, l, rows, reach, killsFail).failed && NothingClean(Evicted(env, l, rows, reach, killsFail).assessment)
    ensures i < reach && FailsAt(env, RulesOf(l, env.now), rows, i)
            ==> EvictRows(env, RulesOf(l, env.now), rows[..i + 1]).wishes == EvictRows(env, RulesOf(l, env.now), rows[..i]).wishes
  {
    var r := RulesOf(l, env.now);
    if i < reach && FailsAt(env, r, rows, i) {
      FailureSticks(env, r, rows, i);
      FailureCleansNothing(env, r, rows);
    }
  }

  // ---------- Clean ----------

  /** The process is also covered by a scope that entitles it. */
  ghost predicate Covered(env: Env, r: Rules, gpu: int, info: Info) {
    || (exists i :: 0 <= i < |r.ledger.authorizations| && Entitles(r.ledger.authorizations[i], AuthStanding(env, r, gpu), ScopeTest(env, info)))
    || (exists i :: 0 <= i < |r.ledger.leases|
                    && Entitles(r.ledger.leases[i], LeaseStanding(r.ledger.tokens, gpu, env.now), LeaseTest(env, info)))
  }

  /** No process the row stands for is left under the authorization alone. */
  ghost predicate QuietIn(env: Env, r: Rules, row: Row, a: Authorization) {
    env.info(row.pid).InfoFound? ==>
      var info := env.info(row.pid).info;
      Covered(env, r, row.gpu, info) || AuthStanding(env, r, row.gpu)(a) != Stale || ScopeVerdict(env, a, info) == No
  }

  lemma {:induction false} JudgedFine(env: Env, r: Rules, gpu: int, info: Info, a: Authorization)
    requires Judge(env, r, gpu, info) == Fine && a in r.ledger.authorizations
    ensures Covered(env, r, gpu, info) || !InStale(a, AuthStanding(env, r, gpu), ScopeTest(env, info))
  {
    var as', es := r.ledger.authorizations, r.ledger.leases;
    var sa, va := AuthStanding(env, r, gpu), ScopeTest(env, info);
    var se, ve := LeaseStanding(r.ledger.tokens, gpu, env.now), LeaseTest(env, info);
    if Scan(as', sa, va) == Protected {
      ScanDoubtful(as', sa, va);
    } else if Scan(es, se, ve) == Protected {
      ScanDoubtful(es, se, ve);
    } else {
      ScanMeaning(as', sa, va);
      assert a !in Scan(as', sa, va).stale;
    }
  }

  lemma {:induction false} RowQuiet(env: Env, r: Rules, p: Progress, row: Row, a: Authorization)
    requires a in r.ledger.authorizations && Examined(p, row)
    requires var q := EvictRow(env, r, p, row).assessment.authorizations; a.id in q && q[a.id]
    requires !EvictRow(env, r, p, row).failed
    ensures QuietIn(env, r, row, a)
  {
    if env.info(row.pid).InfoFound? {
      var info := env.info(row.pid).info;
      var o := Judge(env, r, row.gpu, info);
      if o == Fine {
        JudgedFine(env, r, row.gpu, info, a);
        ClearedVerdict(env, r, row.gpu, info, a);
      } else {
        JudgedStray(env, r, row.gpu, info);
        MarkedFalse(p.assessment.authorizations, o.authorizations);
        assert a !in o.authorizations;
        ClearedVerdict(env, r, row.gpu, info, a);
      }
    }
  }

  /** A judged row left no scope in doubt unless an entitling scope cut the scan short. */
  lemma {:induction false} ClearedVerdict(env: Env, r: Rules, gpu: int, info: Info, a: Authorization)
    requires Judge(env, r, gpu, info) != Unsure && a in r.ledger.authorizations
    ensures Covered(env, r, gpu, info) || AuthStanding(env, r, gpu)(a) == Irrelevant || ScopeVerdict(env, a, info) != Inconclusive
  {
    var as' := r.ledger.authorizations;
    var sa, va := AuthStanding(env, r, gpu), ScopeTest(env, info);
    if Scan(as', sa, va) == Protected {
      ScanDoubtful(as', sa, va);
    } else {
      ScanMeaning(as', sa, va);
      var i :| 0 <= i < |as'| && as'[i] == a;
      assert Cleared(as'[i], sa, va);
    }
  }

  lemma {:induction false} CleanRows(env: Env, r: Rules, rows: seq<Row>, a: Authorization, i: nat)
    requires a in r.ledger.authorizations && i < |rows| && !EvictRows(env, r, rows).failed
    requires var m := EvictRows(env, r, rows).assessment.authorizations; a.id in m && m[a.id]
    requires Examined(EvictRows(env, r, rows[..i]), rows[i])
    ensures QuietIn(env, r, rows[i], a)
  {
    var n := |rows| - 1;
    RowOnlyWorsens(env, r, EvictRows(env, r, rows[..n]), rows[n]);
    if i < n {
      assert rows[..n][..i] == rows[..i];
      CleanRows(env, r, rows[..n], a, i);
    } else {
      RowQuiet(env, r, EvictRows(env, r, rows[..n]), rows[n], a);
    }
  }

  /** A scope assessed clean: the whole sample was resolved, and in every examined row the process
      is outside the scope, or covered by an entitling scope as well. */
  lemma {:induction false} CleanMeansQuiet(env: Env, l: Ledger, rows: seq<Row>, reach: nat, killsFail: bool, a: Authorization, i: nat)
    requires a in l.authorizations && i < |rows|
    requires var m := Evicted(env, l, rows, reach, killsFail).assessment.authorizations; a.id in m && m[a.id]
    requires Examined(EvictRows(env, RulesOf(l, env.now), rows[..i]), rows[i])
    ensures QuietIn(env, RulesOf(l, env.now), rows[i], a)
  {
    var r := RulesOf(l, env.now);
    assert !killsFail && reach >= |rows|;
    FailureCleansNothing(env, r, rows);
    CleanRows(env, r, rows, a, i);
  }
}
