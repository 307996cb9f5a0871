/** The kill plan of a pass and the order in which it visits the GPUs: every order plans the same
    kills exactly when the processes that each GPU alone would have killed fit the budget together. */
module Orders {
  import opened Model
  import opened Scope
  import opened Kills
  import opened Enforce
  import opened Exclusivity
  import opened Coverage

  // ---------- Kills of parts and of the whole ----------

  ghost function KillSet(ws: seq<Decision>): set<int> {
    AsSet(Killed(Settled(ws, false)))
  }

  lemma {:induction false} Subset(a: set<int>, b: set<int>)
    requires a <= b
    ensures |a| <= |b|
    ensures |a| == |b| ==> a == b
  {
    var rest := b - a;
    assert b == a + rest;
    if rest == {} {
      assert a == b;
    }
  }

  lemma {:induction false} KillSetStep(ws: seq<Decision>, w: Decision)
    ensures KillSet(ws + [w]) == KillSet(ws) + if Settle(ws, w, false).Kill? then {w.row.pid} else {}
  {
    assert (ws + [w])[..|ws|] == ws;
    KilledStep(ws + [w], false);
  }

  lemma {:induction false} NoKillSet(ws: seq<Decision>)
    requires Targets(ws) == {}
    ensures KillSet(ws) == {}
  {
    BudgetedKills(ws);
  }

  lemma {:induction false} EarlierKillsStand(ws: seq<Decision>, k: nat, pid: int)
    requires k <= |ws| && pid in Killed(Settled(ws[..k], false))
    ensures pid in Killed(Settled(ws, false))
  {
    if k < |ws| {
      var n := |ws| - 1;
      assert ws[..n][..k] == ws[..k];
      EarlierKillsStand(ws[..n], k, pid);
      assert Settled(ws, false)[..n] == Settled(ws[..n], false);
    } else {
      assert ws[..k] == ws;
    }
  }

  lemma {:induction false} Snoc(a: seq<Decision>, b: seq<Decision>)
    requires b != []
    ensures var n := |b| - 1; b == b[..n] + [b[n]] && a + b == a + b[..n] + [b[n]]
  {
  }

  lemma {:induction false} PartStep(a: seq<Decision>, b: seq<Decision>, w: Decision)
    requires KillSet(a + b) <= KillSet(a) + KillSet(b)
    ensures KillSet(a + b + [w]) <= KillSet(a) + KillSet(b + [w])
  {
    TargetsAppend(a, b);
    Subset(Targets(b), Targets(a + b));
    KillSetStep(a + b, w);
    KillSetStep(b, w);
  }

  /** A kill of the whole is a kill of one of its parts alone. */
  lemma {:induction false} KillOfAPart(a: seq<Decision>, b: seq<Decision>)
    ensures KillSet(a + b) <= KillSet(a) + KillSet(b)
  {
    if b == [] {
      assert a + b == a;
    } else {
      var n := |b| - 1;
      KillOfAPart(a, b[..n]);
      PartStep(a, b[..n], b[n]);
      Snoc(a, b);
    }
  }

  lemma {:induction false} QuietStep(a: seq<Decision>, b: seq<Decision>, w: Decision)
    requires Targets(a) == {} && KillSet(a + b) == KillSet(b)
    ensures KillSet(a + b + [w]) == KillSet(b + [w])
  {
    TargetsAppend(a, b);
    assert {} + Targets(b) == Targets(b);
    KillSetStep(a + b, w);
    KillSetStep(b, w);
  }

  /** Wishes that target nothing change nothing about the kills after them. */
  lemma {:induction false} QuietFirst(a: seq<Decision>, b: seq<Decision>)
    requires Targets(a) == {}
    ensures KillSet(a + b) == KillSet(b)
  {
    if b == [] {
      assert a + b == a;
      NoKillSet(a);
      NoKillSet(b);
    } else {
      var n := |b| - 1;
      QuietFirst(a, b[..n]);
      QuietStep(a, b[..n], b[n]);
      Snoc(a, b);
    }
  }

  lemma {:induction false} FirstKillsStand(a: seq<Decision>, b: seq<Decision>)
    ensures KillSet(a) <= KillSet(a + b)
  {
    forall pid | pid in KillSet(a) ensures pid in KillSet(a + b) {
      assert (a + b)[..|a|] == a;
      EarlierKillsStand(a + b, |a|, pid);
    }
  }

  // ---------- GPUs one after the other ----------

  /** The kills that each GPU would plan if it were alone. */
  ghost function AloneKills(order: seq<int>, f: int -> seq<Decision>): set<int> {
    if order == [] then {} else AloneKills(order[..|order| - 1], f) + KillSet(f(order[|order| - 1]))
  }

  lemma {:induction false} AloneMember(order: seq<int>, f: int -> seq<Decision>, pid: int)
    ensures pid in AloneKills(order, f) <==> exists g :: g in order && pid in KillSet(f(g))
  {
    if order != [] {
      var n := |order| - 1;
      var last := order[n];
      AloneMember(order[..n], f, pid);
      if pid in KillSet(f(last)) {
        assert last in order;
      } else if g :| g in order && pid in KillSet(f(g)) {
        assert g in order[..n];
      }
    }
  }

  lemma {:induction false} SameAlone(o: seq<int>, o': seq<int>, f: int -> seq<Decision>)
    requires forall g :: g in o <==> g in o'
    ensures AloneKills(o, f) == AloneKills(o', f)
  {
    forall pid ensures pid in AloneKills(o, f) <==> pid in AloneKills(o', f) {
      AloneMember(o, f, pid);
      AloneMember(o', f, pid);
    }
  }

  lemma {:induction false} FlatKills(order: seq<int>, f: int -> seq<Decision>)
    ensures KillSet(Flat(order, f)) <= AloneKills(order, f)
  {
    if order == [] {
      NoKillSet([]);
    } else {
      var n := |order| - 1;
      FlatKills(order[..n], f);
      KillOfAPart(Flat(order[..n], f), f(order[n]));
    }
  }

  lemma {:induction false} FlatFirst(g: int, order: seq<int>, f: int -> seq<Decision>)
    ensures Flat([g] + order, f) == f(g) + Flat(order, f)
  {
    if order == [] {
      assert [g] + order == [g] && [g][..0] == [];
    } else {
      var n := |order| - 1;
      FlatFirst(g, order[..n], f);
      assert ([g] + order)[..n + 1] == [g] + order[..n];
    }
  }

  // ---------- Passes ----------

  /** The pids a pass that visits the GPUs in this order kills. */
  ghost function PassKills(env: Env, l: Ledger, rows: seq<Row>, d: Deadline, order: seq<int>): set<int> {
    KillSet(Wishes(env, l, rows, order, d))
  }

  lemma {:induction false} QuietParts(env: Env, l: Ledger, rows: seq<Row>, cs: seq<SoftClaim>)
    ensures Targets(Openings(env, l, rows)) == {} && Targets(Releases(env, l, rows, cs)) == {}
  {
    var a, c := Openings(env, l, rows), Releases(env, l, rows, cs);
    forall i | 0 <= i < |a| ensures !a[i].Kill? {
      OpeningsNotHolder(env, l, rows, a[i]);
    }
    forall i | 0 <= i < |c| ensures !c[i].Kill? {
      ReleasesOnly(env, l, rows, cs, c[i]);
    }
    NoTargets(a);
    NoTargets(c);
  }

  /** Only what the GPUs ask for counts. */
  lemma {:induction false} PassKillsAlong(env: Env, l: Ledger, rows: seq<Row>, d: Deadline, order: seq<int>)
    ensures PassKills(env, l, rows, d, order) == KillSet(Flat(order, WishesFor(env, l, rows, d)))
    ensures Targets(Wishes(env, l, rows, order, d)) == Targets(Flat(order, WishesFor(env, l, rows, d)))
  {
    var cs := if d.claims < |l.claims| then l.claims[..d.claims] else l.claims;
    var a, b, c := Openings(env, l, rows), Flat(order, WishesFor(env, l, rows, d)), Releases(env, l, rows, cs);
    QuietParts(env, l, rows, cs);
    QuietFirst(a, b);
    KillOfAPart(a + b, c);
    FirstKillsStand(a + b, c);
    NoKillSet(c);
    TargetsAppend(a, b);
    TargetsAppend(a + b, c);
  }

  /** A GPU visited first gets all the kills it would plan alone. */
  lemma {:induction false} FirstGetsAll(env: Env, l: Ledger, rows: seq<Row>, d: Deadline, g: int, order: seq<int>)
    ensures KillSet(WishesFor(env, l, rows, d)(g)) <= PassKills(env, l, rows, d, [g] + order)
  {
    var f := WishesFor(env, l, rows, d);
    PassKillsAlong(env, l, rows, d, [g] + order);
    FlatFirst(g, order, f);
    FirstKillsStand(f(g), Flat(order, f));
  }

  lemma {:induction false} PassKillsBound(env: Env, l: Ledger, rows: seq<Row>, d: Deadline, order: seq<int>)
    ensures PassKills(env, l, rows, d, order) <= AloneKills(order, WishesFor(env, l, rows, d))
    ensures |PassKills(env, l, rows, d, order)| == Least(KILL_BUDGET, |Targets(Flat(order, WishesFor(env, l, rows, d)))|)
    ensures |Targets(Flat(order, WishesFor(env, l, rows, d)))| <= KILL_BUDGET
            ==> PassKills(env, l, rows, d, order) == Targets(Flat(order, WishesFor(env, l, rows, d)))
  {
    var ws := Wishes(env, l, rows, order, d);
    PassKillsAlong(env, l, rows, d, order);
    FlatKills(order, WishesFor(env, l, rows, d));
    BudgetedKills(ws);
    SetSize(Killed(Settled(ws, false)));
  }

  lemma {:induction false} AloneAreTargets(order: seq<int>, f: int -> seq<Decision>)
    ensures AloneKills(order, f) <= Targets(Flat(order, f))
  {
    if order != [] {
      var n := |order| - 1;
      AloneAreTargets(order[..n], f);
      TargetsAppend(Flat(order[..n], f), f(order[n]));
      BudgetedKills(f(order[n]));
    }
  }

  /** Within the budget every order kills exactly what the GPUs alone would. */
  lemma {:induction false} FittingKills(env: Env, l: Ledger, rows: seq<Row>, d: Deadline, order: seq<int>)
    requires |AloneKills(order, WishesFor(env, l, rows, d))| <= KILL_BUDGET
    ensures PassKills(env, l, rows, d, order) == AloneKills(order, WishesFor(env, l, rows, d))
  {
    var f := WishesFor(env, l, rows, d);
    PassKillsBound(env, l, rows, d, order);
    AloneAreTargets(order, f);
    Subset(PassKills(env, l, rows, d, order), AloneKills(order, f));
    if |Targets(Flat(order, f))| > KILL_BUDGET {
      assert |PassKills(env, l, rows, d, order)| == KILL_BUDGET;
    }
  }

  function Front(order: seq<int>, i: nat): seq<int>
    requires i < |order|
  {
    [order[i]] + (order[..i] + order[i + 1..])
  }

  lemma {:induction false} FrontIsOrder(env: Env, l: Ledger, rows: seq<Row>, order: seq<int>, i: nat)
    requires i < |order| && VisitOrder(env, l, rows, order)
    ensures VisitOrder(env, l, rows, Front(order, i))
  {
    var o := Front(order, i);
    forall g ensures g in o <==> g in order {
      assert order == order[..i] + [order[i]] + order[i + 1..];
    }
  }

  /** The kills do not depend on the order of the visits exactly when the kills that each GPU would
      plan alone are at most eight in all. */
  lemma {:induction false} OrderMattersExactly(env: Env, l: Ledger, rows: seq<Row>, d: Deadline, o: seq<int>)
    requires VisitOrder(env, l, rows, o)
    ensures (forall o' :: VisitOrder(env, l, rows, o') ==> PassKills(env, l, rows, d, o') == PassKills(env, l, rows, d, o))
            <==> |AloneKills(o, WishesFor(env, l, rows, d))| <= KILL_BUDGET
  {
    var f := WishesFor(env, l, rows, d);
    if |AloneKills(o, f)| <= KILL_BUDGET {
      forall o' | VisitOrder(env, l, rows, o') ensures PassKills(env, l, rows, d, o') == PassKills(env, l, rows, d, o) {
        SameAlone(o, o', f);
        FittingKills(env, l, rows, d, o);
        FittingKills(env, l, rows, d, o');
      }
    } else {
      var o' := AnotherPlan(env, l, rows, d, o);
    }
  }

  lemma {:induction false} Extra(a: set<int>, b: set<int>) returns (x: int)
    requires |a| > |b|
    ensures x in a && x !in b
  {
    if forall y :: y in a ==> y in b {
      Subset(a, b);
      assert false;
    }
    x :| x in a && x !in b;
  }

  lemma {:induction false} LeftOut(order: seq<int>, f: int -> seq<Decision>, ks: set<int>) returns (i: nat, pid: int)
    requires |AloneKills(order, f)| > |ks|
    ensures i < |order| && pid in KillSet(f(order[i])) && pid !in ks
  {
    pid := Extra(AloneKills(order, f), ks);
    AloneMember(order, f, pid);
    var g :| g in order && pid in KillSet(f(g));
    i :| 0 <= i < |order| && order[i] == g;
  }

  lemma {:induction false} AnotherPlan(env: Env, l: Ledger, rows: seq<Row>, d: Deadline, o: seq<int>) returns (o': seq<int>)
    requires VisitOrder(env, l, rows, o) && |AloneKills(o, WishesFor(env, l, rows, d))| > KILL_BUDGET
    ensures VisitOrder(env, l, rows, o') && PassKills(env, l, rows, d, o') != PassKills(env, l, rows, d, o)
  {
    PassKillsBound(env, l, rows, d, o);
    var i, pid := LeftOut(o, WishesFor(env, l, rows, d), PassKills(env, l, rows, d, o));
    o' := Front(o, i);
    FrontIsOrder(env, l, rows, o, i);
    FirstGetsAll(env, l, rows, d, o[i], o[..i] + o[i + 1..]);
  }

  // ---------- Nine strays on two reserved GPUs ----------

  /** A node where every process runs outside any container. */
  function Strangers(): Env {
    Env((pid: int) => true, (pid: int) => InfoFound(Info(pid, 1000, "", 1, "", "", "")), false,
        (id: string) => NotFound, (id: string) => NotFound, (uid: int) => Unavailable,
        (raw: string, rel: string, path: string) => false, "", 5)
  }

  function BookingOf(gpu: int): Reservation {
    Reservation("res_", "", "", gpu, "h", "", "", 1, 1, 9, true, false)
  }

  const BOOKED := EMPTY.(reservations := [BookingOf(0), BookingOf(1)])

  /** Eight processes on GPU 0 and one on GPU 1, none of them authorized. */
  function Nine(): (rows: seq<Row>)
    ensures |rows| == 9 && forall i :: 0 <= i < 9 ==> rows[i] == Row(i + 1, if i < 8 then 0 else 1, 1, false)
  {
    seq(9, i requires 0 <= i < 9 => Row(i + 1, if i < 8 then 0 else 1, 1, false))
  }

  const EIGHT: set<int> := {1, 2, 3, 4, 5, 6, 7, 8}

  function NoLimit(): Deadline { Deadline((g: int) => 9, 0) }

  lemma {:induction false} Targeted(row: Row)
    requires row in Nine()
    ensures TargetOn(Strangers(), BOOKED, Nine(), NoLimit(), row.gpu, row.pid)
  {
    var ws := WishesOn(Strangers(), BOOKED, row.gpu, ViewsOn(Strangers(), BOOKED, Nine(), row.gpu), 9);
    assert OnGPU(BOOKED.reservations[row.gpu], row.gpu, 5);
    assert UnderReservation(Strangers(), BOOKED, Nine(), row);
    ReservedGPU(Strangers(), BOOKED, Nine(), row, 9);
    TargetsMember(ws, row.pid);
  }

  lemma {:induction false} TargetedOn(gpu: int, pid: int)
    requires TargetOn(Strangers(), BOOKED, Nine(), NoLimit(), gpu, pid)
    ensures exists i :: 0 <= i < 9 && Nine()[i].gpu == gpu && Nine()[i].pid == pid
  {
    var views := ViewsOn(Strangers(), BOOKED, Nine(), gpu);
    var ws := WishesOn(Strangers(), BOOKED, gpu, views, 9);
    TargetsMember(ws, pid);
    var i :| 0 <= i < |ws| && ws[i].Kill? && ws[i].row.pid == pid;
    WishConcerns(Strangers(), BOOKED, gpu, views, 9, ws[i]);
    ViewsAreOfRows(Strangers(), BOOKED, Nine(), gpu);
  }

  lemma {:induction false} BothUsed(o: seq<int>)
    requires o == [0, 1] || o == [1, 0]
    ensures VisitOrder(Strangers(), BOOKED, Nine(), o)
  {
    forall g ensures g in o <==> ViewsOn(Strangers(), BOOKED, Nine(), g) != [] {
      var views := ViewsOn(Strangers(), BOOKED, Nine(), g);
      ViewsAreOfRows(Strangers(), BOOKED, Nine(), g);
      assert views != [] ==> views[0] in views;
      if g in o {
        var row := if g == 0 then Nine()[0] else Nine()[8];
        assert ViewOf(Strangers(), BOOKED, row).value in views;
      }
    }
  }

  lemma {:induction false} AllFit(ws: seq<Decision>, pids: set<int>)
    requires |pids| <= KILL_BUDGET && Targets(ws) == pids
    ensures KillSet(ws) == pids
  {
    BudgetedKills(ws);
  }

  predicate OnNine(gpu: int, pid: int) {
    (gpu == 0 && 1 <= pid <= 8) || (gpu == 1 && pid == 9)
  }

  lemma {:induction false} NineTargeted(gpu: int, pid: int)
    ensures TargetOn(Strangers(), BOOKED, Nine(), NoLimit(), gpu, pid) <==> OnNine(gpu, pid)
  {
    if OnNine(gpu, pid) {
      Targeted(Nine()[pid - 1]);
    } else if TargetOn(Strangers(), BOOKED, Nine(), NoLimit(), gpu, pid) {
      TargetedOn(gpu, pid);
    }
  }

  lemma {:induction false} NinePids(gpu: int, pids: set<int>, pid: int)
    requires (gpu == 0 && pids == EIGHT) || (gpu == 1 && pids == {9})
    ensures OnNine(gpu, pid) <==> pid in pids
  {
  }

  lemma {:induction false} SameTargetSet(env: Env, l: Ledger, rows: seq<Row>, d: Deadline, gpu: int, pids: set<int>)
    requires forall pid :: TargetOn(env, l, rows, d, gpu, pid) <==> pid in pids
    ensures Targets(WishesFor(env, l, rows, d)(gpu)) == pids
  {
    var ws := WishesFor(env, l, rows, d)(gpu);
    forall pid ensures pid in Targets(ws) <==> pid in pids {
      assert TargetOn(env, l, rows, d, gpu, pid) <==> pid in Targets(ws);
    }
  }

  lemma {:induction false} NineTargets(gpu: int, pids: set<int>)
    requires (gpu == 0 && pids == EIGHT) || (gpu == 1 && pids == {9})
    ensures Targets(WishesFor(Strangers(), BOOKED, Nine(), NoLimit())(gpu)) == pids
  {
    forall pid ensures TargetOn(Strangers(), BOOKED, Nine(), NoLimit(), gpu, pid) <==> pid in pids {
      NineTargeted(gpu, pid);
      NinePids(gpu, pids, pid);
    }
    SameTargetSet(Strangers(), BOOKED, Nine(), NoLimit(), gpu, pids);
  }

  /** A GPU that fills the budget leaves nothing for those after it. */
  lemma {:induction false} FullBefore(env: Env, l: Ledger, rows: seq<Row>, d: Deadline, g: int, order: seq<int>)
    requires |KillSet(WishesFor(env, l, rows, d)(g))| == KILL_BUDGET
    ensures PassKills(env, l, rows, d, [g] + order) == KillSet(WishesFor(env, l, rows, d)(g))
  {
    FirstGetsAll(env, l, rows, d, g, order);
    PassKillsBound(env, l, rows, d, [g] + order);
    Subset(KillSet(WishesFor(env, l, rows, d)(g)), PassKills(env, l, rows, d, [g] + order));
  }

  lemma {:induction false} Diverge(env: Env, l: Ledger, rows: seq<Row>, d: Deadline, g: int, h: int, eight: set<int>, x: int)
    requires |eight| == KILL_BUDGET && x !in eight
    requires Targets(WishesFor(env, l, rows, d)(g)) == eight && Targets(WishesFor(env, l, rows, d)(h)) == {x}
    ensures x !in PassKills(env, l, rows, d, [g, h]) && x in PassKills(env, l, rows, d, [h, g])
  {
    AllFit(WishesFor(env, l, rows, d)(g), eight);
    AllFit(WishesFor(env, l, rows, d)(h), {x});
    FullBefore(env, l, rows, d, g, [h]);
    FirstGetsAll(env, l, rows, d, h, [g]);
    assert [g] + [h] == [g, h] && [h] + [g] == [h, g];
  }

  lemma {:induction false} EightSize()
    ensures |EIGHT| == KILL_BUDGET && 9 !in EIGHT
  {
  }

  lemma {:induction false} GPUPairDiverges(g: int, h: int, eight: set<int>, x: int)
    requires g == 0 && h == 1 && eight == EIGHT && |eight| == KILL_BUDGET && x == 9 && x !in eight
    ensures x !in PassKills(Strangers(), BOOKED, Nine(), NoLimit(), [g, h]) && x in PassKills(Strangers(), BOOKED, Nine(), NoLimit(), [h, g])
  {
    NineTargets(g, eight);
    NineTargets(h, {x});
    Diverge(Strangers(), BOOKED, Nine(), NoLimit(), g, h, eight, x);
  }

  /** One ledger and one sample, two orders: visiting GPU 0 first spares the process on GPU 1,
      visiting GPU 1 first kills it. */
  lemma {:induction false} TwoOrdersTwoPlans() returns (env: Env, l: Ledger, rows: seq<Row>, d: Deadline, o: seq<int>, o': seq<int>)
    ensures VisitOrder(env, l, rows, o) && VisitOrder(env, l, rows, o')
    ensures 9 !in PassKills(env, l, rows, d, o) && 9 in PassKills(env, l, rows, d, o')
  {
    var g, h := 0, 1;
    env, l, rows, d, o, o' := Strangers(), BOOKED, Nine(), NoLimit(), [g, h], [h, g];
    BothUsed(o);
    BothUsed(o');
    EightSize();
    GPUPairDiverges(g, h, EIGHT, 9);
  }
}
