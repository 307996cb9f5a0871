/** What a pass decides, row by row, and why the kill plan does not depend on the order in which
    GPUs are visited. */
module Coverage {
  import opened Options
  import opened Seqs
  import opened Model
  import opened Scope
  import opened Kills
  import opened Enforce
  import opened Exclusivity

  // ---------- A reserved GPU ----------

  predicate Reserving(l: Ledger, gpu: int, now: int, hash: string) {
    exists i :: 0 <= i < |l.reservations| && OnGPU(l.reservations[i], gpu, now) && l.reservations[i].tokenHash == hash
  }

  /** A currently valid authorization of a token that reserves the GPU now. */
  predicate Valid(env: Env, l: Ledger, gpu: int, a: Authorization) {
    Entitled(l.tokens, a, env.now) && Reserving(l, gpu, env.now, a.tokenHash)
  }

  lemma {:induction false} HardCandidates(env: Env, l: Ledger, gpu: int, a: Authorization)
    ensures Candidate(l.tokens, HardChoice(Filter(l.reservations, ActiveOn(gpu, env.now))), a, env.now) <==> Valid(env, l, gpu, a)
  {
    var rs := Filter(l.reservations, ActiveOn(gpu, env.now));
    FilterMembers(l.reservations, ActiveOn(gpu, env.now));
    if Reserving(l, gpu, env.now, a.tokenHash) {
      var i :| 0 <= i < |l.reservations| && OnGPU(l.reservations[i], gpu, env.now) && l.reservations[i].tokenHash == a.tokenHash;
      assert l.reservations[i] in rs;
    }
    if a.tokenHash in ReservedHashes(rs) {
      var j :| 0 <= j < |rs| && rs[j].tokenHash == a.tokenHash;
      assert rs[j] in l.reservations;
    }
  }

  lemma {:induction false} HardMatch(env: Env, l: Ledger, gpu: int, info: Info)
    ensures var m := MatchAny(env, l, HardChoice(Filter(l.reservations, ActiveOn(gpu, env.now))), info);
            && (m.Matched? <==> exists i :: 0 <= i < |l.authorizations| && Valid(env, l, gpu, l.authorizations[i])
                                            && ScopeVerdict(env, l.authorizations[i], info) == Yes)
            && (m.NoMatch? <==> forall i :: 0 <= i < |l.authorizations| && Valid(env, l, gpu, l.authorizations[i])
                                            ==> ScopeVerdict(env, l.authorizations[i], info) == No)
  {
    var choice := HardChoice(Filter(l.reservations, ActiveOn(gpu, env.now)));
    MatchAnyMeaning(env, l, choice, info);
    forall i | 0 <= i < |l.authorizations|
      ensures Candidate(l.tokens, choice, l.authorizations[i], env.now) <==> Valid(env, l, gpu, l.authorizations[i])
    {
      HardCandidates(env, l, gpu, l.authorizations[i]);
    }
  }

  lemma {:induction false} ViewsAreOfRows(env: Env, l: Ledger, rows: seq<Row>, gpu: int)
    ensures |ViewsOn(env, l, rows, gpu)| <= |rows|
    ensures forall v :: v in ViewsOn(env, l, rows, gpu) <==> v.row in rows && v.row.gpu == gpu && ViewOf(env, l, v.row) == Some(v)
  {
    if rows != [] {
      var n := |rows| - 1;
      ViewsAreOfRows(env, l, rows[..n], gpu);
      assert rows == rows[..n] + [rows[n]];
    }
  }

  /** The process of the row is under review on a GPU reserved now. */
  predicate UnderReservation(env: Env, l: Ledger, rows: seq<Row>, row: Row) {
    && row in rows && ViewOf(env, l, row).Some? && !ViewOf(env, l, row).value.bypassed
    && exists i :: 0 <= i < |l.reservations| && OnGPU(l.reservations[i], row.gpu, env.now)
  }

  lemma {:induction false} SameView(env: Env, l: Ledger, rows: seq<Row>, f: View -> Decision, row: Row, d: Decision)
    requires KeepsRow(f) && row in rows && ViewOf(env, l, row).Some? && !ViewOf(env, l, row).value.bypassed
    requires AboutRow(d) && d.row == row
    ensures d in Each(ViewsOn(env, l, rows, row.gpu), f) <==> d == f(ViewOf(env, l, row).value)
  {
    var v, views := ViewOf(env, l, row).value, ViewsOn(env, l, rows, row.gpu);
    ViewsAreOfRows(env, l, rows, row.gpu);
    assert v in views;
    EachMember(views, f, d);
    if d in Each(views, f) {
      var j :| 0 <= j < |views| && !views[j].bypassed && d == f(views[j]);
      assert views[j] in views && views[j].row == row;
    }
  }

  lemma {:induction false} SomeActive(l: Ledger, gpu: int, now: int, i: nat)
    requires i < |l.reservations| && OnGPU(l.reservations[i], gpu, now)
    ensures Filter(l.reservations, ActiveOn(gpu, now)) != []
  {
    FilterMembers(l.reservations, ActiveOn(gpu, now));
    assert l.reservations[i] in Filter(l.reservations, ActiveOn(gpu, now));
  }

  lemma {:induction false} WholeView(env: Env, l: Ledger, rows: seq<Row>, gpu: int, cut: nat)
    requires cut >= |rows|
    ensures Cut(ViewsOn(env, l, rows, gpu), cut) == ViewsOn(env, l, rows, gpu)
  {
    ViewsAreOfRows(env, l, rows, gpu);
  }

  lemma {:induction false} ReservedWish(env: Env, l: Ledger, rows: seq<Row>, row: Row, cut: nat, d: Decision)
    requires UnderReservation(env, l, rows, row) && cut >= |rows| && AboutRow(d) && d.row == row
    ensures d in WishesOn(env, l, row.gpu, ViewsOn(env, l, rows, row.gpu), cut)
            <==> d == HardWish(env, l, Filter(l.reservations, ActiveOn(row.gpu, env.now)))(ViewOf(env, l, row).value)
  {
    var i :| 0 <= i < |l.reservations| && OnGPU(l.reservations[i], row.gpu, env.now);
    SomeActive(l, row.gpu, env.now, i);
    WholeView(env, l, rows, row.gpu, cut);
    SameView(env, l, rows, HardWish(env, l, Filter(l.reservations, ActiveOn(row.gpu, env.now))), row, d);
  }

  /** A process on a reserved GPU that no bypass covers: allowed exactly when a valid authorization
      of a reserving token covers it, a kill target exactly when every such authorization was
      resolved as not covering it, and skipped in the remaining case. */
  lemma {:induction false} ReservedGPU(env: Env, l: Ledger, rows: seq<Row>, row: Row, cut: nat)
    requires UnderReservation(env, l, rows, row) && cut >= |rows|
    ensures var info := ViewOf(env, l, row).value.info;
            var d := HardWish(env, l, Filter(l.reservations, ActiveOn(row.gpu, env.now)))(ViewOf(env, l, row).value);
            && (forall e :: AboutRow(e) && e.row == row ==>
                  (e in WishesOn(env, l, row.gpu, ViewsOn(env, l, rows, row.gpu), cut) <==> e == d))
            && (d.Allow? <==> exists i :: 0 <= i < |l.authorizations| && Valid(env, l, row.gpu, l.authorizations[i])
                                          && ScopeVerdict(env, l.authorizations[i], info) == Yes)
            && (d.Kill? <==> forall i :: 0 <= i < |l.authorizations| && Valid(env, l, row.gpu, l.authorizations[i])
                                         ==> ScopeVerdict(env, l.authorizations[i], info) == No)
  {
    HardMatch(env, l, row.gpu, ViewOf(env, l, row).value.info);
    forall e | AboutRow(e) && e.row == row
      ensures e in WishesOn(env, l, row.gpu, ViewsOn(env, l, rows, row.gpu), cut)
              <==> e == HardWish(env, l, Filter(l.reservations, ActiveOn(row.gpu, env.now)))(ViewOf(env, l, row).value)
    {
      ReservedWish(env, l, rows, row, cut, e);
    }
  }

  // ---------- Every row gets one decision ----------

  function RowOf(d: Decision): seq<Row> {
    if AboutRow(d) then [d.row] else []
  }

  /** The rows that decisions are about, in order. */
  function RowSeq(ds: seq<Decision>): seq<Row> {
    if ds == [] then [] else RowSeq(ds[..|ds| - 1]) + RowOf(ds[|ds| - 1])
  }

  function RowsOf(ds: seq<Decision>): multiset<Row> {
    multiset(RowSeq(ds))
  }

  lemma {:induction false} RowSeqAppend(a: seq<Decision>, b: seq<Decision>)
    ensures RowSeq(a + b) == RowSeq(a) + RowSeq(b)
  {
    if b == [] {
      assert a + b == a;
    } else {
      var n := |b| - 1;
      RowSeqAppend(a, b[..n]);
      assert (a + b)[..|a + b| - 1] == a + b[..n];
      Assoc(RowSeq(a), RowSeq(b[..n]), RowOf(b[n]));
    }
  }

  lemma {:induction false} RowsAppend(a: seq<Decision>, b: seq<Decision>)
    ensures RowsOf(a + b) == RowsOf(a) + RowsOf(b)
  {
    RowSeqAppend(a, b);
  }

  lemma {:induction false} SettledRows(ws: seq<Decision>, dryRun: bool)
    ensures RowSeq(Settled(ws, dryRun)) == RowSeq(ws)
  {
    if ws != [] {
      var n := |ws| - 1;
      SettledRows(ws[..n], dryRun);
      assert Settled(ws, dryRun)[..n] == Settled(ws[..n], dryRun);
    }
  }

  function RowOfView(v: View): multiset<Row> {
    if v.bypassed then multiset{} else multiset{v.row}
  }

  /** The rows of the processes that are not bypassed. */
  function ViewRows(views: seq<View>): multiset<Row> {
    if views == [] then multiset{} else ViewRows(views[..|views| - 1]) + RowOfView(views[|views| - 1])
  }

  lemma {:induction false} OneRows(v: View, f: View -> Decision)
    requires KeepsRow(f)
    ensures RowsOf(One(v, f)) == RowOfView(v)
  {
    if !v.bypassed {
      assert [f(v)][..0] == [];
      assert RowSeq([f(v)]) == [v.row];
    }
  }

  lemma {:induction false} EachRows(views: seq<View>, f: View -> Decision)
    requires KeepsRow(f)
    ensures RowsOf(Each(views, f)) == ViewRows(views)
  {
    if views != [] {
      var n := |views| - 1;
      EachRows(views[..n], f);
      RowsAppend(Each(views[..n], f), One(views[n], f));
      OneRows(views[n], f);
    }
  }

  lemma {:induction false} ViewRowsSnoc(views: seq<View>, v: View)
    ensures ViewRows(views + [v]) == ViewRows(views) + RowOfView(v)
  {
    assert (views + [v])[..|views|] == views;
  }

  lemma {:induction false} OneMoreKept(views: seq<View>, keep: View -> bool)
    requires views != [] && keep(views[|views| - 1])
    ensures var n := |views| - 1;
            ViewRows(Filter(views, keep)) == ViewRows(Filter(views[..n], keep)) + RowOfView(views[n])
  {
    var n := |views| - 1;
    ViewRowsSnoc(Filter(views[..n], keep), views[n]);
  }

  lemma {:induction false} NoMoreKept(views: seq<View>, keep: View -> bool)
    requires views != [] && !keep(views[|views| - 1])
    ensures Filter(views, keep) == Filter(views[..|views| - 1], keep)
  {
  }

  lemma {:induction false} AddLeft(a: multiset<Row>, b: multiset<Row>, c: multiset<Row>)
    ensures (a + c) + b == (a + b) + c && a + (b + c) == (a + b) + c
  {
  }

  /** The two tests divide the processes that are not bypassed. */
  ghost predicate Divide(f: View -> bool, g: View -> bool) {
    forall v: View :: if v.bypassed then !f(v) && !g(v) else f(v) != g(v)
  }

  lemma {:induction false} SplitRows(views: seq<View>, f: View -> bool, g: View -> bool)
    requires Divide(f, g)
    ensures ViewRows(Filter(views, f)) + ViewRows(Filter(views, g)) == ViewRows(views)
  {
    if views != [] {
      var n := |views| - 1;
      SplitRows(views[..n], f, g);
      SplitRow(views, f, g);
      ViewRowsSnoc(views[..n], views[n]);
      assert views == views[..n] + [views[n]];
    }
  }

  lemma {:induction false} SplitRow(views: seq<View>, f: View -> bool, g: View -> bool)
    requires views != [] && Divide(f, g)
    ensures var n := |views| - 1;
            ViewRows(Filter(views, f)) + ViewRows(Filter(views, g))
            == ViewRows(Filter(views[..n], f)) + ViewRows(Filter(views[..n], g)) + RowOfView(views[n])
  {
    var n := |views| - 1;
    var v := views[n];
    AddLeft(ViewRows(Filter(views[..n], f)), ViewRows(Filter(views[..n], g)), RowOfView(v));
    if f(v) {
      OneMoreKept(views, f);
      NoMoreKept(views, g);
    } else if g(v) {
      NoMoreKept(views, f);
      OneMoreKept(views, g);
    } else {
      NoMoreKept(views, f);
      NoMoreKept(views, g);
      assert RowOfView(v) == multiset{};
    }
  }

  /** No lookup about the sampled processes fails. */
  ghost predicate Clear(env: Env, l: Ledger, views: seq<View>) {
    forall v :: v in views ==>
      && (forall i :: 0 <= i < |l.authorizations| ==> ScopeVerdict(env, l.authorizations[i], v.info) != Inconclusive)
      && (forall i :: 0 <= i < |l.leases| ==> LeaseVerdict(env, l.leases[i], v.info) != Inconclusive)
  }

  lemma {:induction false} ClearMatch(env: Env, l: Ledger, views: seq<View>, choice: Choice, v: View)
    requires Clear(env, l, views) && v in views
    ensures !MatchAny(env, l, choice, v.info).Unresolved?
  {
  }

  lemma {:induction false} ClearClaim(env: Env, l: Ledger, choice: Choice, views: seq<View>)
    requires Clear(env, l, views)
    ensures AnyViewMatches(env, l, choice, views) != Inconclusive
  {
    if views != [] {
      ClearMatch(env, l, views, choice, views[0]);
      ClearClaim(env, l, choice, views[1..]);
    }
  }

  lemma {:induction false} ClearViews(env: Env, l: Ledger, choice: Choice, views: seq<View>)
    requires Clear(env, l, views)
    ensures Find(views, InDoubt(env, l, choice)) == |views|
  {
    var k := Find(views, InDoubt(env, l, choice));
    if k < |views| {
      ClearMatch(env, l, views, choice, views[k]);
    }
  }

  lemma {:induction false} OpenRows(env: Env, l: Ledger, gpu: int, views: seq<View>, cut: nat)
    requires Clear(env, l, views) && cut >= |views|
    ensures RowsOf(OpenWishes(env, l, gpu, views, cut)) == ViewRows(views)
  {
    var yes, no := Filter(views, Authorized(env, l)), Filter(views, Unauthorized(env, l));
    ClearViews(env, l, ANY_SOFT, views);
    SplitRows(views, Authorized(env, l), Unauthorized(env, l));
    if yes == [] {
      EachRows(no, SkipWish(Unclaimed));
    } else if no != [] {
      EachRows(no, SkipWish(Contested));
      EachRows(yes, RejectWish(env, l));
      RowsAppend(Each(no, SkipWish(Contested)), Each(yes, RejectWish(env, l)));
    } else {
      FilterMembers(views, Authorized(env, l));
      assert yes[0] in yes && Authorized(env, l)(yes[0]);
      WinnerRows(env, l, gpu, yes, MatchAny(env, l, ANY_SOFT, yes[0].info).authorization);
    }
  }

  lemma {:induction false} WinnerRows(env: Env, l: Ledger, gpu: int, yes: seq<View>, a: Authorization)
    ensures RowsOf([Claim(NewClaim(gpu, a))] + Each(yes, WinnerWish(env, l, a.tokenHash))) == ViewRows(yes)
  {
    var first, rest := [Claim(NewClaim(gpu, a))], Each(yes, WinnerWish(env, l, a.tokenHash));
    EachRows(yes, WinnerWish(env, l, a.tokenHash));
    RowSeqAppend(first, rest);
    NoRowsOf(first);
    assert [] + RowSeq(rest) == RowSeq(rest);
  }

  lemma {:induction false} SoftRows(env: Env, l: Ledger, gpu: int, views: seq<View>, cut: nat)
    requires Clear(env, l, views) && cut >= |views|
    ensures RowsOf(SoftWishes(env, l, gpu, views, cut)) == ViewRows(views)
  {
    var cs := Filter(l.claims, ClaimOn(l.tokens, gpu, env.now));
    OpenRows(env, l, gpu, views, cut);
    if cs != [] {
      var c := cs[0];
      ClearClaim(env, l, ClaimChoice(c.tokenHash), views);
      ClearViews(env, l, ClaimChoice(c.tokenHash), views);
      assert views[..|views|] == views;
      EachRows(views, HolderWish(env, l, c));
    }
  }

  lemma {:induction false} RowsUnder(env: Env, l: Ledger, rs: seq<Reservation>, es: seq<Lease>, gpu: int, views: seq<View>, cut: nat)
    requires Clear(env, l, views) && cut >= |views|
    ensures RowsOf(WishesUnder(env, l, rs, es, gpu, views, cut)) == ViewRows(views)
  {
    if rs != [] {
      EachRows(views, HardWish(env, l, rs));
    } else if es != [] {
      EachRows(views, LeaseWish(env, es));
    } else {
      SoftRows(env, l, gpu, views, cut);
    }
  }

  lemma {:induction false} GPURows(env: Env, l: Ledger, gpu: int, views: seq<View>, cut: nat)
    requires Clear(env, l, views) && cut >= |views|
    ensures RowsOf(WishesOn(env, l, gpu, views, cut)) == ViewRows(views)
  {
    RowsUnder(env, l, Filter(l.reservations, ActiveOn(gpu, env.now)), Filter(l.leases, LeaseOn(gpu, env.now)), gpu, views, cut);
  }

  /** The rows that are decided with their GPU. */
  function WaitingRows(env: Env, l: Ledger, rows: seq<Row>): multiset<Row> {
    if rows == [] then multiset{}
    else
      var n := |rows| - 1;
      WaitingRows(env, l, rows[..n]) + Waiting(env, l, rows[n])
  }

  function Waiting(env: Env, l: Ledger, row: Row): multiset<Row> {
    if Opening(env, l, row) == [] then multiset{row} else multiset{}
  }

  lemma {:induction false} OpeningRow(env: Env, l: Ledger, row: Row)
    ensures RowsOf(Opening(env, l, row)) + Waiting(env, l, row) == multiset{row}
  {
    var o := Opening(env, l, row);
    if o != [] {
      assert |o| == 1 && o[..0] == [] && AboutRow(o[0]) && o[0].row == row;
      assert RowSeq(o) == [row];
    }
  }

  lemma {:induction false} OpeningRows(env: Env, l: Ledger, rows: seq<Row>)
    ensures RowsOf(Openings(env, l, rows)) + WaitingRows(env, l, rows) == multiset(rows)
  {
    if rows != [] {
      var n := |rows| - 1;
      OpeningRows(env, l, rows[..n]);
      OpeningRow(env, l, rows[n]);
      OneRowMore(Openings(env, l, rows[..n]), Opening(env, l, rows[n]), WaitingRows(env, l, rows[..n]), Waiting(env, l, rows[n]), rows);
    }
  }

  lemma {:induction false} OneRowMore(ds: seq<Decision>, o: seq<Decision>, w: multiset<Row>, v: multiset<Row>, rows: seq<Row>)
    requires rows != []
    requires RowsOf(ds) + w == multiset(rows[..|rows| - 1]) && RowsOf(o) + v == multiset{rows[|rows| - 1]}
    ensures RowsOf(ds + o) + (w + v) == multiset(rows)
  {
    RowsAppend(ds, o);
    Interchange(RowsOf(ds), RowsOf(o), w, v);
    assert rows == rows[..|rows| - 1] + [rows[|rows| - 1]];
  }

  lemma {:induction false} Interchange(a: multiset<Row>, b: multiset<Row>, c: multiset<Row>, d: multiset<Row>)
    ensures (a + b) + (c + d) == (a + c) + (b + d)
  {
  }

  function RowsOver(env: Env, l: Ledger, rows: seq<Row>, order: seq<int>): multiset<Row> {
    if order == [] then multiset{}
    else
      var n := |order| - 1;
      RowsOver(env, l, rows, order[..n]) + ViewRows(ViewsOn(env, l, rows, order[n]))
  }

  lemma {:induction false} OneMoreRow(env: Env, l: Ledger, rows: seq<Row>, gpu: int)
    requires rows != []
    ensures var n := |rows| - 1;
            ViewRows(ViewsOn(env, l, rows, gpu)) == ViewRows(ViewsOn(env, l, rows[..n], gpu)) +
              WaitingIf(env, l, rows[n], rows[n].gpu == gpu)
  {
    var n := |rows| - 1;
    var r := ViewsOn(env, l, rows[..n], gpu);
    var v := ViewOf(env, l, rows[n]);
    if v.Some? {
      ViewRowsSnoc(r, v.value);
    }
  }

  function WaitingIf(env: Env, l: Ledger, row: Row, b: bool): multiset<Row> {
    if b then Waiting(env, l, row) else multiset{}
  }

  lemma {:induction false} OneMoreRowOver(env: Env, l: Ledger, rows: seq<Row>, order: seq<int>)
    requires rows != [] && NoRepeats(order)
    ensures var n := |rows| - 1;
            RowsOver(env, l, rows, order) == RowsOver(env, l, rows[..n], order) + WaitingIf(env, l, rows[n], rows[n].gpu in order)
  {
    if order != [] {
      var n, m := |rows| - 1, |order| - 1;
      var row, g := rows[n], order[m];
      OneMoreRowOver(env, l, rows, order[..m]);
      OneMoreRow(env, l, rows, g);
      Interchange(RowsOver(env, l, rows[..n], order[..m]), WaitingIf(env, l, row, row.gpu in order[..m]),
                  ViewRows(ViewsOn(env, l, rows[..n], g)), WaitingIf(env, l, row, row.gpu == g));
      LastOrBefore(order, row.gpu);
    }
  }

  lemma {:induction false} LastOrBefore(order: seq<int>, g: int)
    requires order != [] && NoRepeats(order)
    ensures var m := |order| - 1;
            if g == order[m] then g in order && g !in order[..m] else g in order <==> g in order[..m]
  {
    assert order == order[..|order| - 1] + [order[|order| - 1]];
  }

  lemma {:induction false} RowsOverAll(env: Env, l: Ledger, rows: seq<Row>, order: seq<int>)
    requires NoRepeats(order)
    requires forall i :: 0 <= i < |rows| && Opening(env, l, rows[i]) == [] ==> rows[i].gpu in order
    ensures RowsOver(env, l, rows, order) == WaitingRows(env, l, rows)
  {
    if rows == [] {
      NoRows(env, l, order);
    } else {
      var n := |rows| - 1;
      RowsOverAll(env, l, rows[..n], order);
      OneMoreRowOver(env, l, rows, order);
    }
  }

  lemma {:induction false} NoRows(env: Env, l: Ledger, order: seq<int>)
    ensures RowsOver(env, l, [], order) == multiset{}
  {
    if order != [] {
      NoRows(env, l, order[..|order| - 1]);
    }
  }

  ghost predicate ClearSample(env: Env, l: Ledger, rows: seq<Row>) {
    forall g :: Clear(env, l, ViewsOn(env, l, rows, g))
  }

  lemma {:induction false} FlatRows(env: Env, l: Ledger, rows: seq<Row>, order: seq<int>, f: int -> seq<Decision>)
    requires forall g :: RowsOf(f(g)) == ViewRows(ViewsOn(env, l, rows, g))
    ensures RowsOf(Flat(order, f)) == RowsOver(env, l, rows, order)
  {
    if order != [] {
      var n := |order| - 1;
      FlatRows(env, l, rows, order[..n], f);
      RowsAppend(Flat(order[..n], f), f(order[n]));
    }
  }

  lemma {:induction false} AlongRows(env: Env, l: Ledger, rows: seq<Row>, order: seq<int>, d: Deadline)
    requires ClearSample(env, l, rows) && Uncut(d, l, rows)
    ensures RowsOf(WishesAlong(env, l, rows, order, d)) == RowsOver(env, l, rows, order)
  {
    forall g ensures RowsOf(WishesFor(env, l, rows, d)(g)) == ViewRows(ViewsOn(env, l, rows, g)) {
      ViewsAreOfRows(env, l, rows, g);
      GPURows(env, l, g, ViewsOn(env, l, rows, g), d.views(g));
    }
    FlatRows(env, l, rows, order, WishesFor(env, l, rows, d));
  }

  lemma {:induction false} NoRowsOf(ds: seq<Decision>)
    requires forall i :: 0 <= i < |ds| ==> !AboutRow(ds[i])
    ensures RowSeq(ds) == []
  {
    if ds != [] {
      NoRowsOf(ds[..|ds| - 1]);
    }
  }

  lemma {:induction false} ReleaseRows(env: Env, l: Ledger, rows: seq<Row>, cs: seq<SoftClaim>)
    ensures RowsOf(Releases(env, l, rows, cs)) == multiset{}
  {
    var ds := Releases(env, l, rows, cs);
    forall i | 0 <= i < |ds| ensures !AboutRow(ds[i]) {
      ReleasesOnly(env, l, rows, cs, ds[i]);
    }
    NoRowsOf(ds);
  }

  lemma {:induction false} WaitingIsVisited(env: Env, l: Ledger, rows: seq<Row>, order: seq<int>, i: nat)
    requires VisitOrder(env, l, rows, order) && i < |rows| && Opening(env, l, rows[i]) == []
    ensures rows[i].gpu in order
  {
    ViewsAreOfRows(env, l, rows, rows[i].gpu);
    assert ViewOf(env, l, rows[i]).value in ViewsOn(env, l, rows, rows[i].gpu);
  }

  /** With no failed lookup and no cancellation, every sampled row gets exactly one decision. */
  lemma {:induction false} EveryRowOnce(env: Env, l: Ledger, rows: seq<Row>, order: seq<int>, d: Deadline, dryRun: bool)
    requires ClearSample(env, l, rows) && Uncut(d, l, rows) && VisitOrder(env, l, rows, order)
    ensures RowsOf(Settled(Wishes(env, l, rows, order, d), dryRun)) == multiset(rows)
  {
    var a, b, c := Openings(env, l, rows), WishesAlong(env, l, rows, order, d), Releases(env, l, rows, l.claims);
    SettledRows(Wishes(env, l, rows, order, d), dryRun);
    RowsAppend(a, b);
    RowsAppend(a + b, c);
    OpeningRows(env, l, rows);
    AlongRows(env, l, rows, order, d);
    ReleaseRows(env, l, rows, l.claims);
    forall i | 0 <= i < |rows| && Opening(env, l, rows[i]) == [] ensures rows[i].gpu in order {
      WaitingIsVisited(env, l, rows, order, i);
    }
    RowsOverAll(env, l, rows, order);
  }

  // ---------- The kill plan and the visiting order ----------

  /** The pid is a kill target on this GPU. */
  predicate TargetOn(env: Env, l: Ledger, rows: seq<Row>, d: Deadline, gpu: int, pid: int) {
    pid in Targets(WishesOn(env, l, gpu, ViewsOn(env, l, rows, gpu), d.views(gpu)))
  }

  lemma {:induction false} FlatTargets(order: seq<int>, f: int -> seq<Decision>, pid: int)
    ensures pid in Targets(Flat(order, f)) <==> exists g :: g in order && pid in Targets(f(g))
  {
    if order != [] {
      var n := |order| - 1;
      var last := order[n];
      FlatTargets(order[..n], f, pid);
      TargetsAppend(Flat(order[..n], f), f(last));
      if pid in Targets(f(last)) {
        assert last in order;
      } else if g :| g in order && pid in Targets(f(g)) {
        assert g in order[..n];
      }
    }
  }

  lemma {:induction false} AlongTargets(env: Env, l: Ledger, rows: seq<Row>, order: seq<int>, d: Deadline, pid: int)
    ensures pid in Targets(WishesAlong(env, l, rows, order, d)) <==> exists g :: g in order && TargetOn(env, l, rows, d, g, pid)
  {
    var f := WishesFor(env, l, rows, d);
    FlatTargets(order, f, pid);
    assert forall g :: TargetOn(env, l, rows, d, g, pid) <==> pid in Targets(f(g));
  }

  lemma {:induction false} NoTargets(ds: seq<Decision>)
    requires forall i :: 0 <= i < |ds| ==> !ds[i].Kill?
    ensures Targets(ds) == {}
  {
    if ds != [] {
      NoTargets(ds[..|ds| - 1]);
    }
  }

  /** The targets of a pass are the union of the targets of its GPUs. */
  lemma {:induction false} PassTargets(env: Env, l: Ledger, rows: seq<Row>, order: seq<int>, d: Deadline, pid: int)
    requires VisitOrder(env, l, rows, order)
    ensures pid in Targets(Wishes(env, l, rows, order, d)) <==> exists g :: g in order && TargetOn(env, l, rows, d, g, pid)
  {
    var cs := if d.claims < |l.claims| then l.claims[..d.claims] else l.claims;
    var a, b, c := Openings(env, l, rows), WishesAlong(env, l, rows, order, d), Releases(env, l, rows, cs);
    TargetsAppend(a, b);
    TargetsAppend(a + b, c);
    forall i | 0 <= i < |a| ensures !a[i].Kill? {
      OpeningsNotHolder(env, l, rows, a[i]);
    }
    forall i | 0 <= i < |c| ensures !c[i].Kill? {
      ReleasesOnly(env, l, rows, cs, c[i]);
    }
    NoTargets(a);
    NoTargets(c);
    AlongTargets(env, l, rows, order, d, pid);
  }

  lemma {:induction false} SameTargets(env: Env, l: Ledger, rows: seq<Row>, o: seq<int>, o': seq<int>, d: Deadline)
    requires VisitOrder(env, l, rows, o) && VisitOrder(env, l, rows, o')
    ensures Targets(Wishes(env, l, rows, o, d)) == Targets(Wishes(env, l, rows, o', d))
  {
    forall pid ensures pid in Targets(Wishes(env, l, rows, o, d)) <==> pid in Targets(Wishes(env, l, rows, o', d)) {
      PassTargets(env, l, rows, o, d, pid);
      PassTargets(env, l, rows, o', d, pid);
      assert forall g :: g in o <==> g in o';
    }
  }

  /** Two orders plan equally many kills; and the same kills when all targets fit the budget. */
  lemma {:induction false} OrderDoesNotMatter(env: Env, l: Ledger, rows: seq<Row>, o: seq<int>, o': seq<int>, d: Deadline)
    requires VisitOrder(env, l, rows, o) && VisitOrder(env, l, rows, o')
    ensures var t := Targets(Wishes(env, l, rows, o, d));
            var k, k' := Killed(Settled(Wishes(env, l, rows, o, d), false)), Killed(Settled(Wishes(env, l, rows, o', d), false));
            && (forall pid :: pid in t <==> exists g :: g in o && TargetOn(env, l, rows, d, g, pid))
            && NoRepeats(k) && NoRepeats(k') && |k| == |k'| == Least(KILL_BUDGET, |t|)
            && (|t| <= KILL_BUDGET ==> AsSet(k) == AsSet(k') == t)
  {
    SameTargets(env, l, rows, o, o', d);
    BudgetedKills(Wishes(env, l, rows, o, d));
    BudgetedKills(Wishes(env, l, rows, o', d));
    forall pid {
      PassTargets(env, l, rows, o, d, pid);
    }
  }
}
