/** Whom a GPU serves: in every pass over every reachable ledger, all processes allowed on one GPU
    by authorization or claim run under a single token. */
module Exclusivity {
  import opened Seqs
  import opened Model
  import opened Operations
  import opened Reservations
  import opened Scope
  import opened Kills
  import opened Enforce

  lemma {:induction false} EachMember(views: seq<View>, f: View -> Decision, d: Decision)
    ensures d in Each(views, f) <==> exists i :: 0 <= i < |views| && !views[i].bypassed && d == f(views[i])
  {
    if views != [] {
      var n := |views| - 1;
      EachMember(views[..n], f, d);
      assert forall i :: 0 <= i < n ==> views[..n][i] == views[i];
    }
  }

  /** Allowed for a holder, as opposed to by a bypass or a legacy lease. */
  predicate ForHolder(d: Decision) {
    d.Allow? && (d.why == ByAuthorization || d.why == ByClaim)
  }

  lemma CandidateMatched(env: Env, l: Ledger, choice: Choice, info: Info)
    ensures var m := MatchAny(env, l, choice, info);
            m.Matched? ==> Candidate(l.tokens, choice, m.authorization, env.now)
  {
  }

  /** At any instant the standing reservations of a GPU all belong to one token. */
  lemma {:induction false} OneReservingHash(l: Ledger, gpu: int, now: int, x: Reservation, y: Reservation)
    requires Exclusive(l)
    requires x in Filter(l.reservations, ActiveOn(gpu, now)) && y in Filter(l.reservations, ActiveOn(gpu, now))
    ensures x == y
  {
    FilterMembers(l.reservations, ActiveOn(gpu, now));
    var i :| 0 <= i < |l.reservations| && l.reservations[i] == x;
    var j :| 0 <= j < |l.reservations| && l.reservations[j] == y;
    AtMostOneActive(l, i, j, now);
  }

  lemma {:induction false} HardHash(env: Env, l: Ledger, rs: seq<Reservation>, views: seq<View>, d: Decision)
    requires d in Each(views, HardWish(env, l, rs)) && ForHolder(d)
    ensures d.tokenHash in ReservedHashes(rs)
  {
    EachMember(views, HardWish(env, l, rs), d);
    var i :| 0 <= i < |views| && d == HardWish(env, l, rs)(views[i]);
    CandidateMatched(env, l, HardChoice(rs), views[i].info);
  }

  lemma {:induction false} HardOneHash(env: Env, l: Ledger, gpu: int, views: seq<View>, d: Decision, e: Decision)
    requires Exclusive(l)
    requires var f := HardWish(env, l, Filter(l.reservations, ActiveOn(gpu, env.now)));
             d in Each(views, f) && e in Each(views, f)
    requires ForHolder(d) && ForHolder(e)
    ensures d.tokenHash == e.tokenHash
  {
    var rs := Filter(l.reservations, ActiveOn(gpu, env.now));
    HardHash(env, l, rs, views, d);
    HardHash(env, l, rs, views, e);
    var i :| 0 <= i < |rs| && rs[i].tokenHash == d.tokenHash;
    var j :| 0 <= j < |rs| && rs[j].tokenHash == e.tokenHash;
    OneReservingHash(l, gpu, env.now, rs[i], rs[j]);
  }

  lemma {:induction false} LeaseNotHolder(env: Env, es: seq<Lease>, views: seq<View>, d: Decision)
    requires d in Each(views, LeaseWish(env, es))
    ensures !ForHolder(d)
  {
    EachMember(views, LeaseWish(env, es), d);
  }

  lemma {:induction false} ClaimedHash(env: Env, l: Ledger, c: SoftClaim, views: seq<View>, cut: nat, d: Decision)
    requires d in ClaimedWishes(env, l, c, views, cut) && ForHolder(d)
    ensures d.tokenHash == c.tokenHash
  {
    var k := Find(views, InDoubt(env, l, ClaimChoice(c.tokenHash)));
    var vs := Cut(views[..k], cut);
    EachMember(vs, HolderWish(env, l, c), d);
    var i :| 0 <= i < |vs| && d == HolderWish(env, l, c)(vs[i]);
    CandidateMatched(env, l, ClaimChoice(c.tokenHash), vs[i].info);
  }

  /** The hash a fresh claim on this GPU would be made for. */
  function WinningHash(env: Env, l: Ledger, views: seq<View>): string {
    var yes := Filter(views, Authorized(env, l));
    if yes == [] then "" else HashFor(env, l, yes[0])
  }

  lemma {:induction false} OpenHash(env: Env, l: Ledger, gpu: int, views: seq<View>, cut: nat, d: Decision)
    requires d in OpenWishes(env, l, gpu, views, cut) && ForHolder(d)
    ensures d.tokenHash == WinningHash(env, l, views)
  {
    var yes, no := Filter(views, Authorized(env, l)), Filter(views, Unauthorized(env, l));
    EachMember(no, SkipWish(Unclaimed), d);
    EachMember(no, SkipWish(Contested), d);
    EachMember(yes, RejectWish(env, l), d);
    EachMember(yes, WinnerWish(env, l, WinningHash(env, l, views)), d);
  }

  lemma {:induction false} SoftOneHash(env: Env, l: Ledger, gpu: int, views: seq<View>, cut: nat, d: Decision, e: Decision)
    requires d in SoftWishes(env, l, gpu, views, cut) && e in SoftWishes(env, l, gpu, views, cut)
    requires ForHolder(d) && ForHolder(e)
    ensures d.tokenHash == e.tokenHash
  {
    var cs := Filter(l.claims, ClaimOn(l.tokens, gpu, env.now));
    if cs != [] && ClaimMatches(env, l, cs[0], views) == Yes {
      ClaimedHash(env, l, cs[0], views, cut, d);
      ClaimedHash(env, l, cs[0], views, cut, e);
    } else if cs == [] || ClaimMatches(env, l, cs[0], views) == No {
      OpenHash(env, l, gpu, views, cut, d);
      OpenHash(env, l, gpu, views, cut, e);
    }
  }

  lemma {:induction false} OneHash(env: Env, l: Ledger, gpu: int, views: seq<View>, cut: nat, d: Decision, e: Decision)
    requires Exclusive(l)
    requires d in WishesOn(env, l, gpu, views, cut) && e in WishesOn(env, l, gpu, views, cut)
    requires ForHolder(d) && ForHolder(e)
    ensures d.tokenHash == e.tokenHash
  {
    var rs := Filter(l.reservations, ActiveOn(gpu, env.now));
    var es := Filter(l.leases, LeaseOn(gpu, env.now));
    if rs != [] {
      HardOneHash(env, l, gpu, Cut(views, cut), d, e);
    } else if es != [] {
      LeaseNotHolder(env, es, Cut(views, cut), d);
    } else {
      SoftOneHash(env, l, gpu, views, cut, d, e);
    }
  }

  // ---------- From one GPU to the pass ----------

  predicate AboutRow(d: Decision) { d.Allow? || d.Kill? || d.Skip? }

  /** A per-process rule speaks only of the process it is given. */
  ghost predicate KeepsRow(f: View -> Decision) {
    forall v :: AboutRow(f(v)) && f(v).row == v.row
  }

  predicate RowAmong(views: seq<View>, row: Row) {
    exists i :: 0 <= i < |views| && views[i].row == row
  }

  /** The decision is about one of these processes, or claims the GPU. */
  predicate Concerns(views: seq<View>, d: Decision) {
    d.Claim? || (AboutRow(d) && RowAmong(views, d.row))
  }

  lemma {:induction false} EachConcerns(views: seq<View>, f: View -> Decision, d: Decision)
    requires KeepsRow(f) && d in Each(views, f)
    ensures AboutRow(d) && RowAmong(views, d.row)
  {
    EachMember(views, f, d);
  }

  lemma {:induction false} PartConcerns(views: seq<View>, part: seq<View>, f: View -> Decision, d: Decision)
    requires KeepsRow(f) && d in Each(part, f) && forall v :: v in part ==> v in views
    ensures Concerns(views, d)
  {
    EachConcerns(part, f, d);
    var i :| 0 <= i < |part| && part[i].row == d.row;
    assert part[i] in part;
    var j :| 0 <= j < |views| && views[j] == part[i];
  }

  lemma {:induction false} OpenConcerns(env: Env, l: Ledger, gpu: int, views: seq<View>, cut: nat, d: Decision)
    requires d in OpenWishes(env, l, gpu, views, cut)
    ensures Concerns(views, d)
  {
    var yes, no := Filter(views, Authorized(env, l)), Filter(views, Unauthorized(env, l));
    FilterMembers(views, Authorized(env, l));
    FilterMembers(views, Unauthorized(env, l));
    var h := WinningHash(env, l, views);
    if d in Each(no, SkipWish(Unclaimed)) {
      PartConcerns(views, no, SkipWish(Unclaimed), d);
    } else if d in Each(no, SkipWish(Contested)) {
      PartConcerns(views, no, SkipWish(Contested), d);
    } else if d in Each(yes, RejectWish(env, l)) {
      PartConcerns(views, yes, RejectWish(env, l), d);
    } else if d in Each(yes, WinnerWish(env, l, h)) {
      PartConcerns(views, yes, WinnerWish(env, l, h), d);
    }
  }

  lemma {:induction false} SoftConcerns(env: Env, l: Ledger, gpu: int, views: seq<View>, cut: nat, d: Decision)
    requires d in SoftWishes(env, l, gpu, views, cut)
    ensures Concerns(views, d)
  {
    var cs := Filter(l.claims, ClaimOn(l.tokens, gpu, env.now));
    if cs != [] && ClaimMatches(env, l, cs[0], views) == Yes {
      var k := Find(views, InDoubt(env, l, ClaimChoice(cs[0].tokenHash)));
      PartConcerns(views, Cut(views[..k], cut), HolderWish(env, l, cs[0]), d);
    } else {
      OpenConcerns(env, l, gpu, views, cut, d);
    }
  }

  lemma {:induction false} WishConcerns(env: Env, l: Ledger, gpu: int, views: seq<View>, cut: nat, d: Decision)
    requires d in WishesOn(env, l, gpu, views, cut)
    ensures Concerns(views, d)
  {
    var rs := Filter(l.reservations, ActiveOn(gpu, env.now));
    var es := Filter(l.leases, LeaseOn(gpu, env.now));
    if rs != [] {
      PartConcerns(views, Cut(views, cut), HardWish(env, l, rs), d);
    } else if es != [] {
      PartConcerns(views, Cut(views, cut), LeaseWish(env, es), d);
    } else {
      SoftConcerns(env, l, gpu, views, cut, d);
    }
  }

  lemma {:induction false} FlatMember(order: seq<int>, f: int -> seq<Decision>, d: Decision)
    requires d in Flat(order, f)
    ensures exists g :: g in order && d in f(g)
  {
    var n := |order| - 1;
    if d in Flat(order[..n], f) {
      FlatMember(order[..n], f, d);
      var g :| g in order[..n] && d in f(g);
      assert g in order;
    } else {
      var g := order[n];
      assert g in order;
      assert d in f(g);
    }
  }

  /** A decision about a row comes from the wishes of the row's own GPU. */
  lemma {:induction false} AlongAtHome(env: Env, l: Ledger, rows: seq<Row>, order: seq<int>, dl: Deadline, d: Decision)
    requires d in WishesAlong(env, l, rows, order, dl) && AboutRow(d)
    ensures var g := d.row.gpu; g in order && d in WishesOn(env, l, g, ViewsOn(env, l, rows, g), dl.views(g))
  {
    FlatMember(order, WishesFor(env, l, rows, dl), d);
    var g :| g in order && d in WishesFor(env, l, rows, dl)(g);
    WishConcerns(env, l, g, ViewsOn(env, l, rows, g), dl.views(g), d);
  }

  lemma {:induction false} OpeningsNotHolder(env: Env, l: Ledger, rows: seq<Row>, d: Decision)
    requires d in Openings(env, l, rows)
    ensures !ForHolder(d) && !d.Kill?
  {
    if d in Openings(env, l, rows[..|rows| - 1]) {
      OpeningsNotHolder(env, l, rows[..|rows| - 1], d);
    }
  }

  lemma {:induction false} ReleasesOnly(env: Env, l: Ledger, rows: seq<Row>, cs: seq<SoftClaim>, d: Decision)
    requires d in Releases(env, l, rows, cs)
    ensures d.Release?
  {
    if d in Releases(env, l, rows, cs[..|cs| - 1]) {
      ReleasesOnly(env, l, rows, cs[..|cs| - 1], d);
    }
  }

  lemma {:induction false} HolderWishHome(env: Env, l: Ledger, rows: seq<Row>, order: seq<int>, dl: Deadline, d: Decision)
    requires d in Wishes(env, l, rows, order, dl) && ForHolder(d)
    ensures var g := d.row.gpu; d in WishesOn(env, l, g, ViewsOn(env, l, rows, g), dl.views(g))
  {
    var cs := if dl.claims < |l.claims| then l.claims[..dl.claims] else l.claims;
    if d in Openings(env, l, rows) {
      OpeningsNotHolder(env, l, rows, d);
    } else if d in Releases(env, l, rows, cs) {
      ReleasesOnly(env, l, rows, cs, d);
    } else {
      AlongAtHome(env, l, rows, order, dl, d);
    }
  }

  /** In every pass over a ledger reached by any run, whatever its cut-off and visiting order, the
      processes allowed on one GPU for a holder are all allowed for the same token. */
  lemma {:induction false} OneHolderPerGPU(events: seq<Event>, env: Env, rows: seq<Row>, order: seq<int>, dl: Deadline,
                                           dryRun: bool, i: nat, j: nat)
    requires var ds := Settled(Wishes(env, Run(EMPTY, events), rows, order, dl), dryRun);
             i < |ds| && j < |ds| && ForHolder(ds[i]) && ForHolder(ds[j]) && ds[i].row.gpu == ds[j].row.gpu
    ensures var ds := Settled(Wishes(env, Run(EMPTY, events), rows, order, dl), dryRun);
            ds[i].tokenHash == ds[j].tokenHash
  {
    var l := Run(EMPTY, events);
    RunKeeps(EMPTY, events);
    var ws := Wishes(env, l, rows, order, dl);
    SettledAt(ws, dryRun, i);
    SettledAt(ws, dryRun, j);
    HolderWishHome(env, l, rows, order, dl, ws[i]);
    HolderWishHome(env, l, rows, order, dl, ws[j]);
    var g := ws[i].row.gpu;
    OneHash(env, l, g, ViewsOn(env, l, rows, g), dl.views(g), ws[i], ws[j]);
  }
}
