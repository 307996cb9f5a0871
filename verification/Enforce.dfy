/** The enforcement planner: from a ledger and a process sample to decisions, GPU by GPU. */
module Enforce {
  import opened Options
  import opened Seqs
  import opened Model
  import opened Scope
  import opened Kills

  datatype View = View(row: Row, info: Info, bypassed: bool)

  predicate UsesGPU(row: Row) {
    row.memUnknown || row.memBytes > 0
  }

  /** The process behind a row, if it can be inspected. */
  function ViewOf(env: Env, l: Ledger, row: Row): Option<View> {
    if !UsesGPU(row) || !env.exists'(row.pid) then None
    else match env.info(row.pid)
         case InfoFound(info) => Some(View(row, info, Bypassed(l.bypasses, info, env.now, env.bootID)))
         case _ => None
  }

  /** The decision a row gets before its GPU is looked at, if any. */
  function Opening(env: Env, l: Ledger, row: Row): seq<Decision> {
    if !UsesGPU(row) then [Skip(row, NoUsage)]
    else if !env.exists'(row.pid) then [Skip(row, StalePID)]
    else match ViewOf(env, l, row)
         case None => [Skip(row, NoInfo)]
         case Some(v) => if v.bypassed then [Allow(row, ByBypass, "", "")] else []
  }

  function Openings(env: Env, l: Ledger, rows: seq<Row>): seq<Decision> {
    if rows == [] then [] else Openings(env, l, rows[..|rows| - 1]) + Opening(env, l, rows[|rows| - 1])
  }

  /** The inspected processes on one GPU, in sample order. */
  function ViewsOn(env: Env, l: Ledger, rows: seq<Row>, gpu: int): (vs: seq<View>)
    ensures forall i :: 0 <= i < |vs| ==> vs[i].row.gpu == gpu
  {
    if rows == [] then []
    else
      var rest, row := ViewsOn(env, l, rows[..|rows| - 1], gpu), rows[|rows| - 1];
      if row.gpu != gpu then rest
      else match ViewOf(env, l, row)
           case None => rest
           case Some(v) => rest + [v]
  }

  // ---------- One GPU ----------

  /** One decision for each process that is not bypassed. */
  function Each(views: seq<View>, f: View -> Decision): seq<Decision> {
    if views == [] then [] else Each(views[..|views| - 1], f) + One(views[|views| - 1], f)
  }

  function One(v: View, f: View -> Decision): seq<Decision> {
    if v.bypassed then [] else [f(v)]
  }

  lemma EachStep(views: seq<View>, i: nat, f: View -> Decision)
    requires i < |views|
    ensures Each(views[..i + 1], f) == Each(views[..i], f) + One(views[i], f)
  {
    assert views[..i + 1][..i] == views[..i];
  }

  function Cut(views: seq<View>, cut: nat): seq<View> {
    if cut < |views| then views[..cut] else views
  }

  predicate OnGPU(r: Reservation, gpu: int, now: int) { r.gpu == gpu && ActiveAt(r, now) }

  function ActiveOn(gpu: int, now: int): Reservation -> bool {
    (r: Reservation) => OnGPU(r, gpu, now)
  }

  function ReservedHashes(rs: seq<Reservation>): (hs: set<string>)
    ensures forall h :: h in hs <==> exists i :: 0 <= i < |rs| && rs[i].tokenHash == h
  {
    set i | 0 <= i < |rs| :: rs[i].tokenHash
  }

  function HardChoice(rs: seq<Reservation>): Choice {
    Choice(Some(ReservedHashes(rs)), false)
  }

  /** On a reserved GPU: allowed by an authorization of a reserving token, killed if certainly
      covered by none, left alone while that is uncertain. */
  function HardWish(env: Env, l: Ledger, rs: seq<Reservation>): View -> Decision {
    (v: View) => HardDecision(v.row, rs, MatchAny(env, l, HardChoice(rs), v.info))
  }

  function HardDecision(row: Row, rs: seq<Reservation>, m: Match): Decision {
    match m
    case Matched(a) => Allow(row, ByAuthorization, a.id, a.tokenHash)
    case Unresolved => Skip(row, Unresolvable)
    case NoMatch => Kill(row, if rs == [] then "" else rs[0].tokenHash)
  }

  function LeaseOn(gpu: int, now: int): Lease -> bool {
    (e: Lease) => e.gpu == gpu && e.active && now < e.expiresAt
  }

  function LeaseWish(env: Env, es: seq<Lease>): View -> Decision {
    (v: View) => LeaseDecision(v.row, MatchLease(env, es, v.info))
  }

  function LeaseDecision(row: Row, m: LeaseMatch): Decision {
    match m
    case LeaseMatched(id) => Allow(row, ByLease, id, "")
    case LeaseUnresolved => Skip(row, Unresolvable)
    case NoLease => Kill(row, "")
  }

  function UsableWith(hash: string, now: int): Token -> bool {
    (t: Token) => t.hash == hash && TokenUsable(t, now)
  }

  /** The token a claim was made with is still usable, in claimed or managed mode. */
  predicate ClaimStands(ts: seq<Token>, hash: string, now: int) {
    var k := Find(ts, UsableWith(hash, now));
    k < |ts| && SoftMode(ts[k].mode)
  }

  function ClaimOn(ts: seq<Token>, gpu: int, now: int): SoftClaim -> bool {
    (c: SoftClaim) => c.gpu == gpu && ClaimStands(ts, c.tokenHash, now)
  }

  function ClaimChoice(hash: string): Choice { Choice(Some({hash}), true) }

  const ANY_SOFT := Choice(None, true)

  /** Whether some process (not bypassed) matches; the first failed match attempt ends the search. */
  function AnyViewMatches(env: Env, l: Ledger, choice: Choice, views: seq<View>): Verdict {
    if views == [] then No
    else if views[0].bypassed then AnyViewMatches(env, l, choice, views[1..])
    else match MatchAny(env, l, choice, views[0].info)
         case Matched(_) => Yes
         case Unresolved => Inconclusive
         case NoMatch => AnyViewMatches(env, l, choice, views[1..])
  }

  function ClaimMatches(env: Env, l: Ledger, c: SoftClaim, views: seq<View>): Verdict {
    if c.tokenHash == "" then No else AnyViewMatches(env, l, ClaimChoice(c.tokenHash), views)
  }

  function InDoubt(env: Env, l: Ledger, choice: Choice): View -> bool {
    (v: View) => !v.bypassed && MatchAny(env, l, choice, v.info).Unresolved?
  }

  function HolderWish(env: Env, l: Ledger, c: SoftClaim): View -> Decision {
    (v: View) => HolderDecision(v.row, c, MatchAny(env, l, ClaimChoice(c.tokenHash), v.info))
  }

  function HolderDecision(row: Row, c: SoftClaim, m: Match): Decision {
    match m
    case Matched(a) => Allow(row, ByClaim, a.id, a.tokenHash)
    case _ => Kill(row, c.tokenHash)
  }

  /** A GPU whose claim is in use; the loop ends at the first process it cannot decide. */
  function ClaimedWishes(env: Env, l: Ledger, c: SoftClaim, views: seq<View>, cut: nat): seq<Decision> {
    var k := Find(views, InDoubt(env, l, ClaimChoice(c.tokenHash)));
    Each(Cut(views[..k], cut), HolderWish(env, l, c))
  }

  function Authorized(env: Env, l: Ledger): View -> bool {
    (v: View) => !v.bypassed && MatchAny(env, l, ANY_SOFT, v.info).Matched?
  }

  function Unauthorized(env: Env, l: Ledger): View -> bool {
    (v: View) => !v.bypassed && !MatchAny(env, l, ANY_SOFT, v.info).Matched?
  }

  function SkipWish(reason: Reason): View -> Decision {
    (v: View) => Skip(v.row, reason)
  }

  function HashFor(env: Env, l: Ledger, v: View): string {
    match MatchAny(env, l, ANY_SOFT, v.info)
    case Matched(a) => a.tokenHash
    case _ => ""
  }

  function RejectWish(env: Env, l: Ledger): View -> Decision {
    (v: View) => Kill(v.row, HashFor(env, l, v))
  }

  function WinnerWish(env: Env, l: Ledger, hash: string): View -> Decision {
    (v: View) =>
      match MatchAny(env, l, ANY_SOFT, v.info)
      case Matched(a) => if a.tokenHash == hash then Allow(v.row, ByClaim, a.id, a.tokenHash) else Kill(v.row, hash)
      case _ => Kill(v.row, hash)
  }

  function NewClaim(gpu: int, a: Authorization): SoftClaim {
    SoftClaim("", gpu, a.tokenHash, a.id, a.holder)
  }

  /** A GPU nobody holds: a claim is made only when every process on it is authorized. */
  function OpenWishes(env: Env, l: Ledger, gpu: int, views: seq<View>, cut: nat): seq<Decision> {
    if cut < |views| || Find(views, InDoubt(env, l, ANY_SOFT)) < |views| then []
    else
      var yes, no := Filter(views, Authorized(env, l)), Filter(views, Unauthorized(env, l));
      if yes == [] then Each(no, SkipWish(Unclaimed))
      else if no != [] then Each(no, SkipWish(Contested)) + Each(yes, RejectWish(env, l))
      else match MatchAny(env, l, ANY_SOFT, yes[0].info)
           case Matched(a) => [Claim(NewClaim(gpu, a))] + Each(yes, WinnerWish(env, l, a.tokenHash))
           case _ => []
  }

  function SoftWishes(env: Env, l: Ledger, gpu: int, views: seq<View>, cut: nat): seq<Decision> {
    var cs := Filter(l.claims, ClaimOn(l.tokens, gpu, env.now));
    if cs == [] then OpenWishes(env, l, gpu, views, cut)
    else match ClaimMatches(env, l, cs[0], views)
         case Inconclusive => []
         case Yes => ClaimedWishes(env, l, cs[0], views, cut)
         case No => OpenWishes(env, l, gpu, views, cut)
  }

  /** The three regimes: reserved, legacy lease, claimed. At most `cut` processes are considered
      before the pass is cancelled. */
  function WishesOn(env: Env, l: Ledger, gpu: int, views: seq<View>, cut: nat): seq<Decision> {
    WishesUnder(env, l, Filter(l.reservations, ActiveOn(gpu, env.now)), Filter(l.leases, LeaseOn(gpu, env.now)), gpu, views, cut)
  }

  function WishesUnder(env: Env, l: Ledger, rs: seq<Reservation>, es: seq<Lease>, gpu: int, views: seq<View>, cut: nat): seq<Decision> {
    if rs != [] then Each(Cut(views, cut), HardWish(env, l, rs))
    else if es != [] then Each(Cut(views, cut), LeaseWish(env, es))
    else SoftWishes(env, l, gpu, views, cut)
  }

  // ---------- The pass ----------

  /** Where a pass is cut short: how many processes of each GPU, and how many claims, it reaches. */
  datatype Deadline = Deadline(views: int -> nat, claims: nat)

  ghost predicate Uncut(d: Deadline, l: Ledger, rows: seq<Row>) {
    d.claims >= |l.claims| && forall g :: d.views(g) >= |rows|
  }

  /** What the GPUs, visited in this order, give one after the other. */
  function Flat(order: seq<int>, f: int -> seq<Decision>): seq<Decision> {
    if order == [] then [] else Flat(order[..|order| - 1], f) + f(order[|order| - 1])
  }

  function WishesFor(env: Env, l: Ledger, rows: seq<Row>, d: Deadline): int -> seq<Decision> {
    (g: int) => WishesOn(env, l, g, ViewsOn(env, l, rows, g), d.views(g))
  }

  function WishesAlong(env: Env, l: Ledger, rows: seq<Row>, order: seq<int>, d: Deadline): seq<Decision> {
    Flat(order, WishesFor(env, l, rows, d))
  }

  /** Claims that no process uses any more. */
  function Releases(env: Env, l: Ledger, rows: seq<Row>, cs: seq<SoftClaim>): seq<Decision> {
    if cs == [] then [] else Releases(env, l, rows, cs[..|cs| - 1]) + ReleaseOf(env, l, rows, cs[|cs| - 1])
  }

  function ReleaseOf(env: Env, l: Ledger, rows: seq<Row>, c: SoftClaim): seq<Decision> {
    if ClaimMatches(env, l, c, ViewsOn(env, l, rows, c.gpu)) == No then [Release(c.id)] else []
  }

  /** Everything a pass asks for when it visits the GPUs in this order. */
  function Wishes(env: Env, l: Ledger, rows: seq<Row>, order: seq<int>, d: Deadline): seq<Decision> {
    Openings(env, l, rows) + WishesAlong(env, l, rows, order, d) +
    Releases(env, l, rows, if d.claims < |l.claims| then l.claims[..d.claims] else l.claims)
  }

  /** An order in which a Go map of the GPUs in use may be visited. */
  ghost predicate VisitOrder(env: Env, l: Ledger, rows: seq<Row>, order: seq<int>) {
    NoRepeats(order) && forall g :: g in order <==> ViewsOn(env, l, rows, g) != []
  }

  // ---------- The planner's loops ----------

  /** Decides at once what needs no look at the GPU, and hands on the rest. */
  method SortRow(p: Planner, env: Env, l: Ledger, row: Row) returns (v: Option<View>)
    requires p.Valid()
    modifies p
    ensures p.Valid() && p.wishes == old(p.wishes) + Opening(env, l, row)
    ensures v == ViewOf(env, l, row)
  {
    if !UsesGPU(row) {
      p.Note(Skip(row, NoUsage));
      return None;
    }
    if !env.exists'(row.pid) {
      p.Note(Skip(row, StalePID));
      return None;
    }
    match env.info(row.pid) {
      case InfoFound(info) =>
        var bypassed := Bypassed(l.bypasses, info, env.now, env.bootID);
        if bypassed {
          p.Note(Allow(row, ByBypass, "", ""));
        }
        return Some(View(row, info, bypassed));
      case _ =>
        p.Note(Skip(row, NoInfo));
        return None;
    }
  }

  ghost predicate Sorted(env: Env, l: Ledger, rows: seq<Row>, byGPU: map<int, seq<View>>) {
    forall g :: if g in byGPU then byGPU[g] == ViewsOn(env, l, rows, g) && byGPU[g] != [] else ViewsOn(env, l, rows, g) == []
  }

  lemma SortedStep(env: Env, l: Ledger, rows: seq<Row>, i: nat, byGPU: map<int, seq<View>>)
    requires i < |rows| && Sorted(env, l, rows[..i], byGPU)
    ensures var g, v := rows[i].gpu, ViewOf(env, l, rows[i]);
            Sorted(env, l, rows[..i + 1],
                   if v.None? then byGPU else byGPU[g := (if g in byGPU then byGPU[g] else []) + [v.value]])
    ensures Openings(env, l, rows[..i + 1]) == Openings(env, l, rows[..i]) + Opening(env, l, rows[i])
  {
    assert rows[..i + 1][..i] == rows[..i];
  }

  /** Sorts a sample into per-GPU lists. */
  method SortRows(p: Planner, env: Env, l: Ledger, rows: seq<Row>) returns (byGPU: map<int, seq<View>>)
    requires p.Valid()
    modifies p
    ensures p.Valid() && p.wishes == old(p.wishes) + Openings(env, l, rows)
    ensures Sorted(env, l, rows, byGPU)
  {
    byGPU := map[];
    for i := 0 to |rows|
      invariant p.Valid() && p.wishes == old(p.wishes) + Openings(env, l, rows[..i])
      invariant Sorted(env, l, rows[..i], byGPU)
    {
      var row := rows[i];
      SortedStep(env, l, rows, i, byGPU);
      Assoc(old(p.wishes), Openings(env, l, rows[..i]), Opening(env, l, row));
      var v := SortRow(p, env, l, row);
      if v.Some? {
        byGPU := byGPU[row.gpu := (if row.gpu in byGPU then byGPU[row.gpu] else []) + [v.value]];
      }
    }
    assert rows[..|rows|] == rows;
  }

  method DecideHard(p: Planner, env: Env, l: Ledger, rs: seq<Reservation>, v: View)
    requires p.Valid()
    modifies p
    ensures p.Valid() && p.wishes == old(p.wishes) + One(v, HardWish(env, l, rs))
  {
    if v.bypassed {
      return;
    }
    var m := MatchAnyAuthorization(env, l, HardChoice(rs), v.info);
    p.Wish(HardDecision(v.row, rs, m));
  }

  method EnforceHard(p: Planner, env: Env, l: Ledger, rs: seq<Reservation>, views: seq<View>, cut: nat)
    requires p.Valid()
    modifies p
    ensures p.Valid() && p.wishes == old(p.wishes) + Each(Cut(views, cut), HardWish(env, l, rs))
  {
    var n := if cut < |views| then cut else |views|;
    for i := 0 to n
      invariant p.Valid() && p.wishes == old(p.wishes) + Each(views[..i], HardWish(env, l, rs))
    {
      EachStep(views, i, HardWish(env, l, rs));
      Assoc(old(p.wishes), Each(views[..i], HardWish(env, l, rs)), One(views[i], HardWish(env, l, rs)));
      DecideHard(p, env, l, rs, views[i]);
    }
    assert views[..n] == Cut(views, cut);
  }

  method EnforceLegacyLeases(p: Planner, env: Env, es: seq<Lease>, views: seq<View>, cut: nat)
    requires p.Valid()
    modifies p
    ensures p.Valid() && p.wishes == old(p.wishes) + Each(Cut(views, cut), LeaseWish(env, es))
  {
    var n := if cut < |views| then cut else |views|;
    for i := 0 to n
      invariant p.Valid() && p.wishes == old(p.wishes) + Each(views[..i], LeaseWish(env, es))
    {
      EachStep(views, i, LeaseWish(env, es));
      Assoc(old(p.wishes), Each(views[..i], LeaseWish(env, es)), One(views[i], LeaseWish(env, es)));
      DecideLease(p, env, es, views[i]);
    }
    assert views[..n] == Cut(views, cut);
  }

  method DecideLease(p: Planner, env: Env, es: seq<Lease>, v: View)
    requires p.Valid()
    modifies p
    ensures p.Valid() && p.wishes == old(p.wishes) + One(v, LeaseWish(env, es))
  {
    if v.bypassed {
      return;
    }
    var m := MatchesAnyLease(env, es, v.info);
    p.Wish(LeaseDecision(v.row, m));
  }

  method ClaimHasMatchingProcess(env: Env, l: Ledger, c: SoftClaim, views: seq<View>) returns (v: Verdict)
    ensures v == ClaimMatches(env, l, c, views)
  {
    if c.tokenHash == "" {
      return No;
    }
    for i := 0 to |views|
      invariant AnyViewMatches(env, l, ClaimChoice(c.tokenHash), views)
             == AnyViewMatches(env, l, ClaimChoice(c.tokenHash), views[i..])
    {
      assert views[i..][1..] == views[i + 1..];
      if views[i].bypassed {
        continue;
      }
      var m := MatchAnyAuthorization(env, l, ClaimChoice(c.tokenHash), views[i].info);
      match m {
        case Matched(_) => return Yes;
        case Unresolved => return Inconclusive;
        case NoMatch =>
      }
    }
    return No;
  }

  /** Decides one process on a claimed GPU; false if its match failed. */
  method DecideClaimed(p: Planner, env: Env, l: Ledger, c: SoftClaim, v: View) returns (ok: bool)
    requires p.Valid()
    modifies p
    ensures ok == !InDoubt(env, l, ClaimChoice(c.tokenHash))(v)
    ensures p.Valid() && p.wishes == old(p.wishes) + if ok then One(v, HolderWish(env, l, c)) else []
  {
    if v.bypassed {
      return true;
    }
    var m := MatchAnyAuthorization(env, l, ClaimChoice(c.tokenHash), v.info);
    if m.Unresolved? {
      return false;
    }
    p.Wish(HolderDecision(v.row, c, m));
    return true;
  }

  /** A search that has not found anything up to `i` stops at `i` or goes on. */
  lemma {:induction false} SearchStep(views: seq<View>, doubt: View -> bool, i: nat)
    requires i < |views| && i <= Find(views, doubt)
    ensures if doubt(views[i]) then i == Find(views, doubt) else i + 1 <= Find(views, doubt)
  {
  }

  lemma {:induction false} ClaimedPrefix(env: Env, l: Ledger, c: SoftClaim, views: seq<View>, cut: nat, i: nat)
    requires var k := Find(views, InDoubt(env, l, ClaimChoice(c.tokenHash)));
             i <= k && i <= cut && (i == cut || i == k)
    ensures ClaimedWishes(env, l, c, views, cut) == Each(views[..i], HolderWish(env, l, c))
  {
    var k := Find(views, InDoubt(env, l, ClaimChoice(c.tokenHash)));
    assert Cut(views[..k], cut) == views[..i];
  }

  lemma {:induction false} EachStepAfter(before: seq<Decision>, views: seq<View>, i: nat, f: View -> Decision)
    requires i < |views|
    ensures before + Each(views[..i], f) + One(views[i], f) == before + Each(views[..i + 1], f)
  {
    EachStep(views, i, f);
    Assoc(before, Each(views[..i], f), One(views[i], f));
  }

  method EnforceClaimed(p: Planner, env: Env, l: Ledger, c: SoftClaim, views: seq<View>, cut: nat)
    requires p.Valid()
    modifies p
    ensures p.Valid() && p.wishes == old(p.wishes) + ClaimedWishes(env, l, c, views, cut)
  {
    var n := if cut < |views| then cut else |views|;
    ghost var doubt := InDoubt(env, l, ClaimChoice(c.tokenHash));
    for i := 0 to n
      invariant i <= Find(views, doubt)
      invariant p.Valid() && p.wishes == old(p.wishes) + Each(views[..i], HolderWish(env, l, c))
    {
      SearchStep(views, doubt, i);
      EachStepAfter(old(p.wishes), views, i, HolderWish(env, l, c));
      var ok := DecideClaimed(p, env, l, c, views[i]);
      if !ok {
        ClaimedPrefix(env, l, c, views, cut, i);
        return;
      }
    }
    ClaimedPrefix(env, l, c, views, cut, n);
  }

  method WishOne(p: Planner, v: View, f: View -> Decision)
    requires p.Valid()
    modifies p
    ensures p.Valid() && p.wishes == old(p.wishes) + One(v, f)
  {
    if v.bypassed {
      return;
    }
    p.Wish(f(v));
  }

  /** Notes or wishes the same for each of a list of processes. */
  method WishAll(p: Planner, views: seq<View>, f: View -> Decision)
    requires p.Valid()
    modifies p
    ensures p.Valid() && p.wishes == old(p.wishes) + Each(views, f)
  {
    for i := 0 to |views|
      invariant p.Valid() && p.wishes == old(p.wishes) + Each(views[..i], f)
    {
      EachStep(views, i, f);
      Assoc(old(p.wishes), Each(views[..i], f), One(views[i], f));
      WishOne(p, views[i], f);
    }
    assert views[..|views|] == views;
  }

  /** Splits the processes of a GPU by whether some claimed or managed authorization covers them;
      false if one cannot be decided. */
  method SplitViews(env: Env, l: Ledger, views: seq<View>) returns (ok: bool, yes: seq<View>, no: seq<View>)
    ensures ok == (Find(views, InDoubt(env, l, ANY_SOFT)) == |views|)
    ensures ok ==> yes == Filter(views, Authorized(env, l)) && no == Filter(views, Unauthorized(env, l))
  {
    yes, no := [], [];
    ghost var doubt := InDoubt(env, l, ANY_SOFT);
    for i := 0 to |views|
      invariant yes == Filter(views[..i], Authorized(env, l)) && no == Filter(views[..i], Unauthorized(env, l))
      invariant i <= Find(views, doubt)
    {
      assert views[..i + 1][..i] == views[..i];
      SearchStep(views, doubt, i);
      if views[i].bypassed {
        continue;
      }
      var m := MatchAnyAuthorization(env, l, ANY_SOFT, views[i].info);
      match m {
        case Unresolved => return false, [], [];
        case Matched(_) => yes := yes + [views[i]];
        case NoMatch => no := no + [views[i]];
      }
    }
    assert views[..|views|] == views;
    ok := true;
  }

  method EnforceOpen(p: Planner, env: Env, l: Ledger, gpu: int, views: seq<View>, cut: nat)
    requires p.Valid()
    modifies p
    ensures p.Valid() && p.wishes == old(p.wishes) + OpenWishes(env, l, gpu, views, cut)
  {
    if cut < |views| {
      return;
    }
    var ok, yes, no := SplitViews(env, l, views);
    if !ok {
      return;
    }
    if yes == [] {
      WishAll(p, no, SkipWish(Unclaimed));
    } else if no != [] {
      Assoc(p.wishes, Each(no, SkipWish(Contested)), Each(yes, RejectWish(env, l)));
      WishAll(p, no, SkipWish(Contested));
      WishAll(p, yes, RejectWish(env, l));
    } else {
      var m := MatchAnyAuthorization(env, l, ANY_SOFT, yes[0].info);
      if m.Matched? {
        Assoc(p.wishes, [Claim(NewClaim(gpu, m.authorization))], Each(yes, WinnerWish(env, l, m.authorization.tokenHash)));
        p.Note(Claim(NewClaim(gpu, m.authorization)));
        WishAll(p, yes, WinnerWish(env, l, m.authorization.tokenHash));
      }
    }
  }

  method EnforceSoft(p: Planner, env: Env, l: Ledger, gpu: int, views: seq<View>, cut: nat)
    requires p.Valid()
    modifies p
    ensures p.Valid() && p.wishes == old(p.wishes) + SoftWishes(env, l, gpu, views, cut)
  {
    var cs := FilterSlice(l.claims, ClaimOn(l.tokens, gpu, env.now));
    if cs == [] {
      EnforceOpen(p, env, l, gpu, views, cut);
    } else {
      var v := ClaimHasMatchingProcess(env, l, cs[0], views);
      match v {
        case Inconclusive =>
        case Yes => EnforceClaimed(p, env, l, cs[0], views, cut);
        case No => EnforceOpen(p, env, l, gpu, views, cut);
      }
    }
  }

  method EnforceGPU(p: Planner, env: Env, l: Ledger, gpu: int, views: seq<View>, cut: nat)
    requires p.Valid()
    modifies p
    ensures p.Valid() && p.wishes == old(p.wishes) + WishesOn(env, l, gpu, views, cut)
  {
    var rs := FilterSlice(l.reservations, ActiveOn(gpu, env.now));
    if rs != [] {
      EnforceHard(p, env, l, rs, views, cut);
      return;
    }
    var es := FilterSlice(l.leases, LeaseOn(gpu, env.now));
    if es != [] {
      EnforceLegacyLeases(p, env, es, views, cut);
      return;
    }
    EnforceSoft(p, env, l, gpu, views, cut);
  }

  method ReleaseClaim(p: Planner, env: Env, l: Ledger, rows: seq<Row>, byGPU: map<int, seq<View>>, c: SoftClaim)
    requires p.Valid() && Sorted(env, l, rows, byGPU)
    modifies p
    ensures p.Valid() && p.wishes == old(p.wishes) + ReleaseOf(env, l, rows, c)
  {
    var views := if c.gpu in byGPU then byGPU[c.gpu] else [];
    assert views == ViewsOn(env, l, rows, c.gpu);
    var v := ClaimHasMatchingProcess(env, l, c, views);
    if v == No {
      p.Wish(Release(c.id));
    }
  }

  method ReleaseClaims(p: Planner, env: Env, l: Ledger, rows: seq<Row>, byGPU: map<int, seq<View>>, cs: seq<SoftClaim>)
    requires p.Valid() && Sorted(env, l, rows, byGPU)
    modifies p
    ensures p.Valid() && p.wishes == old(p.wishes) + Releases(env, l, rows, cs)
  {
    for i := 0 to |cs|
      invariant p.Valid() && p.wishes == old(p.wishes) + Releases(env, l, rows, cs[..i])
    {
      assert cs[..i + 1][..i] == cs[..i];
      Assoc(old(p.wishes), Releases(env, l, rows, cs[..i]), ReleaseOf(env, l, rows, cs[i]));
      ReleaseClaim(p, env, l, rows, byGPU, cs[i]);
    }
    assert cs[..|cs|] == cs;
  }

  method EnforceAlong(p: Planner, env: Env, l: Ledger, rows: seq<Row>, byGPU: map<int, seq<View>>, order: seq<int>, d: Deadline)
    requires p.Valid() && Sorted(env, l, rows, byGPU) && forall g :: g in order ==> g in byGPU
    modifies p
    ensures p.Valid() && p.wishes == old(p.wishes) + WishesAlong(env, l, rows, order, d)
  {
    ghost var f := WishesFor(env, l, rows, d);
    for i := 0 to |order|
      invariant p.Valid() && p.wishes == old(p.wishes) + Flat(order[..i], f)
    {
      assert order[..i + 1][..i] == order[..i];
      var g := order[i];
      Assoc(old(p.wishes), Flat(order[..i], f), f(g));
      EnforceGPU(p, env, l, g, byGPU[g], d.views(g));
    }
    assert order[..|order|] == order;
  }

  lemma VisitsSorted(env: Env, l: Ledger, rows: seq<Row>, order: seq<int>, byGPU: map<int, seq<View>>)
    requires VisitOrder(env, l, rows, order) && Sorted(env, l, rows, byGPU)
    ensures forall g :: g in order ==> g in byGPU
  {
  }

  method RunPass(p: Planner, env: Env, l: Ledger, rows: seq<Row>, order: seq<int>, d: Deadline)
    requires p.Valid() && p.wishes == [] && VisitOrder(env, l, rows, order)
    modifies p
    ensures p.Valid() && p.wishes == Wishes(env, l, rows, order, d)
  {
    var byGPU := SortRows(p, env, l, rows);
    assert p.wishes == Openings(env, l, rows);
    VisitsSorted(env, l, rows, order, byGPU);
    EnforceAlong(p, env, l, rows, byGPU, order, d);
    ReleaseClaims(p, env, l, rows, byGPU, if d.claims < |l.claims| then l.claims[..d.claims] else l.claims);
  }

  /** One pass over a sample, visiting the GPUs in some order. */
  method EnforcePass(env: Env, l: Ledger, rows: seq<Row>, order: seq<int>, d: Deadline, dryRun: bool)
    returns (decisions: seq<Decision>, pending: seq<Row>)
    requires VisitOrder(env, l, rows, order)
    ensures decisions == Settled(Wishes(env, l, rows, order, d), dryRun)
    ensures !dryRun ==> IsPlan(pending, decisions)
    ensures dryRun ==> pending == []
  {
    var p := new Planner(dryRun);
    RunPass(p, env, l, rows, order, d);
    decisions, pending := p.decisions, p.pending;
  }
}
