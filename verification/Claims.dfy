/** Soft claims through a monitor pass: a GPU gets a new claim only when its old one goes in the
    same pass, because both decisions rest on the same match test. */
module Claims {
  import opened Options
  import opened Seqs
  import opened Model
  import opened Operations
  import opened Scope
  import opened Kills
  import opened Enforce
  import opened Exclusivity
  import opened Integrity
  import opened Monitor

  // ---------- The claim writes of a pass ----------

  lemma {:induction false} CollectAppend<T>(a: seq<T>, b: seq<T>, f: T -> seq<Event>)
    ensures Collect(a + b, f) == Collect(a, f) + Collect(b, f)
  {
    if b == [] {
      assert a + b == a;
    } else {
      var n := |b| - 1;
      CollectAppend(a, b[..n], f);
      assert (a + b)[..|a + b| - 1] == a + b[..n];
      Assoc(Collect(a, f), Collect(b[..n], f), f(b[n]));
    }
  }

  lemma {:induction false} CollectNothing<T>(xs: seq<T>, f: T -> seq<Event>)
    requires forall x :: x in xs ==> f(x) == []
    ensures Collect(xs, f) == []
  {
    if xs != [] {
      CollectNothing(xs[..|xs| - 1], f);
    }
  }

  lemma {:induction false} CollectMember<T>(xs: seq<T>, f: T -> seq<Event>, e: Event)
    requires e in Collect(xs, f)
    ensures exists x :: x in xs && e in f(x)
  {
    var n := |xs| - 1;
    if e in Collect(xs[..n], f) {
      CollectMember(xs[..n], f, e);
      var x :| x in xs[..n] && e in f(x);
      assert x in xs;
    } else {
      var x := xs[n];
      assert x in xs && e in f(x);
    }
  }

  lemma {:induction false} CollectSettled(o: Round, ws: seq<Decision>, dryRun: bool)
    ensures Collect(Settled(ws, dryRun), ClaimEvent(o)) == Collect(ws, ClaimEvent(o))
  {
    if ws != [] {
      var n := |ws| - 1;
      CollectSettled(o, ws[..n], dryRun);
      assert Settled(ws, dryRun)[..n] == Settled(ws[..n], dryRun);
    }
  }

  lemma {:induction false} CollectFlat(o: Round, order: seq<int>, w: int -> seq<Decision>, h: int -> seq<Event>)
    requires forall g :: h(g) == Collect(w(g), ClaimEvent(o))
    ensures Collect(Flat(order, w), ClaimEvent(o)) == Collect(order, h)
  {
    if order != [] {
      var n := |order| - 1;
      CollectFlat(o, order[..n], w, h);
      CollectAppend(Flat(order[..n], w), w(order[n]), ClaimEvent(o));
    }
  }

  lemma {:induction false} CollectEach(o: Round, views: seq<View>, f: View -> Decision)
    requires KeepsRow(f)
    ensures Collect(Each(views, f), ClaimEvent(o)) == []
  {
    forall d | d in Each(views, f) ensures ClaimEvent(o)(d) == [] {
      EachConcerns(views, f, d);
    }
    CollectNothing(Each(views, f), ClaimEvent(o));
  }

  /** The GPU is up for a new claim: neither reserved nor leased, and its old claim, if any, is unused. */
  predicate Open(env: Env, l: Ledger, gpu: int, views: seq<View>) {
    var cs := Filter(l.claims, ClaimOn(l.tokens, gpu, env.now));
    && Filter(l.reservations, ActiveOn(gpu, env.now)) == [] && Filter(l.leases, LeaseOn(gpu, env.now)) == []
    && (cs == [] || ClaimMatches(env, l, cs[0], views) == No)
  }

  /** The authorization for which the GPU is claimed, if it is. */
  function Winner(env: Env, l: Ledger, views: seq<View>, cut: nat): Option<Authorization> {
    var yes, no := Filter(views, Authorized(env, l)), Filter(views, Unauthorized(env, l));
    if cut < |views| || Find(views, InDoubt(env, l, ANY_SOFT)) < |views| || yes == [] || no != [] then None
    else match MatchAny(env, l, ANY_SOFT, yes[0].info)
         case Matched(a) => Some(a)
         case _ => None
  }

  function ClaimWrites(o: Round, gpu: int, w: Option<Authorization>): seq<Event> {
    match w
    case None => []
    case Some(a) => ClaimEvent(o)(Claim(NewClaim(gpu, a)))
  }

  lemma {:induction false} OpenClaims(o: Round, env: Env, l: Ledger, gpu: int, views: seq<View>, cut: nat)
    ensures Collect(OpenWishes(env, l, gpu, views, cut), ClaimEvent(o)) == ClaimWrites(o, gpu, Winner(env, l, views, cut))
  {
    var yes, no := Filter(views, Authorized(env, l)), Filter(views, Unauthorized(env, l));
    if cut < |views| || Find(views, InDoubt(env, l, ANY_SOFT)) < |views| {
    } else if yes == [] {
      CollectEach(o, no, SkipWish(Unclaimed));
    } else if no != [] {
      ContestedClaims(o, env, l, yes, no);
    } else {
      match MatchAny(env, l, ANY_SOFT, yes[0].info)
      case Matched(a) => WinnerClaims(o, env, l, gpu, yes, a);
      case _ =>
    }
  }

  lemma {:induction false} WinnerClaims(o: Round, env: Env, l: Ledger, gpu: int, yes: seq<View>, a: Authorization)
    ensures Collect([Claim(NewClaim(gpu, a))] + Each(yes, WinnerWish(env, l, a.tokenHash)), ClaimEvent(o))
            == ClaimEvent(o)(Claim(NewClaim(gpu, a)))
  {
    var first, rest := [Claim(NewClaim(gpu, a))], Each(yes, WinnerWish(env, l, a.tokenHash));
    CollectEach(o, yes, WinnerWish(env, l, a.tokenHash));
    CollectAppend(first, rest, ClaimEvent(o));
    assert first[..0] == [];
  }

  lemma {:induction false} ContestedClaims(o: Round, env: Env, l: Ledger, yes: seq<View>, no: seq<View>)
    ensures Collect(Each(no, SkipWish(Contested)) + Each(yes, RejectWish(env, l)), ClaimEvent(o)) == []
  {
    CollectEach(o, no, SkipWish(Contested));
    CollectEach(o, yes, RejectWish(env, l));
    CollectAppend(Each(no, SkipWish(Contested)), Each(yes, RejectWish(env, l)), ClaimEvent(o));
  }

  lemma {:induction false} SoftClaims(o: Round, env: Env, l: Ledger, gpu: int, views: seq<View>, cut: nat)
    ensures var cs := Filter(l.claims, ClaimOn(l.tokens, gpu, env.now));
            Collect(SoftWishes(env, l, gpu, views, cut), ClaimEvent(o))
            == if cs == [] || ClaimMatches(env, l, cs[0], views) == No then ClaimWrites(o, gpu, Winner(env, l, views, cut)) else []
  {
    var cs := Filter(l.claims, ClaimOn(l.tokens, gpu, env.now));
    OpenClaims(o, env, l, gpu, views, cut);
    if cs != [] && ClaimMatches(env, l, cs[0], views) == Yes {
      var k := Find(views, InDoubt(env, l, ClaimChoice(cs[0].tokenHash)));
      CollectEach(o, Cut(views[..k], cut), HolderWish(env, l, cs[0]));
    }
  }

  /** A GPU gives at most one claim write, and only when it is open and has a winner. */
  lemma {:induction false} ClaimsOn(o: Round, env: Env, l: Ledger, gpu: int, views: seq<View>, cut: nat)
    ensures Collect(WishesOn(env, l, gpu, views, cut), ClaimEvent(o))
            == ClaimWrites(o, gpu, if Open(env, l, gpu, views) then Winner(env, l, views, cut) else None)
  {
    var rs := Filter(l.reservations, ActiveOn(gpu, env.now));
    var es := Filter(l.leases, LeaseOn(gpu, env.now));
    if rs != [] {
      CollectEach(o, Cut(views, cut), HardWish(env, l, rs));
    } else if es != [] {
      CollectEach(o, Cut(views, cut), LeaseWish(env, es));
    } else {
      SoftClaims(o, env, l, gpu, views, cut);
    }
  }

  /** For whom the pass claims the GPU anew, if it does. */
  function WinnerOn(l: Ledger, o: Round, g: int): Option<Authorization> {
    var env, views := EnforceEnv(o), ViewsOn(EnforceEnv(o), l, Remaining(l, o), g);
    if Open(env, l, g, views) then Winner(env, l, views, o.deadline.views(g)) else None
  }

  function NewWrites(l: Ledger, o: Round): int -> seq<Event> {
    (g: int) => ClaimWrites(o, g, WinnerOn(l, o, g))
  }

  function OldWrite(l: Ledger, o: Round): SoftClaim -> seq<Event> {
    (c: SoftClaim) =>
      if ClaimMatches(EnforceEnv(o), l, c, ViewsOn(EnforceEnv(o), l, Remaining(l, o), c.gpu)) == No then ClaimEvent(o)(Release(c.id)) else []
  }

  function Reached(l: Ledger, o: Round): seq<SoftClaim> {
    if o.deadline.claims < |l.claims| then l.claims[..o.deadline.claims] else l.claims
  }

  lemma {:induction false} CollectOne(d: Decision, o: Round)
    ensures Collect([d], ClaimEvent(o)) == ClaimEvent(o)(d)
  {
    assert [d][..0] == [];
  }

  lemma {:induction false} CollectReleases(l: Ledger, o: Round, cs: seq<SoftClaim>)
    ensures Collect(Releases(EnforceEnv(o), l, Remaining(l, o), cs), ClaimEvent(o)) == Collect(cs, OldWrite(l, o))
  {
    if cs != [] {
      var n := |cs| - 1;
      var env, rows := EnforceEnv(o), Remaining(l, o);
      var before := Releases(env, l, rows, cs[..n]);
      CollectReleases(l, o, cs[..n]);
      if ClaimMatches(env, l, cs[n], ViewsOn(env, l, rows, cs[n].gpu)) == No {
        CollectAppend(before, [Release(cs[n].id)], ClaimEvent(o));
        CollectOne(Release(cs[n].id), o);
      } else {
        assert before + [] == before;
      }
    }
  }

  /** The claim writes of a pass: first at most one new claim per GPU, then the releases. */
  lemma {:induction false} ClaimEventsShape(l: Ledger, o: Round)
    ensures ClaimEvents(l, o) == Collect(o.order, NewWrites(l, o)) + Collect(Reached(l, o), OldWrite(l, o))
  {
    var env, rows := EnforceEnv(o), Remaining(l, o);
    var a, b, c := Openings(env, l, rows), WishesAlong(env, l, rows, o.order, o.deadline), Releases(env, l, rows, Reached(l, o));
    CollectSettled(o, a + b + c, o.dryRun);
    CollectAppend(a + b, c, ClaimEvent(o));
    CollectAppend(a, b, ClaimEvent(o));
    OpeningWrites(o, env, l, rows);
    var w := WishesFor(env, l, rows, o.deadline);
    forall g ensures NewWrites(l, o)(g) == Collect(w(g), ClaimEvent(o)) {
      ClaimsOn(o, env, l, g, ViewsOn(env, l, rows, g), o.deadline.views(g));
    }
    CollectFlat(o, o.order, w, NewWrites(l, o));
    CollectReleases(l, o, Reached(l, o));
    assert [] + Collect(o.order, NewWrites(l, o)) == Collect(o.order, NewWrites(l, o));
  }

  lemma {:induction false} OpeningWrites(o: Round, env: Env, l: Ledger, rows: seq<Row>)
    ensures Collect(Openings(env, l, rows), ClaimEvent(o)) == []
  {
    var ds := Openings(env, l, rows);
    forall d | d in ds ensures ClaimEvent(o)(d) == [] {
      OpeningAboutRow(env, l, rows, d);
    }
    CollectNothing(ds, ClaimEvent(o));
  }

  lemma {:induction false} OpeningAboutRow(env: Env, l: Ledger, rows: seq<Row>, d: Decision)
    requires d in Openings(env, l, rows)
    ensures AboutRow(d)
  {
    var n := |rows| - 1;
    if d in Openings(env, l, rows[..n]) {
      OpeningAboutRow(env, l, rows[..n], d);
    }
  }

  // ---------- Fresh ids ----------

  predicate OldID(l: Ledger, id: string) {
    exists i :: 0 <= i < |l.claims| && l.claims[i].id == id
  }

  /** Every stored claim id was there at the start or was generated for one of these GPUs. */
  predicate IDsFrom(l: Ledger, newID: int -> string, gpus: seq<int>, cs: seq<SoftClaim>) {
    forall i :: 0 <= i < |cs| ==> OldID(l, cs[i].id) || exists g :: g in gpus && cs[i].id == newID(g)
  }

  /** The GPU's write, if any, upserts one nameless claim on it under its own fresh id. */
  predicate WritesClaim(o: Round, g: int, es: seq<Event>) {
    es == [] || (|es| == 1 && es[0].op.UpsertClaimOp? && es[0].op.claim.id == "" && es[0].op.claim.gpu == g && es[0].op.freshID == o.freshClaim(g))
  }

  lemma NewWritesShape(l: Ledger, o: Round, g: int)
    ensures WritesClaim(o, g, NewWrites(l, o)(g))
  {
    match WinnerOn(l, o, g)
    case None =>
    case Some(a) => assert NewWrites(l, o)(g) == ClaimEvent(o)(Claim(NewClaim(g, a)));
  }

  lemma {:induction false} RunAppend(l: Ledger, a: seq<Event>, b: seq<Event>)
    ensures Run(l, a + b) == Run(Run(l, a), b)
  {
    if b == [] {
      assert a + b == a;
    } else {
      RunAppend(l, a, b[..|b| - 1]);
      assert (a + b)[..|a + b| - 1] == a + b[..|b| - 1];
    }
  }

  lemma RunOne(l: Ledger, e: Event)
    ensures Run(l, [e]) == After(l, e.op, e.save)
  {
    assert [e][..0] == [];
  }

  lemma {:induction false} StillFresh(l: Ledger, newID: int -> string, gpus: seq<int>, m: Ledger, g: int)
    requires FreshClaims(l, newID) && IDsFrom(l, newID, gpus, m.claims) && g !in gpus
    ensures FreshClaim(m, newID(g))
  {
    forall i | 0 <= i < |m.claims| ensures m.claims[i].id != newID(g) {
      if OldID(l, m.claims[i].id) {
        assert FreshClaim(l, newID(g));
      } else {
        var h :| h in gpus && m.claims[i].id == newID(h);
        assert h != g;
      }
    }
  }

  lemma {:induction false} UpsertIDs(l: Ledger, newID: int -> string, gpus: seq<int>, m: Ledger, e: Event, g: int)
    requires IDsFrom(l, newID, gpus, m.claims)
    requires e.op.UpsertClaimOp? && e.op.claim.id == "" && e.op.freshID == newID(g)
    ensures IDsFrom(l, newID, gpus + [g], After(m, e.op, e.save).claims)
  {
    var n := After(m, e.op, e.save);
    forall i | 0 <= i < |n.claims| ensures OldID(l, n.claims[i].id) || exists h :: h in gpus + [g] && n.claims[i].id == newID(h) {
      if i < |m.claims| {
        assert n.claims[i].id == m.claims[i].id;
        if !OldID(l, m.claims[i].id) {
          var h :| h in gpus && m.claims[i].id == newID(h);
          assert h in gpus + [g];
        }
      } else {
        assert g in gpus + [g] && n.claims[i].id == newID(g);
      }
    }
  }

  lemma {:induction false} MoreGPUs(l: Ledger, newID: int -> string, gpus: seq<int>, g: int, cs: seq<SoftClaim>)
    requires IDsFrom(l, newID, gpus, cs)
    ensures IDsFrom(l, newID, gpus + [g], cs)
  {
    forall i | 0 <= i < |cs| ensures OldID(l, cs[i].id) || exists h :: h in gpus + [g] && cs[i].id == newID(h) {
      if !OldID(l, cs[i].id) {
        var h :| h in gpus && cs[i].id == newID(h);
        assert h in gpus + [g];
      }
    }
  }

  /** The write of one more GPU keeps the ledger sound. */
  lemma {:induction false} NewClaimSound(l: Ledger, o: Round, gpus: seq<int>, m: Ledger, g: int, es: seq<Event>, clock: int)
    requires Sound(m, clock) && FreshClaims(l, o.freshClaim) && IDsFrom(l, o.freshClaim, gpus, m.claims) && g !in gpus
    requires WritesClaim(o, g, es)
    ensures Sound(Run(m, es), clock) && IDsFrom(l, o.freshClaim, gpus + [g], Run(m, es).claims)
  {
    if es == [] {
      MoreGPUs(l, o.freshClaim, gpus, g, m.claims);
    } else {
      RunOne(m, es[0]);
      assert es == [es[0]];
      StillFresh(l, o.freshClaim, gpus, m, g);
      StepSound(m, es[0].op, es[0].save, clock);
      UpsertIDs(l, o.freshClaim, gpus, m, es[0], g);
    }
  }

  /** Visiting GPUs in order, each changing a state. */
  function Visit<S>(order: seq<int>, step: (int, S) -> S, s: S): S {
    if order == [] then s else step(order[|order| - 1], Visit(order[..|order| - 1], step, s))
  }

  /** One more GPU keeps a property of the GPUs done and the state. */
  ghost predicate Keeps<S(!new)>(step: (int, S) -> S, inv: (seq<int>, S) -> bool, gpus: seq<int>, g: int, s: S) {
    inv(gpus, s) && g !in gpus ==> inv(gpus + [g], step(g, s))
  }

  lemma {:induction false} VisitKeeps<S(!new)>(order: seq<int>, step: (int, S) -> S, s: S, inv: (seq<int>, S) -> bool)
    requires NoRepeats(order) && inv([], s) && forall gpus, g, t :: Keeps(step, inv, gpus, g, t)
    ensures inv(order, Visit(order, step, s))
  {
    if order != [] {
      var n := |order| - 1;
      VisitKeeps(order[..n], step, s, inv);
      assert Keeps(step, inv, order[..n], order[n], Visit(order[..n], step, s));
      assert order == order[..n] + [order[n]];
    }
  }

  /** A ledger, and whether all writes to it succeeded. */
  datatype Written = Written(ledger: Ledger, ok: bool)

  function Writing(f: int -> seq<Event>): (int, Written) -> Written {
    (g: int, w: Written) => Written(Run(w.ledger, f(g)), w.ok && AllSucceed(w.ledger, f(g)))
  }

  lemma {:induction false} VisitIsRun(l: Ledger, f: int -> seq<Event>, order: seq<int>)
    ensures Visit(order, Writing(f), Written(l, true)) == Written(Run(l, Collect(order, f)), AllSucceed(l, Collect(order, f)))
  {
    if order != [] {
      var n := |order| - 1;
      VisitIsRun(l, f, order[..n]);
      RunAppend(l, Collect(order[..n], f), f(order[n]));
      AllSucceedAppend(l, Collect(order[..n], f), f(order[n]));
    }
  }

  ghost function SoundSoFar(l: Ledger, o: Round, clock: int): (seq<int>, Written) -> bool {
    (gpus: seq<int>, w: Written) => Sound(w.ledger, clock) && IDsFrom(l, o.freshClaim, gpus, w.ledger.claims)
  }

  lemma {:induction false} NewClaimsSound(l: Ledger, o: Round, f: int -> seq<Event>, order: seq<int>, clock: int)
    requires Sound(l, clock) && FreshClaims(l, o.freshClaim) && NoRepeats(order) && forall g :: WritesClaim(o, g, f(g))
    ensures Sound(Run(l, Collect(order, f)), clock)
  {
    var inv := SoundSoFar(l, o, clock);
    forall i | 0 <= i < |l.claims| ensures OldID(l, l.claims[i].id) {
    }
    assert inv([], Written(l, true));
    forall gpus, g, w ensures Keeps(Writing(f), inv, gpus, g, w) {
      if inv(gpus, w) && g !in gpus {
        NewClaimSound(l, o, gpus, w.ledger, g, f(g), clock);
      }
    }
    VisitKeeps(order, Writing(f), Written(l, true), inv);
    VisitIsRun(l, f, order);
  }

  /** Writes that the daemon may issue whatever the ledger holds. */
  predicate AlwaysAllowed(op: Op) {
    op.ReleaseClaimOp? || op.ReleaseAuthorizationOp? || op.ReleaseLeaseOp?
  }

  lemma {:induction false} AllowedSound(l: Ledger, events: seq<Event>, clock: int)
    requires Sound(l, clock) && forall e :: e in events ==> AlwaysAllowed(e.op)
    ensures Sound(Run(l, events), clock)
  {
    if events != [] {
      var n := |events| - 1;
      AllowedSound(l, events[..n], clock);
      assert events[n] in events;
      StepSound(Run(l, events[..n]), events[n].op, events[n].save, clock);
    }
  }

  lemma {:induction false} OldWritesAllowed(l: Ledger, o: Round, cs: seq<SoftClaim>, e: Event)
    requires e in Collect(cs, OldWrite(l, o))
    ensures e.op.ReleaseClaimOp?
  {
    CollectMember(cs, OldWrite(l, o), e);
    var c :| c in cs && e in OldWrite(l, o)(c);
    assert OldWrite(l, o)(c) == ClaimEvent(o)(Release(c.id));
  }

  /** The claim writes of a pass keep the ledger sound. */
  lemma {:induction false} ClaimEventsSound(l: Ledger, o: Round, clock: int)
    requires Sound(l, clock) && FreshClaims(l, o.freshClaim) && NoRepeats(o.order)
    ensures Sound(Run(l, ClaimEvents(l, o)), clock)
  {
    ClaimEventsShape(l, o);
    var news, olds := Collect(o.order, NewWrites(l, o)), Collect(Reached(l, o), OldWrite(l, o));
    forall g ensures WritesClaim(o, g, NewWrites(l, o)(g)) {
      NewWritesShape(l, o, g);
    }
    NewClaimsSound(l, o, NewWrites(l, o), o.order, clock);
    RunAppend(l, news, olds);
    forall e | e in olds ensures AlwaysAllowed(e.op) {
      OldWritesAllowed(l, o, Reached(l, o), e);
    }
    AllowedSound(Run(l, news), olds, clock);
  }

  // ---------- One claim per GPU ----------

  function OtherGPU(): (SoftClaim, SoftClaim) -> bool {
    (a: SoftClaim, b: SoftClaim) => a.gpu != b.gpu
  }

  ghost predicate OneClaimPerGPU(l: Ledger) {
    Pairwise(l.claims, OtherGPU())
  }

  lemma {:induction false} NoCandidateNoMatch(env: Env, l: Ledger, choice: Choice, views: seq<View>)
    requires forall i :: 0 <= i < |l.authorizations| ==> !Candidate(l.tokens, choice, l.authorizations[i], env.now)
    ensures AnyViewMatches(env, l, choice, views) == No
  {
    if views != [] {
      NoCandidateNoMatch(env, l, choice, views[1..]);
    }
  }

  lemma {:induction false} TokenAt(l: Ledger, hash: string, now: int)
    requires TokensDistinct(l)
    ensures ClaimStands(l.tokens, hash, now)
            <==> TokenOf(l.tokens, hash).Some? && TokenUsable(TokenOf(l.tokens, hash).value, now) && SoftMode(TokenOf(l.tokens, hash).value.mode)
  {
    var t, k := TokenOf(l.tokens, hash), Find(l.tokens, UsableWith(hash, now));
    if t.Some? {
      var m :| 0 <= m < |l.tokens| && l.tokens[m] == t.value;
      assert forall i :: 0 <= i < |l.tokens| && l.tokens[i].hash == hash ==> i == m;
      if TokenUsable(t.value, now) {
        assert UsableWith(hash, now)(l.tokens[m]);
      }
    }
  }

  /** A claim whose token no longer stands matches no process. */
  lemma {:induction false} FallenClaim(env: Env, l: Ledger, c: SoftClaim, views: seq<View>)
    requires TokensDistinct(l) && !ClaimStands(l.tokens, c.tokenHash, env.now)
    ensures ClaimMatches(env, l, c, views) == No
  {
    TokenAt(l, c.tokenHash, env.now);
    if c.tokenHash != "" {
      NoCandidateNoMatch(env, l, ClaimChoice(c.tokenHash), views);
    }
  }

  lemma {:induction false} UnmatchedView(env: Env, l: Ledger, choice: Choice, views: seq<View>, v: View)
    requires AnyViewMatches(env, l, choice, views) == No && v in views && !v.bypassed
    ensures MatchAny(env, l, choice, v.info) == NoMatch
  {
    if views[0] != v {
      UnmatchedView(env, l, choice, views[1..], v);
    }
  }

  lemma {:induction false} SoftMatchIsClaimMatch(env: Env, l: Ledger, info: Info)
    ensures var m := MatchAny(env, l, ANY_SOFT, info);
            m.Matched? ==> MatchAny(env, l, ClaimChoice(m.authorization.tokenHash), info).Matched?
  {
    var m := MatchAny(env, l, ANY_SOFT, info);
    if m.Matched? {
      MatchAnyMeaning(env, l, ClaimChoice(m.authorization.tokenHash), info);
      var k := Find(l.authorizations, Hits(env, l.tokens, ANY_SOFT, info));
      assert Candidate(l.tokens, ClaimChoice(m.authorization.tokenHash), l.authorizations[k], env.now);
    }
  }

  /** When a GPU is claimed anew, its old claim is found unused by the same test and belonged to
      another token. */
  lemma {:induction false} ClaimReplaces(env: Env, l: Ledger, gpu: int, views: seq<View>, cut: nat, c: SoftClaim)
    requires TokensDistinct(l) && OneClaimPerGPU(l) && c in l.claims && c.gpu == gpu
    requires Open(env, l, gpu, views) && Winner(env, l, views, cut).Some?
    ensures ClaimMatches(env, l, c, views) == No
    ensures Winner(env, l, views, cut).value.tokenHash != c.tokenHash
  {
    var cs := Filter(l.claims, ClaimOn(l.tokens, gpu, env.now));
    var yes := Filter(views, Authorized(env, l));
    var a := Winner(env, l, views, cut).value;
    FilterMembers(views, Authorized(env, l));
    assert yes[0] in yes;
    WinnerStands(env, l, views, cut);
    if ClaimStands(l.tokens, c.tokenHash, env.now) {
      FilterMembers(l.claims, ClaimOn(l.tokens, gpu, env.now));
      assert ClaimOn(l.tokens, gpu, env.now)(c);
      assert c in cs;
      assert cs[0] in cs;
      SameGPUSameClaim(l, cs[0], c);
      if a.tokenHash == c.tokenHash {
        UnmatchedView(env, l, ClaimChoice(c.tokenHash), views, yes[0]);
        SoftMatchIsClaimMatch(env, l, yes[0].info);
      }
    } else {
      FallenClaim(env, l, c, views);
    }
  }

  lemma {:induction false} SameGPUSameClaim(l: Ledger, a: SoftClaim, b: SoftClaim)
    requires OneClaimPerGPU(l) && a in l.claims && b in l.claims && a.gpu == b.gpu
    ensures a == b
  {
    var i :| 0 <= i < |l.claims| && l.claims[i] == a;
    var j :| 0 <= j < |l.claims| && l.claims[j] == b;
  }

  lemma {:induction false} WinnerStands(env: Env, l: Ledger, views: seq<View>, cut: nat)
    requires TokensDistinct(l) && Winner(env, l, views, cut).Some?
    ensures var h := Winner(env, l, views, cut).value.tokenHash; h != "" && ClaimStands(l.tokens, h, env.now)
  {
    var yes := Filter(views, Authorized(env, l));
    CandidateMatched(env, l, ANY_SOFT, yes[0].info);
    var h := Winner(env, l, views, cut).value.tokenHash;
    TokenAt(l, h, env.now);
    var t := TokenOf(l.tokens, h).value;
    var m :| 0 <= m < |l.tokens| && l.tokens[m] == t;
    assert TokenFits(l.managedKeys, l.tokens[m]);
  }

  /** The pass finds no process under the claim. */
  predicate Unused(l: Ledger, o: Round, c: SoftClaim) {
    ClaimMatches(EnforceEnv(o), l, c, ViewsOn(EnforceEnv(o), l, Remaining(l, o), c.gpu)) == No
  }

  /** A claim with this id is to be released. */
  predicate Goes(l: Ledger, o: Round, id: string) {
    exists i :: 0 <= i < |l.claims| && l.claims[i].id == id && Unused(l, o, l.claims[i])
  }

  /** Different GPUs, or one of the two is to be released. */
  function Compatible(l: Ledger, o: Round): (SoftClaim, SoftClaim) -> bool {
    (a: SoftClaim, b: SoftClaim) => a.gpu != b.gpu || Goes(l, o, a.id) || Goes(l, o, b.id)
  }

  predicate OldOrNew(l: Ledger, o: Round, gpus: seq<int>, c: SoftClaim) {
    c in l.claims || c.gpu in gpus
  }

  lemma {:induction false} OldClaimYields(l: Ledger, o: Round, g: int, c: SoftClaim)
    requires TokensDistinct(l) && OneClaimPerGPU(l) && c in l.claims && c.gpu == g && WinnerOn(l, o, g).Some?
    ensures Goes(l, o, c.id) && WinnerOn(l, o, g).value.tokenHash != c.tokenHash
  {
    var env, views := EnforceEnv(o), ViewsOn(EnforceEnv(o), l, Remaining(l, o), g);
    ClaimReplaces(env, l, g, views, o.deadline.views(g), c);
    var i :| 0 <= i < |l.claims| && l.claims[i] == c;
    assert Unused(l, o, l.claims[i]);
  }

  lemma {:induction false} Newcomer(l: Ledger, o: Round, gpus: seq<int>, g: int, a: Authorization, x: SoftClaim, c: SoftClaim)
    requires TokensDistinct(l) && OneClaimPerGPU(l) && g !in gpus && WinnerOn(l, o, g) == Some(a)
    requires OldOrNew(l, o, gpus, x) && c.gpu == g
    ensures Compatible(l, o)(x, c) && !SameClaim(g, a.tokenHash)(x)
  {
    if x.gpu == g {
      OldClaimYields(l, o, g, x);
    }
  }

  lemma {:induction false} UpsertAppends(m: Ledger, claim: SoftClaim, newID: string, save: SaveEnd)
    requires claim.id == "" && Succeeds(m, Event(UpsertClaimOp(claim, newID), save))
    requires forall i :: 0 <= i < |m.claims| ==> !SameClaim(claim.gpu, claim.tokenHash)(m.claims[i])
    ensures After(m, UpsertClaimOp(claim, newID), save).claims == m.claims + [claim.(id := newID)]
  {
  }

  /** Adding the new claim of one more GPU. */
  lemma {:induction false} OneMoreClaim(l: Ledger, o: Round, gpus: seq<int>, m: Ledger, g: int, a: Authorization, save: SaveEnd)
    requires TokensDistinct(l) && OneClaimPerGPU(l) && g !in gpus && WinnerOn(l, o, g) == Some(a)
    requires Pairwise(m.claims, Compatible(l, o)) && forall i :: 0 <= i < |m.claims| ==> OldOrNew(l, o, gpus, m.claims[i])
    requires Succeeds(m, Event(UpsertClaimOp(NewClaim(g, a), o.freshClaim(g)), save))
    ensures var cs := After(m, UpsertClaimOp(NewClaim(g, a), o.freshClaim(g)), save).claims;
            && Pairwise(cs, Compatible(l, o))
            && forall i :: 0 <= i < |cs| ==> OldOrNew(l, o, gpus + [g], cs[i])
  {
    var c := NewClaim(g, a).(id := o.freshClaim(g));
    forall i | 0 <= i < |m.claims| ensures Compatible(l, o)(m.claims[i], c) && !SameClaim(g, a.tokenHash)(m.claims[i]) {
      Newcomer(l, o, gpus, g, a, m.claims[i], c);
    }
    UpsertAppends(m, NewClaim(g, a), o.freshClaim(g), save);
    AppendPairwise(m.claims, [c], Compatible(l, o));
    OldOrNewStill(l, o, gpus, m.claims, c);
  }

  lemma {:induction false} OldOrNewStill(l: Ledger, o: Round, gpus: seq<int>, cs: seq<SoftClaim>, c: SoftClaim)
    requires forall i :: 0 <= i < |cs| ==> OldOrNew(l, o, gpus, cs[i])
    ensures forall i :: 0 <= i < |cs + [c]| ==> OldOrNew(l, o, gpus + [c.gpu], (cs + [c])[i])
  {
    forall i | 0 <= i < |cs| ensures OldOrNew(l, o, gpus + [c.gpu], cs[i]) {
      assert OldOrNew(l, o, gpus, cs[i]);
    }
  }

  /** What holds while new claims are written: each is compatible with the others, and each is an
      old one or on a GPU already visited. */
  ghost predicate Midway(l: Ledger, o: Round, gpus: seq<int>, cs: seq<SoftClaim>) {
    Pairwise(cs, Compatible(l, o)) && forall i :: 0 <= i < |cs| ==> OldOrNew(l, o, gpus, cs[i])
  }

  lemma {:induction false} NewClaimMidway(l: Ledger, o: Round, gpus: seq<int>, m: Ledger, g: int)
    requires TokensDistinct(l) && OneClaimPerGPU(l) && g !in gpus && Midway(l, o, gpus, m.claims)
    requires AllSucceed(m, NewWrites(l, o)(g))
    ensures Midway(l, o, gpus + [g], Run(m, NewWrites(l, o)(g)).claims)
  {
    match WinnerOn(l, o, g)
    case None =>
      assert NewWrites(l, o)(g) == [];
      forall i | 0 <= i < |m.claims| ensures OldOrNew(l, o, gpus + [g], m.claims[i]) {
        assert OldOrNew(l, o, gpus, m.claims[i]);
      }
    case Some(a) =>
      var d := Claim(NewClaim(g, a));
      var e := Event(UpsertClaimOp(NewClaim(g, a), o.freshClaim(g)), o.claimSave(d));
      assert NewWrites(l, o)(g) == ClaimEvent(o)(d) == [e];
      RunOne(m, e);
      OneMoreEvent(m, [], e);
      assert [] + [e] == [e];
      OneMoreClaim(l, o, gpus, m, g, a, e.save);
  }

  lemma {:induction false} OldMidway(l: Ledger, o: Round)
    requires OneClaimPerGPU(l)
    ensures Midway(l, o, [], l.claims)
  {
    forall i, j | 0 <= i < j < |l.claims| ensures Compatible(l, o)(l.claims[i], l.claims[j]) {
      assert OtherGPU()(l.claims[i], l.claims[j]);
    }
  }

  ghost function MidwaySoFar(l: Ledger, o: Round): (seq<int>, Written) -> bool {
    (gpus: seq<int>, w: Written) => w.ok ==> Midway(l, o, gpus, w.ledger.claims)
  }

  lemma {:induction false} NewClaimsCompatible(l: Ledger, o: Round, order: seq<int>)
    requires TokensDistinct(l) && OneClaimPerGPU(l) && NoRepeats(order)
    requires AllSucceed(l, Collect(order, NewWrites(l, o)))
    ensures Midway(l, o, order, Run(l, Collect(order, NewWrites(l, o))).claims)
  {
    var inv, f := MidwaySoFar(l, o), NewWrites(l, o);
    OldMidway(l, o);
    assert inv([], Written(l, true));
    forall gpus, g, w ensures Keeps(Writing(f), inv, gpus, g, w) {
      if w.ok && inv(gpus, w) && g !in gpus && AllSucceed(w.ledger, f(g)) {
        NewClaimMidway(l, o, gpus, w.ledger, g);
      }
    }
    VisitKeeps(order, Writing(f), Written(l, true), inv);
    VisitIsRun(l, f, order);
    assert inv(order, Written(Run(l, Collect(order, f)), true));
  }

  lemma {:induction false} ReleasedGone(m: Ledger, id: string, save: SaveEnd)
    requires Succeeds(m, Event(ReleaseClaimOp(id), save))
    ensures After(m, ReleaseClaimOp(id), save).claims == Filter(m.claims, OtherClaim(id))
    ensures forall c :: c in After(m, ReleaseClaimOp(id), save).claims <==> c in m.claims && c.id != id
  {
    FilterMembers(m.claims, OtherClaim(id));
    if |Filter(m.claims, OtherClaim(id))| == |m.claims| {
      FilterAll(m.claims, OtherClaim(id));
    }
  }

  /** No claim is left under the id of an unused one of these. */
  ghost predicate Removed(unused: SoftClaim -> bool, cs: seq<SoftClaim>, left: seq<SoftClaim>) {
    forall c, x :: c in cs && unused(c) && x in left ==> x.id != c.id
  }

  function ReleaseIf(unused: SoftClaim -> bool, save: string -> SaveEnd): SoftClaim -> seq<Event> {
    (c: SoftClaim) => if unused(c) then [Event(ReleaseClaimOp(c.id), save(c.id))] else []
  }

  lemma {:induction false} ReleaseNext(ok: (SoftClaim, SoftClaim) -> bool, unused: SoftClaim -> bool, save: string -> SaveEnd,
                                       cs: seq<SoftClaim>, m: Ledger, c: SoftClaim)
    requires Pairwise(m.claims, ok) && Removed(unused, cs, m.claims) && AllSucceed(m, ReleaseIf(unused, save)(c))
    ensures Pairwise(Run(m, ReleaseIf(unused, save)(c)).claims, ok)
    ensures Removed(unused, cs + [c], Run(m, ReleaseIf(unused, save)(c)).claims)
  {
    if unused(c) {
      var e := Event(ReleaseClaimOp(c.id), save(c.id));
      RunOne(m, e);
      OneMoreEvent(m, [], e);
      assert [] + [e] == [e];
      ReleasedGone(m, c.id, e.save);
      FilterPairwise(m.claims, OtherClaim(c.id), ok);
    }
  }

  lemma {:induction false} ReleasesRemove(ok: (SoftClaim, SoftClaim) -> bool, unused: SoftClaim -> bool, save: string -> SaveEnd,
                                          m: Ledger, cs: seq<SoftClaim>)
    requires Pairwise(m.claims, ok) && AllSucceed(m, Collect(cs, ReleaseIf(unused, save)))
    ensures Pairwise(Run(m, Collect(cs, ReleaseIf(unused, save))).claims, ok)
    ensures Removed(unused, cs, Run(m, Collect(cs, ReleaseIf(unused, save))).claims)
  {
    if cs != [] {
      var k := |cs| - 1;
      ReleasesSplit(unused, save, m, cs);
      ReleasesRemove(ok, unused, save, m, cs[..k]);
      ReleaseNext(ok, unused, save, cs[..k], Run(m, Collect(cs[..k], ReleaseIf(unused, save))), cs[k]);
      assert cs == cs[..k] + [cs[k]];
    }
  }

  lemma {:induction false} ReleasesSplit(unused: SoftClaim -> bool, save: string -> SaveEnd, m: Ledger, cs: seq<SoftClaim>)
    requires cs != []
    ensures var k := |cs| - 1;
            var before, es := Collect(cs[..k], ReleaseIf(unused, save)), ReleaseIf(unused, save)(cs[k]);
            && Run(m, Collect(cs, ReleaseIf(unused, save))) == Run(Run(m, before), es)
            && (AllSucceed(m, Collect(cs, ReleaseIf(unused, save))) <==> AllSucceed(m, before) && AllSucceed(Run(m, before), es))
  {
    var k := |cs| - 1;
    var before, es := Collect(cs[..k], ReleaseIf(unused, save)), ReleaseIf(unused, save)(cs[k]);
    AllSucceedAppend(m, before, es);
    RunAppend(m, before, es);
  }

  lemma {:induction false} OneMoreEvent(l: Ledger, before: seq<Event>, e: Event)
    ensures AllSucceed(l, before + [e]) <==> AllSucceed(l, before) && Succeeds(Run(l, before), e)
    ensures Run(l, before + [e]) == After(Run(l, before), e.op, e.save)
  {
    assert (before + [e])[..|before|] == before;
  }

  lemma {:induction false} SameCollect<T>(xs: seq<T>, f: T -> seq<Event>, g: T -> seq<Event>)
    requires forall x :: x in xs ==> f(x) == g(x)
    ensures Collect(xs, f) == Collect(xs, g)
  {
    if xs != [] {
      SameCollect(xs[..|xs| - 1], f, g);
    }
  }

  function UnusedBy(l: Ledger, o: Round): SoftClaim -> bool {
    (c: SoftClaim) => Unused(l, o, c)
  }

  function ReleaseSave(o: Round): string -> SaveEnd {
    (id: string) => o.claimSave(Release(id))
  }

  lemma OldWriteCases(l: Ledger, o: Round, c: SoftClaim)
    ensures OldWrite(l, o)(c) == ReleaseIf(UnusedBy(l, o), ReleaseSave(o))(c)
  {
    if Unused(l, o, c) {
      assert OldWrite(l, o)(c) == ClaimEvent(o)(Release(c.id));
    }
  }

  lemma {:induction false} AllSucceedAppend(l: Ledger, a: seq<Event>, b: seq<Event>)
    ensures AllSucceed(l, a + b) <==> AllSucceed(l, a) && AllSucceed(Run(l, a), b)
  {
    if b == [] {
      assert a + b == a;
    } else {
      var n := |b| - 1;
      assert (a + b)[..|a + b| - 1] == a + b[..n];
      AllSucceedAppend(l, a, b[..n]);
      RunAppend(l, a, b[..n]);
    }
  }

  lemma {:induction false} ClaimWritesKeepOne(l: Ledger, o: Round)
    requires TokensDistinct(l) && OneClaimPerGPU(l) && NoRepeats(o.order) && o.deadline.claims >= |l.claims|
    requires AllSucceed(l, ClaimEvents(l, o))
    ensures OneClaimPerGPU(Run(l, ClaimEvents(l, o)))
  {
    var news, olds := Collect(o.order, NewWrites(l, o)), Collect(l.claims, OldWrite(l, o));
    ClaimEventsShape(l, o);
    AllSucceedAppend(l, news, olds);
    RunAppend(l, news, olds);
    NewClaimsCompatible(l, o, o.order);
    forall c | c in l.claims ensures OldWrite(l, o)(c) == ReleaseIf(UnusedBy(l, o), ReleaseSave(o))(c) {
      OldWriteCases(l, o, c);
    }
    SameCollect(l.claims, OldWrite(l, o), ReleaseIf(UnusedBy(l, o), ReleaseSave(o)));
    ReleasesRemove(Compatible(l, o), UnusedBy(l, o), ReleaseSave(o), Run(l, news), l.claims);
    var cs := Run(l, ClaimEvents(l, o)).claims;
    forall i, j | 0 <= i < j < |cs| ensures OtherGPU()(cs[i], cs[j]) {
      assert Compatible(l, o)(cs[i], cs[j]);
      assert cs[i] in cs && cs[j] in cs;
      Stays(l, o, cs[i], cs);
      Stays(l, o, cs[j], cs);
    }
  }

  lemma {:induction false} Stays(l: Ledger, o: Round, x: SoftClaim, cs: seq<SoftClaim>)
    requires x in cs && Removed(UnusedBy(l, o), l.claims, cs)
    ensures !Goes(l, o, x.id)
  {
    forall i | 0 <= i < |l.claims| && Unused(l, o, l.claims[i]) ensures l.claims[i].id != x.id {
      assert l.claims[i] in l.claims && UnusedBy(l, o)(l.claims[i]);
    }
  }

  predicate LeavesClaims(op: Op) {
    op.ReleaseReservationOp? || op.ReleaseAuthorizationOp? || op.ReleaseLeaseOp?
  }

  lemma {:induction false} ClaimUntouched(l: Ledger, e: Event)
    requires LeavesClaims(e.op)
    ensures After(l, e.op, e.save).claims == l.claims
  {
  }

  lemma {:induction false} ClaimsUntouched(l: Ledger, events: seq<Event>)
    requires forall e :: e in events ==> LeavesClaims(e.op)
    ensures Run(l, events).claims == l.claims
  {
    if events != [] {
      var n := |events| - 1;
      ClaimsUntouched(l, events[..n]);
      assert events[n] in events;
      ClaimUntouched(Run(l, events[..n]), events[n]);
    }
  }

  lemma {:induction false} CleanupLeavesClaims(l: Ledger, clean: map<ScopeKey, nat>, o: Round, e: Event)
    requires e in CleanupEvents(l, clean, o)
    ensures LeavesClaims(e.op)
  {
    if e in ReservationEvents(l, o) {
      CollectMember(l.reservations, ReservationEvent(o), e);
    } else if e in AuthorizationEvents(l, clean, o) {
      CollectMember(l.authorizations, AuthorizationEvent(l.tokens, clean, o.authorizationNow, o.stopped, o.authorizationSave), e);
    } else if e in BareEvents(l, o) {
      CollectMember(l.authorizations, BareEvent(o), e);
    } else if e in LeaseEvents(l, clean, o) {
      CollectMember(l.leases, LeaseEvent(l.tokens, clean, o.leaseNow, o.stopped, o.leaseSave), e);
    } else {
      CollectMember(l.leases, BareLeaseEvent(o), e);
    }
  }

  /** If each GPU has at most one claim, it still has at most one after any pass that is not cut
      short and whose claim writes succeed. */
  lemma {:induction false} PassKeepsOneClaim(w: World, o: Round)
    requires Sound(w.ledger, w.clock) && OneClaimPerGPU(w.ledger) && Possible(w, Pass(o))
    requires Uncut(o.deadline, w.ledger, Remaining(w.ledger, o)) && AllSucceed(w.ledger, ClaimEvents(w.ledger, o))
    ensures OneClaimPerGPU(Next(w, Pass(o)).ledger)
  {
    var l, clean := w.ledger, Next(w, Pass(o)).clean;
    ClaimWritesKeepOne(l, o);
    forall e | e in CleanupEvents(l, clean, o) ensures LeavesClaims(e.op) {
      CleanupLeavesClaims(l, clean, o, e);
    }
    ClaimsUntouched(Run(l, ClaimEvents(l, o)), CleanupEvents(l, clean, o));
    var done := BeforePrune(l, clean, o);
    PruneKeepsOne(done, o.now, o.pruneSave);
  }

  lemma {:induction false} PruneKeepsOne(l: Ledger, now: int, save: SaveEnd)
    requires OneClaimPerGPU(l)
    ensures OneClaimPerGPU(After(l, PruneOp(now), save))
  {
    var kept := Filter(l.authorizations, KeepAuthorization(l, now));
    FilterPairwise(l.claims, KeepClaim(l, kept, now), OtherGPU());
  }
}
