/** What the daemon's use of the ledger keeps true when generated ids and hashes are fresh: records
    can be told apart, and a usable reserved token always has a standing reservation behind it. */
module Integrity {
  import opened Text
  import opened Seqs
  import opened Model
  import opened Operations
  import opened Reservations

  function OtherHash(): (Token, Token) -> bool {
    (a: Token, b: Token) => a.hash != b.hash
  }

  function OtherReservation(): (Reservation, Reservation) -> bool {
    (a: Reservation, b: Reservation) => a.id != b.id
  }

  function OtherAuthorization(): (Authorization, Authorization) -> bool {
    (a: Authorization, b: Authorization) => a.id != b.id
  }

  function OtherClaimID(): (SoftClaim, SoftClaim) -> bool {
    (a: SoftClaim, b: SoftClaim) => a.id != b.id
  }

  /** Managed and self-registered keys never mix where it matters: under managed keys nothing is in
      reserved mode, and before that every token was issued by this node. */
  predicate TokenFits(managedKeys: bool, t: Token) {
    && t.hash != ""
    && (t.mode == Reserved ==> !managedKeys && t.expiresAt > 0)
    && (!managedKeys ==> !t.managed && HasPrefix(t.id, "tok_"))
  }

  ghost predicate TokensDistinct(l: Ledger) {
    Pairwise(l.tokens, OtherHash()) && forall i :: 0 <= i < |l.tokens| ==> TokenFits(l.managedKeys, l.tokens[i])
  }

  ghost predicate ReservationsDistinct(l: Ledger) {
    && Pairwise(l.reservations, OtherReservation())
    && forall i :: 0 <= i < |l.reservations| ==> HasPrefix(l.reservations[i].id, "res_")
  }

  ghost predicate AuthorizationsDistinct(l: Ledger) {
    Pairwise(l.authorizations, OtherAuthorization())
  }

  ghost predicate ClaimsDistinct(l: Ledger) {
    Pairwise(l.claims, OtherClaimID())
  }

  predicate Behind(r: Reservation, t: Token) {
    r.tokenHash == t.hash && Standing(r) && r.expiresAt == t.expiresAt
  }

  predicate HasBacking(rs: seq<Reservation>, t: Token) {
    exists i :: 0 <= i < |rs| && Behind(rs[i], t)
  }

  /** A reserved token that is neither revoked nor past its expiry has a standing reservation. */
  predicate BackedToken(rs: seq<Reservation>, t: Token, clock: int) {
    t.mode == Reserved ==> t.revoked || t.expiresAt <= clock || HasBacking(rs, t)
  }

  predicate Backed(l: Ledger, clock: int) {
    forall i :: 0 <= i < |l.tokens| ==> BackedToken(l.reservations, l.tokens[i], clock)
  }

  ghost predicate Sound(l: Ledger, clock: int) {
    && TokensDistinct(l) && ReservationsDistinct(l) && AuthorizationsDistinct(l) && ClaimsDistinct(l) && Backed(l, clock)
  }

  // ---------- What the daemon may ask for ----------

  predicate FreshCredential(l: Ledger, c: Credential) {
    c.hash != "" && HasPrefix(c.id, "tok_") && forall i :: 0 <= i < |l.tokens| ==> l.tokens[i].hash != c.hash
  }

  predicate FreshMembers(l: Ledger, ms: seq<Member>) {
    && (forall j :: 0 <= j < |ms| ==> HasPrefix(ms[j].id, "res_"))
    && (forall i, j :: 0 <= i < j < |ms| ==> ms[i].id != ms[j].id)
    && (forall i, j :: 0 <= i < |l.reservations| && 0 <= j < |ms| ==> l.reservations[i].id != ms[j].id)
  }

  predicate FreshClaim(l: Ledger, id: string) {
    forall i :: 0 <= i < |l.claims| ==> l.claims[i].id != id
  }

  predicate FreshAuthorization(l: Ledger, id: string) {
    forall i :: 0 <= i < |l.authorizations| ==> l.authorizations[i].id != id
  }

  /** A reservation is released only when it is revoked or over. */
  predicate Over(l: Ledger, id: string, clock: int) {
    forall i :: 0 <= i < |l.reservations| && l.reservations[i].id == id
                ==> l.reservations[i].revoked || l.reservations[i].expiresAt <= clock
  }

  /** The operation as the daemon issues it by time `clock`, with fresh generated values. */
  predicate Allowed(l: Ledger, op: Op, clock: int) {
    match op
    case RegisterSoftOp(c, _, _) => FreshCredential(l, c)
    case RegisterOp(c, req) => !l.managedKeys && req.now >= 0 && FreshCredential(l, c) && FreshMembers(l, req.members)
    case RegisterManagedOp(_, _, req) => FreshMembers(l, req.members)
    case AddAuthorizationOp(a, _) => FreshAuthorization(l, a.id)
    case UpsertClaimOp(claim, freshID) => claim.id == "" && FreshClaim(l, freshID)
    case ReleaseReservationOp(id) => Over(l, id, clock)
    case PruneOp(now) => now <= clock
    case PruneUnreferencedOp(now) => now <= clock
    case _ => true
  }

  lemma LaterSound(l: Ledger, clock: int, later: int)
    requires Sound(l, clock) && clock <= later
    ensures Sound(l, later)
  {
    forall i | 0 <= i < |l.tokens| ensures BackedToken(l.reservations, l.tokens[i], later) {
      assert BackedToken(l.reservations, l.tokens[i], clock);
    }
  }

  // ---------- Tokens ----------

  predicate SameToken(a: Token, b: Token) {
    b == a.(revoked := b.revoked) && (a.revoked ==> b.revoked)
  }

  /** Revocation sets flags only, and afterwards every token under the final hash is revoked. */
  lemma {:induction false} RevokeTokensMeaning(ts: seq<Token>, x: string, hash: string)
    requires Pairwise(ts, OtherHash())
    ensures var (us, h, hit) := RevokeTokens(ts, x, hash);
            && (forall i :: 0 <= i < |ts| ==> SameToken(ts[i], us[i]))
            && (forall i :: 0 <= i < |ts| && ts[i].hash == h && h != "" ==> us[i].revoked)
            && ((forall i :: 0 <= i < |ts| ==> ts[i].id != x) ==> h == hash)
  {
    if ts != [] {
      var n := |ts| - 1;
      RevokeTokensMeaning(ts[..n], x, hash);
      assert forall i :: 0 <= i < n ==> OtherHash()(ts[i], ts[n]);
    }
  }

  lemma FlaggedTokens(l: Ledger, us: seq<Token>)
    requires TokensDistinct(l) && |us| == |l.tokens| && forall i :: 0 <= i < |us| ==> SameToken(l.tokens[i], us[i])
    ensures TokensDistinct(l.(tokens := us))
  {
    forall i, j | 0 <= i < j < |us| ensures OtherHash()(us[i], us[j]) {
      assert OtherHash()(l.tokens[i], l.tokens[j]);
    }
    forall i | 0 <= i < |us| ensures TokenFits(l.managedKeys, us[i]) {
      assert SameToken(l.tokens[i], us[i]);
    }
  }

  lemma FilteredTokens(l: Ledger, keep: Token -> bool)
    requires TokensDistinct(l)
    ensures TokensDistinct(l.(tokens := Filter(l.tokens, keep)))
  {
    FilterPairwise(l.tokens, keep, OtherHash());
    FilterMembers(l.tokens, keep);
    var us := Filter(l.tokens, keep);
    forall i | 0 <= i < |us| ensures TokenFits(l.managedKeys, us[i]) {
      assert us[i] in l.tokens;
    }
  }

  lemma IssuedToken(l: Ledger, c: Credential, mode: TokenMode, name: string, expiresAt: int)
    requires TokensDistinct(l) && FreshCredential(l, c)
    requires mode == Claimed || (mode == Reserved && !l.managedKeys && expiresAt > 0)
    ensures TokensDistinct(l.(tokens := l.tokens + [NewToken(c, mode, name, expiresAt)]))
  {
    AppendPairwise(l.tokens, [NewToken(c, mode, name, expiresAt)], OtherHash());
  }

  lemma {:induction false} KeyTokenFits(keys: seq<Key>, i: nat)
    requires SnapshotTokens(keys).Some? && i < |keys|
    ensures KeyWellFormed(keys[i]) && TokenFits(true, KeyToken(keys[i]))
  {
    var n := |keys| - 1;
    if i < n {
      KeyTokenFits(keys[..n], i);
    }
  }

  lemma SyncedTokens(l: Ledger, op: Op)
    requires op.SyncKeysOp? && Apply(l, op).Saved?
    ensures TokensDistinct(Apply(l, op).ledger)
    ensures forall i :: 0 <= i < |Apply(l, op).ledger.tokens| ==> Apply(l, op).ledger.tokens[i].mode == Managed
  {
    SnapshotInstalled(l, op.snapshot, op.keys, op.freshGroup);
    var n := Apply(l, op).ledger;
    forall i, j | 0 <= i < j < |n.tokens| ensures OtherHash()(n.tokens[i], n.tokens[j]) {
      assert Tellable()(n.tokens[i], n.tokens[j]);
    }
    forall i | 0 <= i < |n.tokens| ensures TokenFits(true, n.tokens[i]) {
      KeyTokenFits(op.keys, i);
    }
  }

  lemma {:induction false} RevokedTokens(l: Ledger, n: Ledger, how: Revocation)
    requires RevokedTo(l, n, how) && TokensDistinct(l)
    ensures TokensDistinct(n)
  {
    if how.Marking? {
      RevokeTokensMeaning(l.tokens, how.id, how.first);
      FlaggedTokens(l, n.tokens);
    }
  }

  lemma {:induction false} RegisteredTokens(l: Ledger, c: Credential, req: Request)
    requires TokensDistinct(l) && !l.managedKeys && req.now >= 0 && FreshCredential(l, c) && Register(l, c, req).Saved?
    ensures TokensDistinct(Register(l, c, req).ledger)
  {
    IssuedToken(l, c, Reserved, req.name, req.expiresAt);
  }

  lemma {:induction false} PrunedTokens(l: Ledger, now: int)
    requires TokensDistinct(l)
    ensures Prune(l, now).Saved? ==> TokensDistinct(Prune(l, now).ledger)
    ensures PruneUnreferenced(l, now).Saved? ==> TokensDistinct(PruneUnreferenced(l, now).ledger)
  {
    FilteredTokens(l, KeepToken(l, now));
    FilteredTokens(l, KeepCredential(l, now));
  }

  lemma {:induction false} TokensStep(l: Ledger, op: Op, clock: int)
    requires TokensDistinct(l) && Allowed(l, op, clock) && Apply(l, op).Saved? && !op.RevokeOp?
    ensures TokensDistinct(Apply(l, op).ledger)
  {
    if !TouchesTokens(op) {
      TokensStay(l, op);
    } else {
      match op
      case RegisterSoftOp(c, name, _) => IssuedToken(l, c, Claimed, name, 0);
      case RegisterOp(c, req) => RegisteredTokens(l, c, req);
      case SyncKeysOp(_, _, _) => SyncedTokens(l, op);
      case PruneOp(now) => PrunedTokens(l, now);
      case PruneUnreferencedOp(now) => PrunedTokens(l, now);
    }
  }

  // ---------- Reservations, authorizations, claims ----------

  lemma SameReservationIDs(l: Ledger, ss: seq<Reservation>)
    requires ReservationsDistinct(l) && |ss| == |l.reservations|
    requires forall i :: 0 <= i < |ss| ==> ss[i].id == l.reservations[i].id
    ensures ReservationsDistinct(l.(reservations := ss))
  {
    forall i, j | 0 <= i < j < |ss| ensures OtherReservation()(ss[i], ss[j]) {
      assert OtherReservation()(l.reservations[i], l.reservations[j]);
    }
  }

  lemma FilteredReservations(l: Ledger, keep: Reservation -> bool)
    requires ReservationsDistinct(l)
    ensures ReservationsDistinct(l.(reservations := Filter(l.reservations, keep)))
  {
    FilterPairwise(l.reservations, keep, OtherReservation());
    FilterMembers(l.reservations, keep);
    var ss := Filter(l.reservations, keep);
    forall i | 0 <= i < |ss| ensures HasPrefix(ss[i].id, "res_") {
      assert ss[i] in l.reservations;
    }
  }

  lemma RegisteredReservations(l: Ledger, req: Request, hash: string, holder: string, group: string)
    requires ReservationsDistinct(l) && FreshMembers(l, req.members)
    ensures ReservationsDistinct(l.(reservations := l.reservations + NewReservations(req, hash, holder, group)))
  {
    var ns := NewReservations(req, hash, holder, group);
    forall i, j | 0 <= i < j < |ns| ensures OtherReservation()(ns[i], ns[j]) {
      assert req.members[i].id != req.members[j].id;
    }
    forall x, y | x in l.reservations && y in ns ensures OtherReservation()(x, y) {
      var i :| 0 <= i < |l.reservations| && l.reservations[i] == x;
      var j :| 0 <= j < |ns| && ns[j] == y;
      assert l.reservations[i].id != req.members[j].id;
    }
    AppendPairwise(l.reservations, ns, OtherReservation());
    var all := l.reservations + ns;
    forall i | 0 <= i < |all| ensures HasPrefix(all[i].id, "res_") {
      if i >= |l.reservations| {
        assert HasPrefix(req.members[i - |l.reservations|].id, "res_");
      }
    }
  }

  lemma {:induction false} RevokedReservations(l: Ledger, n: Ledger, how: Revocation)
    requires RevokedTo(l, n, how) && ReservationsDistinct(l)
    ensures ReservationsDistinct(n)
  {
    SameReservationIDs(l, n.reservations);
  }

  lemma SyncedReservations(l: Ledger, op: Op)
    requires op.SyncKeysOp? && Apply(l, op).Saved? && ReservationsDistinct(l)
    ensures ReservationsDistinct(Apply(l, op).ledger)
  {
    SnapshotInstalled(l, op.snapshot, op.keys, op.freshGroup);
    var n := Apply(l, op).ledger;
    forall i | 0 <= i < |n.reservations| ensures n.reservations[i].id == l.reservations[i].id {
      assert SameBooking(l.reservations[i], n.reservations[i]);
    }
    SameReservationIDs(l, n.reservations);
  }

  lemma {:induction false} RegisteredIDs(l: Ledger, c: Credential, req: Request)
    requires ReservationsDistinct(l) && FreshMembers(l, req.members) && Register(l, c, req).Saved?
    ensures ReservationsDistinct(Register(l, c, req).ledger)
  {
    var t := NewToken(c, Reserved, req.name, req.expiresAt);
    RegisteredReservations(l, req, t.hash, t.name, "");
  }

  lemma {:induction false} RegisteredManagedIDs(l: Ledger, keyID: string, groupID: string, req: Request)
    requires ReservationsDistinct(l) && FreshMembers(l, req.members) && RegisterManaged(l, keyID, groupID, req).Saved?
    ensures ReservationsDistinct(RegisterManaged(l, keyID, groupID, req).ledger)
  {
    var t := l.tokens[Find(l.tokens, ManagedKey(Trim(keyID)))];
    RegisteredReservations(l, req, t.hash, t.name, groupID);
  }

  lemma {:induction false} ReleasedIDs(l: Ledger, id: string)
    requires ReservationsDistinct(l) && ReleaseReservation(l, id).Saved?
    ensures ReservationsDistinct(ReleaseReservation(l, id).ledger)
  {
    SameReservationIDs(l, ReleaseReservation(l, id).ledger.reservations);
  }

  lemma {:induction false} PrunedIDs(l: Ledger, now: int)
    requires ReservationsDistinct(l)
    ensures Prune(l, now).Saved? ==> ReservationsDistinct(Prune(l, now).ledger)
    ensures PruneUnreferenced(l, now).Saved? ==> ReservationsDistinct(PruneUnreferenced(l, now).ledger)
  {
    FilteredReservations(l, KeepReservation(l, now));
    FilteredReservations(l, KeepEntitlement(l, now));
  }

  lemma {:induction false} ReservationsStep(l: Ledger, op: Op, clock: int)
    requires ReservationsDistinct(l) && Allowed(l, op, clock) && Apply(l, op).Saved? && !op.RevokeOp?
    ensures ReservationsDistinct(Apply(l, op).ledger)
  {
    if !TouchesReservations(op) {
      ReservationsStay(l, op);
    } else {
      match op
      case RegisterOp(c, req) => RegisteredIDs(l, c, req);
      case RegisterManagedOp(keyID, groupID, req) => RegisteredManagedIDs(l, keyID, groupID, req);
      case SyncKeysOp(_, _, _) => SyncedReservations(l, op);
      case ReleaseReservationOp(id) => ReleasedIDs(l, id);
      case PruneOp(now) => PrunedIDs(l, now);
      case PruneUnreferencedOp(now) => PrunedIDs(l, now);
    }
  }

  lemma SameAuthorizationIDs(l: Ledger, bs: seq<Authorization>)
    requires AuthorizationsDistinct(l) && |bs| == |l.authorizations|
    requires forall i :: 0 <= i < |bs| ==> bs[i].id == l.authorizations[i].id
    ensures Pairwise(bs, OtherAuthorization())
  {
    forall i, j | 0 <= i < j < |bs| ensures OtherAuthorization()(bs[i], bs[j]) {
      assert OtherAuthorization()(l.authorizations[i], l.authorizations[j]);
    }
  }

  lemma {:induction false} RevokedAuthorizations(l: Ledger, n: Ledger, how: Revocation)
    requires RevokedTo(l, n, how) && AuthorizationsDistinct(l)
    ensures AuthorizationsDistinct(n)
  {
    SameAuthorizationIDs(l, n.authorizations);
  }

  lemma {:induction false} ActivatedIDs(l: Ledger, id: string, pid: int)
    requires AuthorizationsDistinct(l) && Activate(l, id, pid).Saved?
    ensures AuthorizationsDistinct(Activate(l, id, pid).ledger)
  {
    SameAuthorizationIDs(l, Activate(l, id, pid).ledger.authorizations);
  }

  lemma {:induction false} ReleasedAuthorizationIDs(l: Ledger, id: string)
    requires AuthorizationsDistinct(l) && ReleaseAuthorization(l, id).Saved?
    ensures AuthorizationsDistinct(ReleaseAuthorization(l, id).ledger)
  {
    SameAuthorizationIDs(l, ReleaseAuthorization(l, id).ledger.authorizations);
  }

  lemma {:induction false} AddedIDs(l: Ledger, a: Authorization, now: int)
    requires AuthorizationsDistinct(l) && FreshAuthorization(l, a.id) && AddAuthorization(l, a, now).Saved?
    ensures AuthorizationsDistinct(AddAuthorization(l, a, now).ledger)
  {
    AppendPairwise(l.authorizations, [a], OtherAuthorization());
  }

  lemma {:induction false} AuthorizationsStep(l: Ledger, op: Op, clock: int)
    requires AuthorizationsDistinct(l) && Allowed(l, op, clock) && Apply(l, op).Saved? && !op.RevokeOp?
    ensures AuthorizationsDistinct(Apply(l, op).ledger)
  {
    if !TouchesAuthorizations(op) {
      AuthorizationsStay(l, op);
    } else {
      match op
      case AddAuthorizationOp(a, now) => AddedIDs(l, a, now);
      case ActivateOp(id, pid) => ActivatedIDs(l, id, pid);
      case ReleaseAuthorizationOp(id) => ReleasedAuthorizationIDs(l, id);
      case PruneOp(now) => FilterPairwise(l.authorizations, KeepAuthorization(l, now), OtherAuthorization());
      case PruneManagedScopesOp(ids, _) => FilterPairwise(l.authorizations, KeepScope(ids), OtherAuthorization());
    }
  }

  lemma UpsertedClaims(l: Ledger, claim: SoftClaim, freshID: string)
    requires ClaimsDistinct(l) && claim.id == "" && FreshClaim(l, freshID)
    ensures ClaimsDistinct(UpsertClaim(l, claim, freshID).ledger)
  {
    var c := claim.(id := freshID);
    var k := Find(l.claims, SameClaim(c.gpu, c.tokenHash));
    if k < |l.claims| {
      var cs := l.claims[k := c.(id := l.claims[k].id)];
      forall i, j | 0 <= i < j < |cs| ensures OtherClaimID()(cs[i], cs[j]) {
        assert OtherClaimID()(l.claims[i], l.claims[j]);
      }
    } else {
      AppendPairwise(l.claims, [c], OtherClaimID());
    }
  }

  lemma {:induction false} RevokedClaims(l: Ledger, n: Ledger, how: Revocation)
    requires RevokedTo(l, n, how) && ClaimsDistinct(l)
    ensures ClaimsDistinct(n)
  {
    if how.Marking? {
      FilterPairwise(l.claims, OtherClaim(how.id), OtherClaimID());
    }
  }

  lemma {:induction false} ClaimsStep(l: Ledger, op: Op, clock: int)
    requires ClaimsDistinct(l) && Allowed(l, op, clock) && Apply(l, op).Saved? && !op.RevokeOp?
    ensures ClaimsDistinct(Apply(l, op).ledger)
  {
    if !TouchesClaims(op) {
      ClaimsStay(l, op);
    } else {
      match op
      case UpsertClaimOp(claim, freshID) => UpsertedClaims(l, claim, freshID);
      case ReleaseClaimOp(id) => FilterPairwise(l.claims, OtherClaim(id), OtherClaimID());
      case PruneOp(now) =>
        FilterPairwise(l.claims, KeepClaim(l, Filter(l.authorizations, KeepAuthorization(l, now)), now), OtherClaimID());
    }
  }

  // ---------- Backing ----------

  lemma BackingGrows(rs: seq<Reservation>, more: seq<Reservation>, t: Token)
    requires HasBacking(rs, t)
    ensures HasBacking(rs + more, t)
  {
    var i :| 0 <= i < |rs| && Behind(rs[i], t);
    assert Behind((rs + more)[i], t);
  }

  lemma RegisteredBacked(l: Ledger, c: Credential, req: Request, clock: int)
    requires Backed(l, clock) && Register(l, c, req).Saved?
    ensures Backed(Register(l, c, req).ledger, clock)
  {
    var n := Register(l, c, req).ledger;
    var t := NewToken(c, Reserved, req.name, req.expiresAt);
    var ns := NewReservations(req, t.hash, t.name, "");
    forall i | 0 <= i < |n.tokens| ensures BackedToken(n.reservations, n.tokens[i], clock) {
      if i < |l.tokens| {
        assert BackedToken(l.reservations, l.tokens[i], clock);
        if HasBacking(l.reservations, l.tokens[i]) {
          BackingGrows(l.reservations, ns, l.tokens[i]);
        }
      } else {
        assert Behind(n.reservations[|l.reservations|], t);
      }
    }
  }

  lemma RegisteredManagedBacked(l: Ledger, keyID: string, groupID: string, req: Request, clock: int)
    requires Backed(l, clock) && RegisterManaged(l, keyID, groupID, req).Saved?
    ensures Backed(RegisterManaged(l, keyID, groupID, req).ledger, clock)
  {
    var n := RegisterManaged(l, keyID, groupID, req).ledger;
    forall i | 0 <= i < |n.tokens| ensures BackedToken(n.reservations, n.tokens[i], clock) {
      assert BackedToken(l.reservations, l.tokens[i], clock);
      if HasBacking(l.reservations, l.tokens[i]) {
        BackingGrows(l.reservations, n.reservations[|l.reservations|..], l.tokens[i]);
        assert l.reservations + n.reservations[|l.reservations|..] == n.reservations;
      }
    }
  }

  lemma ReleasedBacked(l: Ledger, id: string, clock: int)
    requires Backed(l, clock) && Over(l, id, clock) && ReleaseReservation(l, id).Saved?
    ensures Backed(ReleaseReservation(l, id).ledger, clock)
  {
    var n, k := ReleaseReservation(l, id).ledger, Find(l.reservations, ReservationIs(id));
    forall i | 0 <= i < |n.tokens| ensures BackedToken(n.reservations, n.tokens[i], clock) {
      assert BackedToken(l.reservations, l.tokens[i], clock);
      if HasBacking(l.reservations, l.tokens[i]) {
        var j :| 0 <= j < |l.reservations| && Behind(l.reservations[j], l.tokens[i]);
        if j != k {
          assert Behind(n.reservations[j], l.tokens[i]);
        }
      }
    }
  }

  lemma FilteredBacking(rs: seq<Reservation>, keep: Reservation -> bool, t: Token)
    requires HasBacking(rs, t)
    requires forall j :: 0 <= j < |rs| && Behind(rs[j], t) ==> keep(rs[j])
    ensures HasBacking(Filter(rs, keep), t)
  {
    FilterMembers(rs, keep);
    var j :| 0 <= j < |rs| && Behind(rs[j], t);
    assert rs[j] in Filter(rs, keep);
  }

  lemma PrunedToken(l: Ledger, m: nat, now: int, clock: int)
    requires TokensDistinct(l) && now <= clock && m < |l.tokens|
    requires BackedToken(l.reservations, l.tokens[m], clock) && KeepToken(l, now)(l.tokens[m])
    ensures BackedToken(Filter(l.reservations, KeepReservation(l, now)), l.tokens[m], clock)
  {
    var t := l.tokens[m];
    if t.mode == Reserved && !t.revoked && clock < t.expiresAt {
      OnlyToken(l, m, now);
      FilteredBacking(l.reservations, KeepReservation(l, now), t);
    }
  }

  lemma PrunedBacked(l: Ledger, now: int, clock: int)
    requires Backed(l, clock) && TokensDistinct(l) && now <= clock && Prune(l, now).Saved?
    ensures Backed(Prune(l, now).ledger, clock)
  {
    var n := Prune(l, now).ledger;
    FilterMembers(l.tokens, KeepToken(l, now));
    forall i | 0 <= i < |n.tokens| ensures BackedToken(n.reservations, n.tokens[i], clock) {
      assert n.tokens[i] in l.tokens && KeepToken(l, now)(n.tokens[i]);
      var m :| 0 <= m < |l.tokens| && l.tokens[m] == n.tokens[i];
      PrunedToken(l, m, now, clock);
    }
  }

  /** Hashes are distinct, so a hash is gone exactly when its one token is. */
  lemma OnlyToken(l: Ledger, m: nat, now: int)
    requires TokensDistinct(l) && m < |l.tokens|
    ensures HashGone(l.tokens, l.reservations, l.tokens[m].hash, now) <==> TokenGone(l.tokens[m], l.reservations, now)
    ensures HashUsable(l.tokens, l.tokens[m].hash, now) <==> TokenUsable(l.tokens[m], now)
  {
    assert TokenFits(l.managedKeys, l.tokens[m]);
    assert forall i :: 0 <= i < |l.tokens| && l.tokens[i].hash == l.tokens[m].hash ==> i == m;
    LastUsable(l.tokens, m, now);
  }

  lemma {:induction false} LastUsable(ts: seq<Token>, m: nat, now: int)
    requires Pairwise(ts, OtherHash()) && m < |ts|
    ensures HashUsable(ts, ts[m].hash, now) <==> TokenUsable(ts[m], now)
  {
    var n := |ts| - 1;
    if m < n {
      assert OtherHash()(ts[m], ts[n]);
      LastUsable(ts[..n], m, now);
    }
  }

  lemma ClearedToken(l: Ledger, m: nat, now: int, clock: int)
    requires TokensDistinct(l) && now <= clock && m < |l.tokens|
    requires BackedToken(l.reservations, l.tokens[m], clock)
    ensures BackedToken(Filter(l.reservations, KeepEntitlement(l, now)), l.tokens[m], clock)
  {
    var t := l.tokens[m];
    if t.mode == Reserved && !t.revoked && clock < t.expiresAt {
      OnlyToken(l, m, now);
      FilteredBacking(l.reservations, KeepEntitlement(l, now), t);
    }
  }

  lemma ClearedBacked(l: Ledger, now: int, clock: int)
    requires Backed(l, clock) && TokensDistinct(l) && now <= clock && PruneUnreferenced(l, now).Saved?
    ensures Backed(PruneUnreferenced(l, now).ledger, clock)
  {
    var n := PruneUnreferenced(l, now).ledger;
    FilterMembers(l.tokens, KeepCredential(l, now));
    forall i | 0 <= i < |n.tokens| ensures BackedToken(n.reservations, n.tokens[i], clock) {
      assert n.tokens[i] in l.tokens;
      var m :| 0 <= m < |l.tokens| && l.tokens[m] == n.tokens[i];
      ClearedToken(l, m, now, clock);
    }
  }

  /** Before managed keys, revoking a reservation by its own id works through its token's hash. */
  lemma RevokingByReservation(l: Ledger, x: string, hashOfX: string, j: nat)
    requires TokensDistinct(l) && ReservationsDistinct(l) && !l.managedKeys
    requires j < |l.reservations| && l.reservations[j].id == x
    ensures RevokeHash(l, x, hashOfX) == l.reservations[j].tokenHash
    ensures forall i :: 0 <= i < |l.tokens| ==> l.tokens[i].id != x
  {
    assert HasPrefix(x, "res_") && x[0] == 'r';
    forall i | 0 <= i < |l.tokens| ensures l.tokens[i].id != x {
      assert TokenFits(l.managedKeys, l.tokens[i]);
      assert l.tokens[i].id[0] == 't';
    }
    var k := Find(l.reservations, ReservationIs(x));
    assert ReservationIs(x)(l.reservations[j]);
  }

  lemma {:induction false} MarkedBacked(l: Ledger, n: Ledger, how: Revocation, hashOfX: string, clock: int)
    requires Sound(l, clock) && !l.managedKeys && RevokedTo(l, n, how)
    requires how.Marking? && how.first == RevokeHash(l, how.id, hashOfX)
    ensures Backed(n, clock)
  {
    RevokeTokensMeaning(l.tokens, how.id, how.first);
    forall i | 0 <= i < |n.tokens| ensures BackedToken(n.reservations, n.tokens[i], clock) {
      MarkedToken(l, n, how, hashOfX, clock, i);
    }
  }

  lemma {:induction false} MarkedToken(l: Ledger, n: Ledger, how: Revocation, hashOfX: string, clock: int, i: nat)
    requires Sound(l, clock) && !l.managedKeys && RevokedTo(l, n, how)
    requires how.Marking? && how.first == RevokeHash(l, how.id, hashOfX) && i < |l.tokens|
    requires SameToken(l.tokens[i], n.tokens[i]) && (l.tokens[i].hash == how.hash && how.hash != "" ==> n.tokens[i].revoked)
    requires (forall j :: 0 <= j < |l.tokens| ==> l.tokens[j].id != how.id) ==> how.hash == how.first
    ensures BackedToken(n.reservations, n.tokens[i], clock)
  {
    var t := l.tokens[i];
    assert BackedToken(l.reservations, t, clock) && TokenFits(l.managedKeys, t);
    if t.mode == Reserved && !n.tokens[i].revoked && clock < t.expiresAt {
      var j :| 0 <= j < |l.reservations| && Behind(l.reservations[j], t);
      if l.reservations[j].id == how.id {
        RevokingByReservation(l, how.id, hashOfX, j);
      }
      assert n.reservations[j] == l.reservations[j];
      assert Behind(n.reservations[j], n.tokens[i]);
    }
  }

  lemma {:induction false} RevokedBacked(l: Ledger, n: Ledger, how: Revocation, hashOfX: string, clock: int)
    requires Sound(l, clock) && RevokedTo(l, n, how) && (how.Marking? ==> how.first == RevokeHash(l, how.id, hashOfX))
    ensures Backed(n, clock)
  {
    assert forall j :: 0 <= j < |l.tokens| ==> TokenFits(l.managedKeys, l.tokens[j]);
    if l.managedKeys {
      RevokedTokens(l, n, how);
      NothingReserved(n, clock);
    } else if how.Marking? {
      MarkedBacked(l, n, how, hashOfX, clock);
    } else {
      assert false;
    }
  }

  lemma NothingReserved(l: Ledger, clock: int)
    requires TokensDistinct(l) && l.managedKeys
    ensures Backed(l, clock)
  {
    assert forall i :: 0 <= i < |l.tokens| ==> TokenFits(l.managedKeys, l.tokens[i]);
  }

  lemma {:induction false} BackedStep(l: Ledger, op: Op, clock: int)
    requires Sound(l, clock) && Allowed(l, op, clock) && Apply(l, op).Saved? && !op.RevokeOp?
    ensures Backed(Apply(l, op).ledger, clock)
  {
    match op
    case RegisterOp(c, req) => RegisteredBacked(l, c, req, clock);
    case RegisterManagedOp(keyID, groupID, req) => RegisteredManagedBacked(l, keyID, groupID, req, clock);
    case SyncKeysOp(_, _, _) => SyncedTokens(l, op);
    case ReleaseReservationOp(id) => ReleasedBacked(l, id, clock);
    case PruneOp(now) => PrunedBacked(l, now, clock);
    case PruneUnreferencedOp(now) => ClearedBacked(l, now, clock);
    case RegisterSoftOp(_, _, _) => SoftBacked(l, op, clock);
    case _ => SameEntitlements(l, op);
  }

  lemma SoftBacked(l: Ledger, op: Op, clock: int)
    requires Backed(l, clock) && op.RegisterSoftOp? && Apply(l, op).Saved?
    ensures Backed(Apply(l, op).ledger, clock)
  {
  }

  predicate LeavesEntitlements(op: Op) {
    || op.AddAuthorizationOp? || op.ActivateOp? || op.ReleaseAuthorizationOp? || op.ReleaseLeaseOp? || op.UpsertClaimOp?
    || op.ReleaseClaimOp? || op.AddBypassOp? || op.PruneManagedScopesOp?
  }

  lemma SameEntitlements(l: Ledger, op: Op)
    requires Apply(l, op).Saved? && LeavesEntitlements(op)
    ensures Apply(l, op).ledger.tokens == l.tokens && Apply(l, op).ledger.reservations == l.reservations
    ensures Apply(l, op).ledger.managedKeys == l.managedKeys
  {
  }

  lemma {:induction false} RevokeSound(l: Ledger, op: Op, clock: int)
    requires Sound(l, clock) && op.RevokeOp? && Apply(l, op).Saved?
    ensures Sound(Apply(l, op).ledger, clock)
  {
    var how := RevokeShape(l, op.name, op.hashOfX, op.now);
    RevokedSound(l, Apply(l, op).ledger, how, op.hashOfX, clock);
  }

  lemma {:induction false} RevokedSound(l: Ledger, n: Ledger, how: Revocation, hashOfX: string, clock: int)
    requires Sound(l, clock) && RevokedTo(l, n, how) && (how.Marking? ==> how.first == RevokeHash(l, how.id, hashOfX))
    ensures Sound(n, clock)
  {
    RevokedTokens(l, n, how);
    RevokedReservations(l, n, how);
    RevokedAuthorizations(l, n, how);
    RevokedClaims(l, n, how);
    RevokedBacked(l, n, how, hashOfX, clock);
  }

  /** Every operation the daemon issues keeps the ledger sound, however its save ends. */
  lemma {:induction false} StepSound(l: Ledger, op: Op, save: SaveEnd, clock: int)
    requires Sound(l, clock) && Allowed(l, op, clock)
    ensures Sound(After(l, op, save), clock)
  {
    if Apply(l, op).Saved? {
      if op.RevokeOp? {
        RevokeSound(l, op, clock);
      } else {
        TokensStep(l, op, clock);
        ReservationsStep(l, op, clock);
        AuthorizationsStep(l, op, clock);
        ClaimsStep(l, op, clock);
        BackedStep(l, op, clock);
      }
    }
  }
}
