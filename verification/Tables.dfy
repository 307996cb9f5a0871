/** The store with its slices as arrays. Operations edit the working arrays in place, so the committed
    copy that a failed save restores must not share any of them. It never does: working state,
    committed copy and file agree after every call, also after calls that touched the arrays first
    and were then refused. */
module Tables {
  import opened Text
  import opened Seqs
  import opened Slices
  import opened Model
  import opened Operations
  import Store

  method EmptyEntitlements() returns (ts: Copies<Token>, rs: Copies<Reservation>, as': Copies<Authorization>)
    ensures ts.Empty() && rs.Empty() && as'.Empty()
  {
    ts := new Copies<Token>();
    rs := new Copies<Reservation>();
    as' := new Copies<Authorization>();
  }

  method EmptyOthers() returns (cs: Copies<SoftClaim>, es: Copies<Lease>, bs: Copies<Bypass>)
    ensures cs.Empty() && es.Empty() && bs.Empty()
  {
    cs := new Copies<SoftClaim>();
    es := new Copies<Lease>();
    bs := new Copies<Bypass>();
  }

  class Tables {
    const tokens: Copies<Token>
    const reservations: Copies<Reservation>
    const authorizations: Copies<Authorization>
    const claims: Copies<SoftClaim>
    const leases: Copies<Lease>
    const bypasses: Copies<Bypass>
    var managedKeys: bool
    var snapshotID: string
    var committedManaged: bool
    var committedSnapshot: string
    /** What the state file holds. */
    var disk: Ledger

    /** No table's working array is also its committed one. */
    ghost predicate Valid()
      reads this, tokens, reservations, authorizations, claims, leases, bypasses
    {
      tokens.Valid() && reservations.Valid() && authorizations.Valid() && claims.Valid() && leases.Valid() && bypasses.Valid()
    }

    ghost function Live(): Ledger
      requires Valid()
      reads this, tokens, reservations, authorizations, claims, leases, bypasses
      reads tokens.live, reservations.live, authorizations.live, claims.live, leases.live, bypasses.live
    {
      Ledger(managedKeys, snapshotID, tokens.State(), reservations.State(), authorizations.State(), claims.State(), leases.State(), bypasses.State())
    }

    ghost function Committed(): Ledger
      reads this, tokens, reservations, authorizations, claims, leases, bypasses
      reads tokens.committed, reservations.committed, authorizations.committed, claims.committed, leases.committed, bypasses.committed
    {
      Ledger(committedManaged, committedSnapshot, tokens.Saved(), reservations.Saved(), authorizations.Saved(), claims.Saved(), leases.Saved(), bypasses.Saved())
    }

    ghost predicate Agrees()
      reads this, tokens, reservations, authorizations, claims, leases, bypasses
      reads tokens.live, reservations.live, authorizations.live, claims.live, leases.live, bypasses.live
      reads tokens.committed, reservations.committed, authorizations.committed, claims.committed, leases.committed, bypasses.committed
    {
      Valid() && Live() == Committed() == disk
    }

    constructor ()
      ensures Agrees() && Live() == EMPTY
    {
      var ts, rs, as' := EmptyEntitlements();
      var cs, es, bs := EmptyOthers();
      assert ts.Empty() && rs.Empty() && as'.Empty();
      tokens, reservations, authorizations, claims, leases, bypasses := ts, rs, as', cs, es, bs;
      managedKeys, snapshotID, committedManaged, committedSnapshot, disk := false, "", false, "", EMPTY;
      new;
      assert Valid();
      assert Live() == EMPTY && Committed() == EMPTY;
    }

    /** The working state as a value. */
    method Snapshot() returns (l: Ledger)
      requires Valid()
      ensures l == Live()
    {
      l := Ledger(managedKeys, snapshotID, tokens.live[..tokens.len], reservations.live[..reservations.len],
                  authorizations.live[..authorizations.len], claims.live[..claims.len], leases.live[..leases.len],
                  bypasses.live[..bypasses.len]);
    }

    // ---------- One table at a time ----------

    method RetainTokens(keep: Token -> bool)
      requires Valid()
      modifies tokens`len, tokens.live
      ensures Valid() && Live() == old(Live()).(tokens := Filter(old(Live()).tokens, keep)) && Committed() == old(Committed())
    {
      tokens.Retain(keep);
    }

    method RetainReservations(keep: Reservation -> bool)
      requires Valid()
      modifies reservations`len, reservations.live
      ensures Valid() && Live() == old(Live()).(reservations := Filter(old(Live()).reservations, keep)) && Committed() == old(Committed())
    {
      reservations.Retain(keep);
    }

    method RetainAuthorizations(keep: Authorization -> bool)
      requires Valid()
      modifies authorizations`len, authorizations.live
      ensures Valid() && Live() == old(Live()).(authorizations := Filter(old(Live()).authorizations, keep)) && Committed() == old(Committed())
    {
      authorizations.Retain(keep);
    }

    method RetainClaims(keep: SoftClaim -> bool)
      requires Valid()
      modifies claims`len, claims.live
      ensures Valid() && Live() == old(Live()).(claims := Filter(old(Live()).claims, keep)) && Committed() == old(Committed())
    {
      claims.Retain(keep);
    }

    method RetainLeases(keep: Lease -> bool)
      requires Valid()
      modifies leases`len, leases.live
      ensures Valid() && Live() == old(Live()).(leases := Filter(old(Live()).leases, keep)) && Committed() == old(Committed())
    {
      leases.Retain(keep);
    }

    method RetainBypasses(keep: Bypass -> bool)
      requires Valid()
      modifies bypasses`len, bypasses.live
      ensures Valid() && Live() == old(Live()).(bypasses := Filter(old(Live()).bypasses, keep)) && Committed() == old(Committed())
    {
      bypasses.Retain(keep);
    }

    method RewriteReservations(f: Reservation -> Reservation)
      requires Valid()
      modifies reservations.live
      ensures Valid() && Live() == old(Live()).(reservations := Map(old(Live()).reservations, f)) && Committed() == old(Committed())
    {
      reservations.Rewrite(f);
    }

    method RewriteAuthorizations(f: Authorization -> Authorization)
      requires Valid()
      modifies authorizations.live
      ensures Valid() && Live() == old(Live()).(authorizations := Map(old(Live()).authorizations, f)) && Committed() == old(Committed())
    {
      authorizations.Rewrite(f);
    }

    method RewriteLeases(f: Lease -> Lease)
      requires Valid()
      modifies leases.live
      ensures Valid() && Live() == old(Live()).(leases := Map(old(Live()).leases, f)) && Committed() == old(Committed())
    {
      leases.Rewrite(f);
    }

    method RewriteBypasses(f: Bypass -> Bypass)
      requires Valid()
      modifies bypasses.live
      ensures Valid() && Live() == old(Live()).(bypasses := Map(old(Live()).bypasses, f)) && Committed() == old(Committed())
    {
      bypasses.Rewrite(f);
    }

    method AppendToken(t: Token)
      requires Valid()
      modifies tokens, tokens.live
      ensures Valid() && Live() == old(Live()).(tokens := old(Live()).tokens + [t]) && Committed() == old(Committed())
    {
      tokens.Append(t);
    }

    method AppendAuthorization(a: Authorization)
      requires Valid()
      modifies authorizations, authorizations.live
      ensures Valid() && Live() == old(Live()).(authorizations := old(Live()).authorizations + [a]) && Committed() == old(Committed())
    {
      authorizations.Append(a);
    }

    method SetAuthorization(k: nat, x: Authorization)
      requires Valid() && k < authorizations.len
      modifies authorizations.live
      ensures Valid() && Live() == old(Live()).(authorizations := old(Live()).authorizations[k := x]) && Committed() == old(Committed())
    {
      authorizations.Set(k, x);
    }

    method SetReservation(k: nat, x: Reservation)
      requires Valid() && k < reservations.len
      modifies reservations.live
      ensures Valid() && Live() == old(Live()).(reservations := old(Live()).reservations[k := x]) && Committed() == old(Committed())
    {
      reservations.Set(k, x);
    }

    method ReplaceTokens(ts: seq<Token>)
      requires Valid()
      modifies tokens
      ensures Valid() && Live() == old(Live()).(tokens := ts) && Committed() == old(Committed())
    {
      tokens.Replace(ts);
    }

    method RevokeTokens(x: string, first: string) returns (h: string, hit: bool)
      requires Valid()
      modifies tokens.live
      ensures var r := Operations.RevokeTokens(old(Live()).tokens, x, first);
              Valid() && Live() == old(Live()).(tokens := r.0) && h == r.1 && hit == r.2 && Committed() == old(Committed())
    {
      h, hit := RevokeInPlace(tokens.live, tokens.len, x, first);
    }

    method Rekey(olds: seq<Token>, news: seq<Token>, freshGroup: nat -> string)
      requires Valid()
      modifies reservations.live
      ensures Valid() && Live() == old(Live()).(reservations := AllRekeyed(old(Live()).reservations, olds, news, freshGroup))
      ensures Committed() == old(Committed())
    {
      RekeyInPlace(reservations.live, reservations.len, olds, news, freshGroup);
    }

    // ---------- Saving ----------

    method CommitEntitlements()
      requires Valid()
      modifies tokens`committed, reservations`committed, authorizations`committed
      ensures Valid() && Live() == old(Live())
      ensures Committed() == old(Committed()).(tokens := Live().tokens, reservations := Live().reservations, authorizations := Live().authorizations)
    {
      tokens.Commit();
      reservations.Commit();
      authorizations.Commit();
    }

    method CommitOthers()
      requires Valid()
      modifies claims`committed, leases`committed, bypasses`committed
      ensures Valid() && Live() == old(Live())
      ensures Committed() == old(Committed()).(claims := Live().claims, leases := Live().leases, bypasses := Live().bypasses)
    {
      claims.Commit();
      leases.Commit();
      bypasses.Commit();
    }

    method RestoreEntitlements()
      requires Valid()
      modifies tokens, reservations, authorizations
      ensures Valid() && Committed() == old(Committed())
      ensures Live() == old(Live()).(tokens := Committed().tokens, reservations := Committed().reservations, authorizations := Committed().authorizations)
    {
      tokens.RollBack();
      reservations.RollBack();
      authorizations.RollBack();
    }

    method RestoreOthers()
      requires Valid()
      modifies claims, leases, bypasses
      ensures Valid() && Committed() == old(Committed())
      ensures Live() == old(Live()).(claims := Committed().claims, leases := Committed().leases, bypasses := Committed().bypasses)
    {
      claims.RollBack();
      leases.RollBack();
      bypasses.RollBack();
    }

    /** The committed copy takes over every table, each in a new array. */
    method CommitTables()
      requires Valid()
      modifies tokens`committed, reservations`committed, authorizations`committed, claims`committed, leases`committed, bypasses`committed
      ensures Valid() && Live() == old(Live())
      ensures Committed() == Live().(managedKeys := committedManaged, snapshotID := committedSnapshot)
    {
      CommitEntitlements();
      CommitOthers();
    }

    method RestoreTables()
      requires Valid()
      modifies tokens, reservations, authorizations, claims, leases, bypasses
      ensures Valid() && Committed() == old(Committed())
      ensures Live() == Committed().(managedKeys := managedKeys, snapshotID := snapshotID)
    {
      RestoreEntitlements();
      RestoreOthers();
    }

    method Commit()
      requires Valid()
      modifies this, tokens, reservations, authorizations, claims, leases, bypasses
      ensures Valid() && Live() == old(Live()) == Committed() && disk == old(disk)
    {
      CommitTables();
      committedManaged, committedSnapshot := managedKeys, snapshotID;
    }

    method RollBack()
      requires Valid()
      modifies this, tokens, reservations, authorizations, claims, leases, bypasses
      ensures Valid() && Live() == Committed() == old(Committed()) && disk == old(disk)
    {
      RestoreTables();
      managedKeys, snapshotID := committedManaged, committedSnapshot;
    }

    /** Once the file is renamed the working state is what stands; short of that, and after any
        error, work resumes from the committed copy. */
    method SaveLocked(save: SaveEnd) returns (ok: bool)
      requires Valid() && Committed() == disk
      modifies this, tokens, reservations, authorizations, claims, leases, bypasses
      ensures Agrees()
      ensures Live() == if WithinBounds(old(Live())) && !save.NotRenamed? then old(Live()) else old(Committed())
      ensures ok == (WithinBounds(old(Live())) && save.Renamed?)
    {
      var l := Snapshot();
      if !WithinBounds(l) || save.NotRenamed? {
        RollBack();
        return false;
      }
      disk := l;
      Commit();
      if save.RenamedUnsynced? {
        RollBack();
        return false;
      }
      return true;
    }

    // ---------- Operations ----------

    /** The save that ends an operation. */
    method Finish(ghost l: Ledger, ghost op: Op, save: SaveEnd) returns (ok: bool)
      requires Valid() && Committed() == disk == l && Apply(l, op) == Saved(Live())
      modifies this, tokens, reservations, authorizations, claims, leases, bypasses
      ensures Agrees() && Live() == After(l, op, save) && ok == Succeeds(l, Event(op, save))
    {
      ok := SaveLocked(save);
    }

    method RegisterSoftToken(c: Credential, name: string, now: int, save: SaveEnd) returns (ok: bool)
      requires Agrees()
      modifies this, tokens, reservations, authorizations, claims, leases, bypasses, tokens.live
      ensures Agrees() && Live() == After(old(Live()), RegisterSoftOp(c, name, now), save)
      ensures ok == Succeeds(old(Live()), Event(RegisterSoftOp(c, name, now), save))
    {
      var l := Snapshot();
      var t := NewToken(c, Claimed, name, 0);
      var room := Store.CheckTokenRoom(l, t, now);
      SoftTokenRegistered(l, c, name, now);
      if !room {
        return false;
      }
      AppendToken(t);
      ok := Finish(l, RegisterSoftOp(c, name, now), save);
    }

    method AddAuthorization(a: Authorization, now: int, save: SaveEnd) returns (ok: bool)
      requires Agrees()
      modifies this, tokens, reservations, authorizations, claims, leases, bypasses, authorizations.live
      ensures Agrees() && Live() == After(old(Live()), AddAuthorizationOp(a, now), save)
      ensures ok == Succeeds(old(Live()), Event(AddAuthorizationOp(a, now), save))
    {
      var l := Snapshot();
      var room := CheckRoom(l, a, now);
      if !room {
        return false;
      }
      AppendAuthorization(a);
      ok := Finish(l, AddAuthorizationOp(a, now), save);
    }

    method ReleaseAuthorization(id: string, save: SaveEnd) returns (ok: bool)
      requires Agrees()
      modifies this, tokens, reservations, authorizations, claims, leases, bypasses, authorizations.live
      ensures Agrees() && Live() == After(old(Live()), ReleaseAuthorizationOp(id), save)
      ensures ok == Succeeds(old(Live()), Event(ReleaseAuthorizationOp(id), save))
    {
      var l := Snapshot();
      var k := FindFirst(l.authorizations, AuthIs(id));
      AuthorizationReleased(l, id);
      if k == |l.authorizations| {
        return true;
      }
      SetAuthorization(k, l.authorizations[k].(active := false));
      ok := Finish(l, ReleaseAuthorizationOp(id), save);
    }

    method ReleaseReservation(id: string, save: SaveEnd) returns (ok: bool)
      requires Agrees()
      modifies this, tokens, reservations, authorizations, claims, leases, bypasses, reservations.live
      ensures Agrees() && Live() == After(old(Live()), ReleaseReservationOp(id), save)
      ensures ok == Succeeds(old(Live()), Event(ReleaseReservationOp(id), save))
    {
      var l := Snapshot();
      var k := FindFirst(l.reservations, ReservationIs(id));
      ReservationReleased(l, id);
      if k == |l.reservations| {
        return true;
      }
      SetReservation(k, l.reservations[k].(active := false));
      ok := Finish(l, ReleaseReservationOp(id), save);
    }

    /** The claims are filtered in place before it is known whether any was removed. */
    method ReleaseSoftClaim(id: string, save: SaveEnd) returns (ok: bool)
      requires Agrees()
      modifies this, tokens, reservations, authorizations, claims, leases, bypasses, claims.live
      ensures Agrees() && Live() == After(old(Live()), ReleaseClaimOp(id), save)
      ensures ok == Succeeds(old(Live()), Event(ReleaseClaimOp(id), save))
    {
      ghost var l := Live();
      var n := claims.len;
      RetainClaims(OtherClaim(id));
      ClaimReleased(l, id);
      if claims.len == n {
        return true;
      }
      ok := Finish(l, ReleaseClaimOp(id), save);
    }

    /** Every table is filtered in place; nothing is saved if nothing went. */
    method Prune(now: int, save: SaveEnd) returns (ok: bool)
      requires Agrees()
      modifies this, tokens, reservations, authorizations, claims, leases, bypasses, tokens.live, reservations.live, authorizations.live, claims.live, leases.live, bypasses.live
      ensures Agrees() && Live() == After(old(Live()), PruneOp(now), save)
      ensures ok == Succeeds(old(Live()), Event(PruneOp(now), save))
    {
      var l := Snapshot();
      var changed := RetainAll(l, now);
      if !changed {
        return true;
      }
      ok := Finish(l, PruneOp(now), save);
    }

    method RetainAll(l: Ledger, now: int) returns (changed: bool)
      requires Valid() && l == Live()
      modifies tokens`len, tokens.live, reservations`len, reservations.live, authorizations`len, authorizations.live
      modifies leases`len, leases.live, bypasses`len, bypasses.live, claims`len, claims.live
      ensures Valid() && Committed() == old(Committed())
      ensures Apply(l, PruneOp(now)) == if changed then Saved(Live()) else Kept
      ensures !changed ==> Live() == l
    {
      RetainRecords(l, now);
      RecordsPruned(l, now);
      var kept := Snapshot();
      changed := !SameSizes(kept, l);
      if changed {
        RetainClaims(KeepClaim(l, kept.authorizations, now));
      }
    }

    method RetainRecords(l: Ledger, now: int)
      requires Valid() && l == Live()
      modifies tokens`len, tokens.live, reservations`len, reservations.live, authorizations`len, authorizations.live
      modifies leases`len, leases.live, bypasses`len, bypasses.live
      ensures Valid() && Live() == PrunedRecords(l, now) && Committed() == old(Committed())
    {
      RetainEntitlements(l, now);
      RetainOthers(l, now);
    }

    method RetainOthers(l: Ledger, now: int)
      requires Valid()
      modifies leases`len, leases.live, bypasses`len, bypasses.live
      ensures Valid() && Committed() == old(Committed())
      ensures Live() == old(Live()).(leases := Filter(old(Live()).leases, KeepLease(l, now)), bypasses := Filter(old(Live()).bypasses, KeepBypass(now)))
    {
      RetainLeases(KeepLease(l, now));
      RetainBypasses(KeepBypass(now));
    }

    method RetainEntitlements(l: Ledger, now: int)
      requires Valid() && l == Live()
      modifies tokens`len, tokens.live, reservations`len, reservations.live, authorizations`len, authorizations.live
      ensures Valid() && Committed() == old(Committed())
      ensures Live() == l.(tokens := Filter(l.tokens, KeepToken(l, now)), reservations := Filter(l.reservations, KeepReservation(l, now)),
                           authorizations := Filter(l.authorizations, KeepAuthorization(l, now)))
    {
      RetainTokens(KeepToken(l, now));
      RetainReservations(KeepReservation(l, now));
      RetainAuthorizations(KeepAuthorization(l, now));
    }

    method SyncManagedUserKeys(snapshot: string, keys: seq<Key>, freshGroup: nat -> string, save: SaveEnd) returns (ok: bool)
      requires Agrees()
      modifies this, tokens, reservations, authorizations, claims, leases, bypasses, reservations.live
      ensures Agrees() && Live() == After(old(Live()), SyncKeysOp(snapshot, keys, freshGroup), save)
      ensures ok == Succeeds(old(Live()), Event(SyncKeysOp(snapshot, keys, freshGroup), save))
    {
      var l := Snapshot();
      var id := Trim(snapshot);
      if id == "" || |keys| > MAX_TOKENS {
        return false;
      }
      var built := Store.BuildTokens(keys);
      if built.None? {
        return false;
      }
      if managedKeys && snapshotID == id {
        return true;
      }
      SnapshotTaken(l, snapshot, keys, freshGroup);
      Install(l, id, built.value, freshGroup);
      ok := Finish(l, SyncKeysOp(snapshot, keys, freshGroup), save);
    }

    method Install(l: Ledger, id: string, ts: seq<Token>, freshGroup: nat -> string)
      requires Valid() && l == Live()
      modifies this`managedKeys, this`snapshotID, tokens, reservations.live
      ensures Valid() && Committed() == old(Committed())
      ensures Live() == l.(tokens := ts, reservations := AllRekeyed(l.reservations, l.tokens, ts, freshGroup), managedKeys := true, snapshotID := id)
    {
      Rekey(l.tokens, ts, freshGroup);
      ReplaceTokens(ts);
      managedKeys, snapshotID := true, id;
    }

    /** Marks the records of every table in place. If nothing was named the call fails without a
        save, and then nothing was changed. */
    method MarkNamed(l: Ledger, x: string, hashOfX: string, now: int) returns (hit: bool)
      requires Valid() && l == Live()
      modifies tokens.live, reservations.live, authorizations.live, leases.live, bypasses.live, claims`len, claims.live
      ensures Valid() && Committed() == old(Committed())
      ensures RevokeOther(l, x, hashOfX, now) == if hit then Saved(Live()) else Rejected
      ensures !hit ==> Live() == l
    {
      var h, tokenHit := RevokeTokens(x, RevokeHash(l, x, hashOfX));
      MarkRecords(x, h, now);
      hit := tokenHit || AnyNamed(l, x, h);
      NamedRevoked(l, x, hashOfX, now);
      if h != "" || hit {
        RetainClaims(OtherClaim(x));
        hit := hit || claims.len != |l.claims|;
      }
    }

    method MarkRecords(x: string, h: string, now: int)
      requires Valid()
      modifies reservations.live, authorizations.live, leases.live, bypasses.live
      ensures Valid() && Live() == Marked(old(Live()), x, h, now) && Committed() == old(Committed())
    {
      RewriteReservations(RevokeReservation(x, h));
      RewriteAuthorizations(RevokeAuthorization(x, h));
      RewriteLeases(RevokeLease(x, h, now));
      RewriteBypasses(RevokeBypass(x));
    }

    method Revoke(name: string, hashOfX: string, now: int, save: SaveEnd) returns (ok: bool)
      requires Agrees()
      modifies this, tokens, reservations, authorizations, claims, leases, bypasses, tokens.live, reservations.live, authorizations.live, claims.live, leases.live, bypasses.live
      ensures Agrees() && Live() == After(old(Live()), RevokeOp(name, hashOfX, now), save)
      ensures ok == Succeeds(old(Live()), Event(RevokeOp(name, hashOfX, now), save))
    {
      var l := Snapshot();
      var r := RevokeRecords(l, name, hashOfX, now);
      if r != Done {
        return r.Nothing?;
      }
      ok := Finish(l, RevokeOp(name, hashOfX, now), save);
    }

    /** Edits the tables; only the first outcome needs a save, and after the other two nothing has changed. */
    method RevokeRecords(l: Ledger, name: string, hashOfX: string, now: int) returns (r: Edit)
      requires Valid() && l == Live()
      modifies tokens.live, reservations.live, authorizations.live, leases.live, bypasses.live, claims`len, claims.live
      ensures Valid() && Committed() == old(Committed())
      ensures Apply(l, RevokeOp(name, hashOfX, now)) == match r case Done => Saved(Live()) case Nothing => Kept case Unknown => Rejected
      ensures r != Done ==> Live() == l
    {
      var x := Trim(name);
      var k := FindFirst(l.reservations, ManagedGroupMember(l.tokens, x));
      RevokeKinds(l, name, hashOfX, now);
      if k < |l.reservations| && GroupOf(l.reservations[k]) != "" {
        var changed := WithdrawGroup(l, GroupOf(l.reservations[k]));
        return if changed then Done else Nothing;
      }
      var hit := MarkNamed(l, x, hashOfX, now);
      return if hit then Done else Unknown;
    }

    method WithdrawGroup(l: Ledger, g: string) returns (changed: bool)
      requires Valid() && l == Live()
      modifies reservations.live
      ensures Valid() && Committed() == old(Committed())
      ensures Withdrawn(l, g) == if changed then Saved(Live()) else Kept
      ensures !changed ==> Live() == l
    {
      RewriteReservations(RevokeGroup(g));
      var next := Snapshot();
      changed := next.reservations != l.reservations;
    }
  }

  /** What became of an edit: done, nothing to do, or nothing found. */
  datatype Edit = Done | Nothing | Unknown

  // ---------- The operations on values ----------

  lemma {:induction false} SoftTokenRegistered(l: Ledger, c: Credential, name: string, now: int)
    ensures var t := NewToken(c, Claimed, name, 0);
            Apply(l, RegisterSoftOp(c, name, now)) == if TokenRoom(l, t, now) then Saved(l.(tokens := l.tokens + [t])) else Rejected
  {
  }

  method CheckRoom(l: Ledger, a: Authorization, now: int) returns (ok: bool)
    ensures Apply(l, AddAuthorizationOp(a, now)) == if ok then Saved(l.(authorizations := l.authorizations + [a])) else Rejected
  {
    if |l.authorizations| + 1 > MAX_AUTHORIZATIONS {
      return false;
    }
    if AuthorizationUsable(a, now) {
      var usable := FilterSlice(l.authorizations, UsableOfToken(a.tokenHash, now));
      return |usable| < MAX_ACTIVE_AUTHORIZATIONS;
    }
    return true;
  }

  lemma {:induction false} AuthorizationReleased(l: Ledger, id: string)
    ensures var k := Find(l.authorizations, AuthIs(id));
            Apply(l, ReleaseAuthorizationOp(id)) == if k == |l.authorizations| then Kept
                                          else Saved(l.(authorizations := l.authorizations[k := l.authorizations[k].(active := false)]))
  {
  }

  lemma {:induction false} ReservationReleased(l: Ledger, id: string)
    ensures var k := Find(l.reservations, ReservationIs(id));
            Apply(l, ReleaseReservationOp(id)) == if k == |l.reservations| then Kept
                                          else Saved(l.(reservations := l.reservations[k := l.reservations[k].(active := false)]))
  {
  }

  lemma {:induction false} ClaimReleased(l: Ledger, id: string)
    ensures var kept := Filter(l.claims, OtherClaim(id));
            && (|kept| == |l.claims| ==> Apply(l, ReleaseClaimOp(id)) == Kept && kept == l.claims)
            && (|kept| != |l.claims| ==> Apply(l, ReleaseClaimOp(id)) == Saved(l.(claims := kept)))
  {
    if |Filter(l.claims, OtherClaim(id))| == |l.claims| {
      FilterAll(l.claims, OtherClaim(id));
    }
  }

  lemma {:induction false} RecordsPruned(l: Ledger, now: int)
    ensures var kept := PrunedRecords(l, now);
            if SameSizes(kept, l) then Apply(l, PruneOp(now)) == Kept && kept == l
            else Apply(l, PruneOp(now)) == Saved(kept.(claims := Filter(l.claims, KeepClaim(l, kept.authorizations, now))))
  {
    if SameSizes(PrunedRecords(l, now), l) {
      NothingPruned(l, now);
    }
  }

  function Withdrawn(l: Ledger, g: string): Result {
    var rs := Map(l.reservations, RevokeGroup(g));
    if rs == l.reservations then Kept else Saved(l.(reservations := rs))
  }

  lemma {:induction false} RevokeKinds(l: Ledger, name: string, hashOfX: string, now: int)
    ensures var x := Trim(name);
            var k := Find(l.reservations, ManagedGroupMember(l.tokens, x));
            Apply(l, RevokeOp(name, hashOfX, now)) ==
            if k < |l.reservations| && GroupOf(l.reservations[k]) != "" then Withdrawn(l, GroupOf(l.reservations[k]))
            else RevokeOther(l, x, hashOfX, now)
  {
  }

  /** A revocation by id or hash, as edits of the tables; when it is refused they have changed nothing. */
  lemma {:induction false} NamedRevoked(l: Ledger, x: string, hashOfX: string, now: int)
    ensures var (ts, h, tokenHit) := Operations.RevokeTokens(l.tokens, x, RevokeHash(l, x, hashOfX));
            var hit := tokenHit || AnyNamed(l, x, h);
            var cs := if h != "" || hit then Filter(l.claims, OtherClaim(x)) else l.claims;
            var next := Marked(l, x, h, now).(tokens := ts, claims := cs);
            if hit || |cs| != |l.claims| then RevokeOther(l, x, hashOfX, now) == Saved(next)
            else RevokeOther(l, x, hashOfX, now) == Rejected && next == l
  {
    var first := RevokeHash(l, x, hashOfX);
    var (ts, h, tokenHit) := Operations.RevokeTokens(l.tokens, x, first);
    if !tokenHit && !AnyNamed(l, x, h) {
      NothingNamed(l, x, first, now);
    }
  }

  lemma {:induction false} SnapshotTaken(l: Ledger, snapshot: string, keys: seq<Key>, freshGroup: nat -> string)
    requires Trim(snapshot) != "" && |keys| <= MAX_TOKENS && SnapshotTokens(keys).Some? && !(l.managedKeys && l.snapshotID == Trim(snapshot))
    ensures var ts := SnapshotTokens(keys).value;
            Apply(l, SyncKeysOp(snapshot, keys, freshGroup)) ==
            Saved(l.(tokens := ts, reservations := AllRekeyed(l.reservations, l.tokens, ts, freshGroup), managedKeys := true, snapshotID := Trim(snapshot)))
  {
  }

  // ---------- Loops over one array ----------

  /** Revokes tokens in order; each one found fixes the hash for those after it. */
  method RevokeInPlace(a: array<Token>, n: nat, x: string, first: string) returns (h: string, hit: bool)
    requires n <= a.Length
    modifies a
    ensures (a[..n], h, hit) == Operations.RevokeTokens(old(a[..n]), x, first) && a[n..] == old(a[n..])
  {
    ghost var was := a[..];
    h, hit := first, false;
    for i := 0 to n
      invariant (a[..i], h, hit) == Operations.RevokeTokens(was[..i], x, first)
      invariant forall j :: i <= j < a.Length ==> a[j] == was[j]
    {
      assert was[..i + 1][..i] == was[..i];
      ghost var done := a[..i];
      if a[i].id == x || (h != "" && a[i].hash == h) {
        h, hit := a[i].hash, true;
        a[i] := a[i].(revoked := true);
      }
      assert a[..i + 1] == done + [a[i]];
    }
    assert was[..n] == old(a[..n]);
  }

  function AllRekeyed(rs: seq<Reservation>, olds: seq<Token>, news: seq<Token>, freshGroup: nat -> string): (r: seq<Reservation>)
    ensures |r| == |rs|
  {
    seq(|rs|, i requires 0 <= i < |rs| => Rekeyed(rs[i], olds, news, freshGroup(i)))
  }

  method RekeyInPlace(a: array<Reservation>, n: nat, olds: seq<Token>, news: seq<Token>, freshGroup: nat -> string)
    requires n <= a.Length
    modifies a
    ensures a[..n] == AllRekeyed(old(a[..n]), olds, news, freshGroup) && a[n..] == old(a[n..])
  {
    ghost var was := a[..];
    for i := 0 to n
      invariant forall j :: 0 <= j < i ==> a[j] == Rekeyed(was[j], olds, news, freshGroup(j))
      invariant forall j :: i <= j < a.Length ==> a[j] == was[j]
    {
      a[i] := Rekeyed(a[i], olds, news, freshGroup(i));
    }
  }

  // ---------- When nothing changes ----------

  function PrunedRecords(l: Ledger, now: int): Ledger {
    l.(tokens := Filter(l.tokens, KeepToken(l, now)), reservations := Filter(l.reservations, KeepReservation(l, now)),
       authorizations := Filter(l.authorizations, KeepAuthorization(l, now)), leases := Filter(l.leases, KeepLease(l, now)),
       bypasses := Filter(l.bypasses, KeepBypass(now)))
  }

  lemma {:induction false} NothingPruned(l: Ledger, now: int)
    requires SameSizes(PrunedRecords(l, now), l)
    ensures PrunedRecords(l, now) == l
  {
    FilterAll(l.tokens, KeepToken(l, now));
    FilterAll(l.reservations, KeepReservation(l, now));
    FilterAll(l.authorizations, KeepAuthorization(l, now));
    FilterAll(l.leases, KeepLease(l, now));
    FilterAll(l.bypasses, KeepBypass(now));
  }

  function Marked(l: Ledger, x: string, h: string, now: int): Ledger {
    l.(reservations := Map(l.reservations, RevokeReservation(x, h)), authorizations := Map(l.authorizations, RevokeAuthorization(x, h)),
       leases := Map(l.leases, RevokeLease(x, h, now)), bypasses := Map(l.bypasses, RevokeBypass(x)))
  }

  lemma {:induction false} NoTokenNamed(ts: seq<Token>, x: string, first: string)
    requires !Operations.RevokeTokens(ts, x, first).2
    ensures Operations.RevokeTokens(ts, x, first).0 == ts
  {
    if ts != [] {
      NoTokenNamed(ts[..|ts| - 1], x, first);
    }
  }

  lemma {:induction false} NothingMarked(l: Ledger, x: string, h: string, now: int)
    requires !AnyNamed(l, x, h)
    ensures Marked(l, x, h, now) == l
  {
    var n := Marked(l, x, h, now);
    assert n.reservations == l.reservations;
    assert n.authorizations == l.authorizations;
    assert n.leases == l.leases;
    assert n.bypasses == l.bypasses;
  }

  /** A revocation that names nothing leaves every table as it was. */
  lemma {:induction false} NothingNamed(l: Ledger, x: string, first: string, now: int)
    requires var (ts, h, hit) := Operations.RevokeTokens(l.tokens, x, first); !hit && !AnyNamed(l, x, h)
    ensures var (ts, h, hit) := Operations.RevokeTokens(l.tokens, x, first); Marked(l, x, h, now).(tokens := ts) == l
    ensures |Filter(l.claims, OtherClaim(x))| == |l.claims| ==> Filter(l.claims, OtherClaim(x)) == l.claims
  {
    NoTokenNamed(l.tokens, x, first);
    NothingMarked(l, x, Operations.RevokeTokens(l.tokens, x, first).1, now);
    if |Filter(l.claims, OtherClaim(x))| == |l.claims| {
      FilterAll(l.claims, OtherClaim(x));
    }
  }
}
