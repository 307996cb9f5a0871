/** The store as the daemon uses it: each call edits the working state and saves it; whatever
    happens to the save, the working state, the committed copy and the file agree afterwards. */
module Store {
  import opened Options
  import opened Text
  import opened Seqs
  import opened Model
  import opened Operations

  // ---------- Loops over requests and records ----------

  predicate BadGPU(gpu: int, limit: Option<int>) {
    gpu < 0 || (limit.Some? && gpu > limit.value)
  }

  predicate GoodMembers(ms: seq<Member>, limit: Option<int>) {
    !(exists i :: 0 <= i < |ms| && BadGPU(ms[i].gpu, limit)) && DistinctGPUs(ms)
  }

  /** Checks each requested GPU, remembering those seen. */
  method CheckMembers(ms: seq<Member>, limit: Option<int>) returns (ok: bool)
    ensures ok == GoodMembers(ms, limit)
  {
    var seen: set<int> := {};
    for i := 0 to |ms|
      invariant forall j :: 0 <= j < i ==> !BadGPU(ms[j].gpu, limit) && ms[j].gpu in seen
      invariant forall g :: g in seen ==> exists j :: 0 <= j < i && ms[j].gpu == g
      invariant forall j, k :: 0 <= j < k < i ==> ms[j].gpu != ms[k].gpu
    {
      if BadGPU(ms[i].gpu, limit) || ms[i].gpu in seen {
        return false;
      }
      seen := seen + {ms[i].gpu};
    }
    return true;
  }

  method FindConflict(rs: seq<Reservation>, req: Request) returns (found: bool)
    ensures found == Conflict(rs, req)
  {
    for j := 0 to |req.members|
      invariant forall k, i :: 0 <= k < j && 0 <= i < |rs| ==> !Blocks(rs[i], req.members[k], req)
    {
      for i := 0 to |rs|
        invariant forall k :: 0 <= k < i ==> !Blocks(rs[k], req.members[j], req)
      {
        if Blocks(rs[i], req.members[j], req) {
          return true;
        }
      }
    }
    return false;
  }

  method MakeReservations(req: Request, hash: string, holder: string, group: string) returns (rs: seq<Reservation>)
    ensures rs == NewReservations(req, hash, holder, group)
  {
    rs := [];
    for i := 0 to |req.members|
      invariant |rs| == i && forall j :: 0 <= j < i ==> rs[j] == NewReservation(req, req.members[j], hash, holder, group)
    {
      rs := rs + [NewReservation(req, req.members[i], hash, holder, group)];
    }
  }

  /** Room for one more token, overall and for its holder. */
  method CheckTokenRoom(l: Ledger, t: Token, now: int) returns (ok: bool)
    ensures ok == TokenRoom(l, t, now)
  {
    if |l.tokens| + 1 > MAX_TOKENS {
      return false;
    }
    if !TokenUsable(t, now) {
      return true;
    }
    var held := FilterSlice(l.tokens, UsableBy(NormalizeHolder(t.name), now));
    ok := |held| < MAX_ACTIVE_TOKENS_PER_HOLDER;
  }

  /** The sets hold exactly the ids, hashes and owners of the tokens. */
  ghost predicate Indexed(ts: seq<Token>, ids: set<string>, hashes: set<string>, owners: set<string>) {
    && (forall x :: x in ids <==> exists j :: 0 <= j < |ts| && ts[j].id == x)
    && (forall x :: x in hashes <==> exists j :: 0 <= j < |ts| && ts[j].hash == x)
    && (forall x :: x in owners <==> exists j :: 0 <= j < |ts| && ts[j].name == x)
  }

  lemma IndexedMeaning(ts: seq<Token>, ids: set<string>, hashes: set<string>, owners: set<string>, t: Token)
    requires Indexed(ts, ids, hashes, owners)
    ensures NewIn(ts, t) <==> t.id !in ids && t.hash !in hashes && t.name !in owners
  {
  }

  lemma IndexedStep(ts: seq<Token>, ids: set<string>, hashes: set<string>, owners: set<string>, t: Token)
    requires Indexed(ts, ids, hashes, owners)
    ensures Indexed(ts + [t], ids + {t.id}, hashes + {t.hash}, owners + {t.name})
  {
    var us := ts + [t];
    assert us[|ts|] == t && forall j :: 0 <= j < |ts| ==> us[j] == ts[j];
    forall x ensures (exists j :: 0 <= j < |us| && us[j].id == x) <==> x in ids + {t.id} {
      if x in ids {
        var j :| 0 <= j < |ts| && ts[j].id == x;
        assert us[j].id == x;
      }
    }
    forall x ensures (exists j :: 0 <= j < |us| && us[j].hash == x) <==> x in hashes + {t.hash} {
      if x in hashes {
        var j :| 0 <= j < |ts| && ts[j].hash == x;
        assert us[j].hash == x;
      }
    }
    forall x ensures (exists j :: 0 <= j < |us| && us[j].name == x) <==> x in owners + {t.name} {
      if x in owners {
        var j :| 0 <= j < |ts| && ts[j].name == x;
        assert us[j].name == x;
      }
    }
  }

  /** The tokens of a snapshot, or none if a key is malformed or its id, hash or owner repeats. */
  method BuildTokens(keys: seq<Key>) returns (r: Option<seq<Token>>)
    ensures r == SnapshotTokens(keys)
  {
    var ts: seq<Token> := [];
    var ids: set<string>, hashes: set<string>, owners: set<string> := {}, {}, {};
    for i := 0 to |keys|
      invariant SnapshotTokens(keys[..i]) == Some(ts) && Indexed(ts, ids, hashes, owners)
    {
      var t := KeyToken(keys[i]);
      assert keys[..i + 1][..i] == keys[..i];
      IndexedMeaning(ts, ids, hashes, owners, t);
      if !KeyWellFormed(keys[i]) || t.id in ids || t.hash in hashes || t.name in owners {
        BadKey(keys, i);
        return None;
      }
      IndexedStep(ts, ids, hashes, owners, t);
      ids, hashes, owners, ts := ids + {t.id}, hashes + {t.hash}, owners + {t.name}, ts + [t];
    }
    assert keys[..|keys|] == keys;
    return Some(ts);
  }

  /** One bad key spoils the snapshot. */
  lemma {:induction false} BadKey(keys: seq<Key>, i: nat)
    requires i < |keys| && SnapshotTokens(keys[..i + 1]).None?
    ensures SnapshotTokens(keys).None?
  {
    if i + 1 < |keys| {
      var n := |keys| - 1;
      assert keys[..n][..i + 1] == keys[..i + 1];
      BadKey(keys[..n], i);
    } else {
      assert keys[..i + 1] == keys;
    }
  }

  method RekeyReservations(l: Ledger, ts: seq<Token>, freshGroup: nat -> string) returns (rs: seq<Reservation>)
    ensures rs == seq(|l.reservations|, i requires 0 <= i < |l.reservations| => Rekeyed(l.reservations[i], l.tokens, ts, freshGroup(i)))
  {
    rs := l.reservations;
    for i := 0 to |l.reservations|
      invariant |rs| == |l.reservations|
      invariant forall j :: 0 <= j < i ==> rs[j] == Rekeyed(l.reservations[j], l.tokens, ts, freshGroup(j))
      invariant forall j :: i <= j < |rs| ==> rs[j] == l.reservations[j]
    {
      rs := rs[i := Rekeyed(rs[i], l.tokens, ts, freshGroup(i))];
    }
  }

  method RevokeTokenRows(ts: seq<Token>, x: string, hash: string) returns (r: seq<Token>, h: string, changed: bool)
    ensures (r, h, changed) == RevokeTokens(ts, x, hash)
  {
    r, h, changed := [], hash, false;
    for i := 0 to |ts|
      invariant (r, h, changed) == RevokeTokens(ts[..i], x, hash)
    {
      assert ts[..i + 1][..i] == ts[..i];
      if ts[i].id == x || (h != "" && ts[i].hash == h) {
        r, h, changed := r + [ts[i].(revoked := true)], ts[i].hash, true;
      } else {
        r := r + [ts[i]];
      }
    }
    assert ts[..|ts|] == ts;
  }

  /** The hashes of the tokens that go. */
  method GoneHashes(l: Ledger, now: int) returns (gone: set<string>)
    ensures forall h :: h in gone <==> HashGone(l.tokens, l.reservations, h, now)
  {
    gone := {};
    for i := 0 to |l.tokens|
      invariant forall h :: h in gone <==> HashGone(l.tokens[..i], l.reservations, h, now)
    {
      GoneStep(l.tokens, i, l.reservations, now);
      if TokenGone(l.tokens[i], l.reservations, now) && l.tokens[i].hash != "" {
        gone := gone + {l.tokens[i].hash};
      }
    }
    assert l.tokens[..|l.tokens|] == l.tokens;
  }

  lemma GoneStep(ts: seq<Token>, i: nat, rs: seq<Reservation>, now: int)
    requires i < |ts|
    ensures forall h :: HashGone(ts[..i + 1], rs, h, now)
                        <==> HashGone(ts[..i], rs, h, now) || (h != "" && ts[i].hash == h && TokenGone(ts[i], rs, now))
  {
    forall h ensures HashGone(ts[..i + 1], rs, h, now)
                     <==> HashGone(ts[..i], rs, h, now) || (h != "" && ts[i].hash == h && TokenGone(ts[i], rs, now))
    {
      assert forall j :: 0 <= j < i ==> ts[..i + 1][j] == ts[..i][j] == ts[j];
      assert ts[..i + 1][i] == ts[i];
      if HashGone(ts[..i], rs, h, now) {
        var j :| 0 <= j < |ts[..i]| && ts[..i][j].hash == h && TokenGone(ts[..i][j], rs, now);
        assert ts[..i + 1][j].hash == h;
      }
    }
  }

  method PruneRecords(l: Ledger, now: int) returns (kept: Ledger, changed: bool)
    ensures changed == Prune(l, now).Saved?
    ensures changed ==> kept == Prune(l, now).ledger
  {
    var gone := GoneHashes(l, now);
    var ts := FilterSlice(l.tokens, KeepToken(l, now));
    var rs := FilterSlice(l.reservations, (r: Reservation) => !r.revoked && r.active && now < r.expiresAt && r.tokenHash !in gone);
    var as' := FilterSlice(l.authorizations, (a: Authorization) => AuthorizationUsable(a, now) && a.tokenHash !in gone);
    var es := FilterSlice(l.leases, (e: Lease) => e.active && now < e.expiresAt && e.tokenHash !in gone);
    var bs := FilterSlice(l.bypasses, KeepBypass(now));
    SameFilter(l.reservations, (r: Reservation) => !r.revoked && r.active && now < r.expiresAt && r.tokenHash !in gone, KeepReservation(l, now));
    SameFilter(l.authorizations, (a: Authorization) => AuthorizationUsable(a, now) && a.tokenHash !in gone, KeepAuthorization(l, now));
    SameFilter(l.leases, (e: Lease) => e.active && now < e.expiresAt && e.tokenHash !in gone, KeepLease(l, now));
    kept := l.(tokens := ts, reservations := rs, authorizations := as', leases := es, bypasses := bs);
    changed := !SameSizes(kept, l);
    if changed {
      var cs := FilterSlice(l.claims, KeepClaim(l, as', now));
      kept := kept.(claims := cs);
    }
  }

  // ---------- The store ----------

  class Store {
    var state: Ledger
    var committed: Ledger
    /** What the state file holds. */
    var disk: Ledger

    ghost predicate Agrees()
      reads this
    {
      state == committed == disk
    }

    constructor ()
      ensures Agrees() && state == EMPTY
    {
      state, committed, disk := EMPTY, EMPTY, EMPTY;
    }

    /** Writes the working state to a temporary file and renames it into place. Once renamed
        the new state stands; short of that, and after any error, work resumes from the committed one. */
    method SaveLocked(save: SaveEnd) returns (ok: bool)
      requires committed == disk
      modifies this
      ensures Agrees()
      ensures state == if WithinBounds(old(state)) && !save.NotRenamed? then old(state) else old(committed)
      ensures ok == (WithinBounds(old(state)) && save.Renamed?)
    {
      if !WithinBounds(state) || save.NotRenamed? {
        state := committed;
        return false;
      }
      disk := state;
      committed := state;
      if save.RenamedUnsynced? {
        state := committed;
        return false;
      }
      return true;
    }

    method RegisterSoftToken(c: Credential, name: string, now: int, save: SaveEnd) returns (ok: bool)
      requires Agrees()
      modifies this
      ensures Agrees() && state == After(old(state), RegisterSoftOp(c, name, now), save)
      ensures ok == Succeeds(old(state), Event(RegisterSoftOp(c, name, now), save))
    {
      var t := NewToken(c, Claimed, name, 0);
      var room := CheckTokenRoom(state, t, now);
      if !room {
        return false;
      }
      state := state.(tokens := state.tokens + [t]);
      ok := SaveLocked(save);
    }

    method RegisterScheduledReservations(c: Credential, req: Request, save: SaveEnd) returns (ok: bool)
      requires Agrees()
      modifies this
      ensures Agrees() && state == After(old(state), RegisterOp(c, req), save)
      ensures ok == Succeeds(old(state), Event(RegisterOp(c, req), save))
    {
      if !ProperWindow(req) || req.members == [] || |req.members| > MAX_RESERVATIONS {
        return false;
      }
      var good := CheckMembers(req.members, None);
      if !good {
        return false;
      }
      var t := NewToken(c, Reserved, req.name, req.expiresAt);
      if Trim(req.session) != "" {
        var existing := FilterSlice(state.reservations, OfSession(Trim(req.session)));
        if existing != [] {
          return ReplayReserved(state, existing, req).Kept?;
        }
      }
      var room := CheckTokenRoom(state, t, req.now);
      if !room || |state.reservations| + |req.members| > MAX_RESERVATIONS {
        return false;
      }
      var conflict := FindConflict(state.reservations, req);
      if conflict {
        return false;
      }
      var rs := MakeReservations(req, t.hash, t.name, "");
      state := state.(tokens := state.tokens + [t], reservations := state.reservations + rs);
      ok := SaveLocked(save);
    }

    method RegisterManagedReservations(keyID: string, groupID: string, req: Request, save: SaveEnd) returns (ok: bool)
      requires Agrees()
      modifies this
      ensures Agrees() && state == After(old(state), RegisterManagedOp(keyID, groupID, req), save)
      ensures ok == Succeeds(old(state), Event(RegisterManagedOp(keyID, groupID, req), save))
    {
      if !ProperWindow(req) || req.members == [] {
        return false;
      }
      var good := CheckMembers(req.members, Some(MAX_GPU));
      if !good || !state.managedKeys {
        return false;
      }
      var k := FindFirst(state.tokens, ManagedKey(Trim(keyID)));
      if k == |state.tokens| || state.tokens[k].id == "" {
        return false;
      }
      var t := state.tokens[k];
      if Trim(req.session) != "" {
        var existing := FilterSlice(state.reservations, OfSession(Trim(req.session)));
        if existing != [] {
          return existing[0].tokenHash == t.hash && SameRequest(existing, t.name, req);
        }
      }
      if |state.reservations| + |req.members| > MAX_RESERVATIONS {
        return false;
      }
      var conflict := FindConflict(state.reservations, req);
      if conflict {
        return false;
      }
      var rs := MakeReservations(req, t.hash, t.name, groupID);
      state := state.(reservations := state.reservations + rs);
      ok := SaveLocked(save);
    }

    method SyncManagedUserKeys(snapshot: string, keys: seq<Key>, freshGroup: nat -> string, save: SaveEnd) returns (ok: bool)
      requires Agrees()
      modifies this
      ensures Agrees() && state == After(old(state), SyncKeysOp(snapshot, keys, freshGroup), save)
      ensures ok == Succeeds(old(state), Event(SyncKeysOp(snapshot, keys, freshGroup), save))
    {
      var id := Trim(snapshot);
      if id == "" || |keys| > MAX_TOKENS {
        return false;
      }
      var built := BuildTokens(keys);
      if built.None? {
        return false;
      }
      if state.managedKeys && state.snapshotID == id {
        return true;
      }
      var rs := RekeyReservations(state, built.value, freshGroup);
      state := state.(tokens := built.value, reservations := rs, managedKeys := true, snapshotID := id);
      ok := SaveLocked(save);
    }

    method AddAuthorization(a: Authorization, now: int, save: SaveEnd) returns (ok: bool)
      requires Agrees()
      modifies this
      ensures Agrees() && state == After(old(state), AddAuthorizationOp(a, now), save)
      ensures ok == Succeeds(old(state), Event(AddAuthorizationOp(a, now), save))
    {
      if |state.authorizations| + 1 > MAX_AUTHORIZATIONS {
        return false;
      }
      if AuthorizationUsable(a, now) {
        var usable := FilterSlice(state.authorizations, UsableOfToken(a.tokenHash, now));
        if |usable| >= MAX_ACTIVE_AUTHORIZATIONS {
          return false;
        }
      }
      state := state.(authorizations := state.authorizations + [a]);
      ok := SaveLocked(save);
    }

    method ActivateAuthorization(id: string, pid: int, save: SaveEnd) returns (ok: bool)
      requires Agrees()
      modifies this
      ensures Agrees() && state == After(old(state), ActivateOp(id, pid), save)
      ensures ok == Succeeds(old(state), Event(ActivateOp(id, pid), save))
    {
      if pid <= 0 {
        return false;
      }
      var k := FindFirst(state.authorizations, AuthIs(id));
      if k == |state.authorizations| {
        return false;
      }
      var a := state.authorizations[k];
      if !a.active || a.revoked || a.rootPID != 0 {
        return false;
      }
      state := state.(authorizations := state.authorizations[k := a.(rootPID := pid)]);
      ok := SaveLocked(save);
    }

    method ReleaseAuthorization(id: string, save: SaveEnd) returns (ok: bool)
      requires Agrees()
      modifies this
      ensures Agrees() && state == After(old(state), ReleaseAuthorizationOp(id), save)
      ensures ok == Succeeds(old(state), Event(ReleaseAuthorizationOp(id), save))
    {
      var k := FindFirst(state.authorizations, AuthIs(id));
      if k == |state.authorizations| {
        return true;
      }
      state := state.(authorizations := state.authorizations[k := state.authorizations[k].(active := false)]);
      ok := SaveLocked(save);
    }

    method ReleaseReservation(id: string, save: SaveEnd) returns (ok: bool)
      requires Agrees()
      modifies this
      ensures Agrees() && state == After(old(state), ReleaseReservationOp(id), save)
      ensures ok == Succeeds(old(state), Event(ReleaseReservationOp(id), save))
    {
      var k := FindFirst(state.reservations, ReservationIs(id));
      if k == |state.reservations| {
        return true;
      }
      state := state.(reservations := state.reservations[k := state.reservations[k].(active := false)]);
      ok := SaveLocked(save);
    }

    method ReleaseLease(id: string, save: SaveEnd) returns (ok: bool)
      requires Agrees()
      modifies this
      ensures Agrees() && state == After(old(state), ReleaseLeaseOp(id), save)
      ensures ok == Succeeds(old(state), Event(ReleaseLeaseOp(id), save))
    {
      var k := FindFirst(state.leases, LeaseIs(id));
      if k == |state.leases| {
        return true;
      }
      state := state.(leases := state.leases[k := state.leases[k].(active := false)]);
      ok := SaveLocked(save);
    }

    method UpsertSoftClaim(claim: SoftClaim, freshID: string, save: SaveEnd) returns (ok: bool)
      requires Agrees()
      modifies this
      ensures Agrees() && state == After(old(state), UpsertClaimOp(claim, freshID), save)
      ensures ok == Succeeds(old(state), Event(UpsertClaimOp(claim, freshID), save))
    {
      var c := if claim.id == "" then claim.(id := freshID) else claim;
      var k := FindFirst(state.claims, SameClaim(c.gpu, c.tokenHash));
      if k < |state.claims| {
        state := state.(claims := state.claims[k := c.(id := state.claims[k].id)]);
      } else {
        state := state.(claims := state.claims + [c]);
      }
      ok := SaveLocked(save);
    }

    method ReleaseSoftClaim(id: string, save: SaveEnd) returns (ok: bool)
      requires Agrees()
      modifies this
      ensures Agrees() && state == After(old(state), ReleaseClaimOp(id), save)
      ensures ok == Succeeds(old(state), Event(ReleaseClaimOp(id), save))
    {
      var kept := FilterSlice(state.claims, OtherClaim(id));
      if |kept| == |state.claims| {
        return true;
      }
      state := state.(claims := kept);
      ok := SaveLocked(save);
    }

    method AddBypass(b: Bypass, save: SaveEnd) returns (ok: bool)
      requires Agrees()
      modifies this
      ensures Agrees() && state == After(old(state), AddBypassOp(b), save)
      ensures ok == Succeeds(old(state), Event(AddBypassOp(b), save))
    {
      if |state.bypasses| + 1 > MAX_BYPASSES {
        return false;
      }
      state := state.(bypasses := state.bypasses + [b]);
      ok := SaveLocked(save);
    }

    method Revoke(name: string, hashOfX: string, now: int, save: SaveEnd) returns (ok: bool)
      requires Agrees()
      modifies this
      ensures Agrees() && state == After(old(state), RevokeOp(name, hashOfX, now), save)
      ensures ok == Succeeds(old(state), Event(RevokeOp(name, hashOfX, now), save))
    {
      var r := RevokeNamed(state, name, hashOfX, now);
      match r {
        case Rejected => return false;
        case Kept => return true;
        case Saved(next) =>
          state := next;
          ok := SaveLocked(save);
      }
    }

    method Prune(now: int, save: SaveEnd) returns (ok: bool)
      requires Agrees()
      modifies this
      ensures Agrees() && state == After(old(state), PruneOp(now), save)
      ensures ok == Succeeds(old(state), Event(PruneOp(now), save))
    {
      var kept, changed := PruneRecords(state, now);
      if !changed {
        return true;
      }
      state := kept;
      ok := SaveLocked(save);
    }

    method PruneInactiveManagedScopes(authorizationIDs: set<string>, leaseIDs: set<string>, save: SaveEnd) returns (ok: bool)
      requires Agrees()
      modifies this
      ensures Agrees() && state == After(old(state), PruneManagedScopesOp(authorizationIDs, leaseIDs), save)
      ensures ok == Succeeds(old(state), Event(PruneManagedScopesOp(authorizationIDs, leaseIDs), save))
    {
      var as' := FilterSlice(state.authorizations, KeepScope(authorizationIDs));
      var es := FilterSlice(state.leases, KeepLeaseScope(leaseIDs));
      if |as'| == |state.authorizations| && |es| == |state.leases| {
        return true;
      }
      state := state.(authorizations := as', leases := es);
      ok := SaveLocked(save);
    }

    method PruneUnreferencedInvalidEntitlements(now: int, save: SaveEnd) returns (ok: bool)
      requires Agrees()
      modifies this
      ensures Agrees() && state == After(old(state), PruneUnreferencedOp(now), save)
      ensures ok == Succeeds(old(state), Event(PruneUnreferencedOp(now), save))
    {
      var rs := FilterSlice(state.reservations, KeepEntitlement(state, now));
      var ts := FilterSlice(state.tokens, KeepCredential(state, now));
      if |rs| == |state.reservations| && |ts| == |state.tokens| {
        return true;
      }
      state := state.(reservations := rs, tokens := ts);
      ok := SaveLocked(save);
    }
  }

  /** Marks every record that the id or hash names; `hit` if there was one. */
  method RevokeRecords(l: Ledger, x: string, hashOfX: string, now: int) returns (next: Ledger, hit: bool)
    ensures hit == RevokeOther(l, x, hashOfX, now).Saved?
    ensures hit ==> next == RevokeOther(l, x, hashOfX, now).ledger
  {
    var ts, h, tokenHit := RevokeTokenRows(l.tokens, x, RevokeHash(l, x, hashOfX));
    var rs := MapSlice(l.reservations, RevokeReservation(x, h));
    var as' := MapSlice(l.authorizations, RevokeAuthorization(x, h));
    var es := MapSlice(l.leases, RevokeLease(x, h, now));
    var bs := MapSlice(l.bypasses, RevokeBypass(x));
    hit := tokenHit || AnyNamed(l, x, h);
    var cs := l.claims;
    if h != "" || hit {
      cs := FilterSlice(l.claims, OtherClaim(x));
      hit := hit || |cs| != |l.claims|;
    }
    next := l.(tokens := ts, reservations := rs, authorizations := as', leases := es, bypasses := bs, claims := cs);
  }

  /** Revokes the group of a managed reservation, or else every record named. */
  method RevokeNamed(l: Ledger, name: string, hashOfX: string, now: int) returns (r: Result)
    ensures r == Revoke(l, name, hashOfX, now)
  {
    var x := Trim(name);
    var k := FindFirst(l.reservations, ManagedGroupMember(l.tokens, x));
    if k < |l.reservations| && GroupOf(l.reservations[k]) != "" {
      var rs := MapSlice(l.reservations, RevokeGroup(GroupOf(l.reservations[k])));
      return if rs == l.reservations then Kept else Saved(l.(reservations := rs));
    }
    var next, hit := RevokeRecords(l, x, hashOfX, now);
    return if hit then Saved(next) else Rejected;
  }
}
