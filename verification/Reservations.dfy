/** Exclusivity: whatever sequence of operations and failed saves led there, no GPU is promised
    to two standing reservations at the same instant. */
module Reservations {
  import opened Text
  import opened Seqs
  import opened Model
  import opened Operations

  predicate Standing(r: Reservation) {
    r.active && !r.revoked
  }

  /** Not both standing on one GPU with meeting windows. */
  function Apart(): (Reservation, Reservation) -> bool {
    (a: Reservation, b: Reservation) =>
      !(a.gpu == b.gpu && Standing(a) && Standing(b) && StartsAt(a) < b.expiresAt && StartsAt(b) < a.expiresAt)
  }

  ghost predicate Exclusive(l: Ledger) {
    Pairwise(l.reservations, Apart())
  }

  /** `b` is `a` after operations that may withdraw it or re-key it: the promise itself is unchanged. */
  predicate KeepsPromise(a: Reservation, b: Reservation) {
    b.gpu == a.gpu && StartsAt(b) == StartsAt(a) && b.expiresAt == a.expiresAt && (Standing(b) ==> Standing(a))
  }

  lemma PointwiseKeeps(rs: seq<Reservation>, ss: seq<Reservation>)
    requires Pairwise(rs, Apart())
    requires |ss| == |rs| && forall i :: 0 <= i < |rs| ==> KeepsPromise(rs[i], ss[i])
    ensures Pairwise(ss, Apart())
  {
    forall i, j | 0 <= i < j < |ss| ensures Apart()(ss[i], ss[j]) {
      assert KeepsPromise(rs[i], ss[i]) && KeepsPromise(rs[j], ss[j]);
      assert Apart()(rs[i], rs[j]);
    }
  }

  // ---------- Installing a key snapshot ----------

  function Tellable(): (Token, Token) -> bool {
    (a: Token, b: Token) => Distinguishable(a, b)
  }

  lemma {:induction false} OneMoreKey(ts: seq<Token>, t: Token)
    requires Pairwise(ts, Tellable()) && NewIn(ts, t)
    ensures Pairwise(ts + [t], Tellable())
  {
    var us := ts + [t];
    forall i, j | 0 <= i < j < |us| ensures Tellable()(us[i], us[j]) {
      if j < |ts| {
        assert Tellable()(ts[i], ts[j]);
      } else {
        assert Distinguishable(ts[i], t);
      }
    }
  }

  lemma {:induction false} SnapshotStep(keys: seq<Key>)
    requires keys != [] && SnapshotTokens(keys).Some?
    ensures var n := |keys| - 1;
            && SnapshotTokens(keys[..n]).Some? && KeyWellFormed(keys[n]) && NewIn(SnapshotTokens(keys[..n]).value, KeyToken(keys[n]))
            && SnapshotTokens(keys).value == SnapshotTokens(keys[..n]).value + [KeyToken(keys[n])]
  {
  }

  lemma {:induction false} SnapshotSize(keys: seq<Key>)
    requires SnapshotTokens(keys).Some?
    ensures |SnapshotTokens(keys).value| == |keys|
  {
    if keys != [] {
      SnapshotStep(keys);
      SnapshotSize(keys[..|keys| - 1]);
    }
  }

  lemma {:induction false} SnapshotAt(keys: seq<Key>, i: nat)
    requires SnapshotTokens(keys).Some? && i < |keys|
    ensures |SnapshotTokens(keys).value| == |keys| && SnapshotTokens(keys).value[i] == KeyToken(keys[i]) && KeyWellFormed(keys[i])
  {
    var n := |keys| - 1;
    SnapshotStep(keys);
    SnapshotSize(keys);
    SnapshotSize(keys[..n]);
    if i < n {
      SnapshotAt(keys[..n], i);
    }
  }

  lemma {:induction false} SnapshotTellable(keys: seq<Key>)
    requires SnapshotTokens(keys).Some?
    ensures Pairwise(SnapshotTokens(keys).value, Tellable())
  {
    if keys != [] {
      var n := |keys| - 1;
      SnapshotStep(keys);
      SnapshotTellable(keys[..n]);
      OneMoreKey(SnapshotTokens(keys[..n]).value, KeyToken(keys[n]));
    }
  }

  lemma {:induction false} SnapshotIsDistinct(keys: seq<Key>)
    requires SnapshotTokens(keys).Some?
    ensures |SnapshotTokens(keys).value| == |keys|
    ensures forall i :: 0 <= i < |keys| ==> KeyWellFormed(keys[i]) && SnapshotTokens(keys).value[i] == KeyToken(keys[i])
    ensures Pairwise(SnapshotTokens(keys).value, Tellable())
  {
    SnapshotSize(keys);
    SnapshotTellable(keys);
    forall i | 0 <= i < |keys| ensures KeyWellFormed(keys[i]) && SnapshotTokens(keys).value[i] == KeyToken(keys[i]) {
      SnapshotAt(keys, i);
    }
  }

  predicate SameBooking(a: Reservation, b: Reservation) {
    && b == a.(groupID := b.groupID, tokenHash := b.tokenHash)
    && (a.groupID != "" ==> b.groupID == a.groupID)
  }

  /** The owner's new hash if the owner is in the snapshot, otherwise the hash it had. */
  predicate CarriesOwnersHash(ts: seq<Token>, a: Reservation, b: Reservation) {
    && (forall j :: 0 <= j < |ts| && ts[j].name == NormalizeHolder(a.holder) ==> b.tokenHash == ts[j].hash)
    && ((forall j :: 0 <= j < |ts| ==> ts[j].name != NormalizeHolder(a.holder)) ==> b.tokenHash == a.tokenHash)
  }

  lemma RekeyedBooking(r: Reservation, was: seq<Token>, ts: seq<Token>, group: string)
    requires Pairwise(ts, Tellable())
    ensures SameBooking(r, Rekeyed(r, was, ts, group)) && CarriesOwnersHash(ts, r, Rekeyed(r, was, ts, group))
  {
    var k := Find(ts, OwnedBy(NormalizeHolder(r.holder)));
    forall j | 0 <= j < |ts| && ts[j].name == NormalizeHolder(r.holder) ensures j == k {
      assert OwnedBy(NormalizeHolder(r.holder))(ts[j]);
    }
  }

  /** Installing a snapshot replaces the tokens by pairwise distinguishable ones and touches
      nothing of any reservation but its key and its group. */
  lemma SnapshotInstalled(l: Ledger, snapshot: string, keys: seq<Key>, freshGroup: nat -> string)
    requires SyncKeys(l, snapshot, keys, freshGroup).Saved?
    ensures var n := SyncKeys(l, snapshot, keys, freshGroup).ledger;
            && Pairwise(n.tokens, Tellable()) && |n.tokens| == |keys|
            && (forall i :: 0 <= i < |keys| ==> n.tokens[i] == KeyToken(keys[i]))
            && |n.reservations| == |l.reservations|
            && (forall i :: 0 <= i < |l.reservations| ==> SameBooking(l.reservations[i], n.reservations[i]))
            && (forall i :: 0 <= i < |l.reservations| ==> CarriesOwnersHash(n.tokens, l.reservations[i], n.reservations[i]))
            && n.authorizations == l.authorizations && n.claims == l.claims && n.leases == l.leases && n.bypasses == l.bypasses
  {
    SnapshotIsDistinct(keys);
    var n := SyncKeys(l, snapshot, keys, freshGroup).ledger;
    forall i | 0 <= i < |l.reservations|
      ensures SameBooking(l.reservations[i], n.reservations[i])
      ensures CarriesOwnersHash(n.tokens, l.reservations[i], n.reservations[i])
    {
      RekeyedBooking(l.reservations[i], l.tokens, n.tokens, freshGroup(i));
    }
  }

  // ---------- Exclusivity over runs ----------

  lemma NewWindow(req: Request, m: Member, hash: string, holder: string, group: string)
    ensures StartsAt(NewReservation(req, m, hash, holder, group)) == EffectiveStart(req)
  {
  }

  /** An accepted request clashes neither with the ledger nor with itself. */
  lemma RequestIsApart(rs: seq<Reservation>, req: Request, hash: string, holder: string, group: string)
    requires Pairwise(rs, Apart())
    requires DistinctGPUs(req.members) && !Conflict(rs, req)
    ensures Pairwise(rs + NewReservations(req, hash, holder, group), Apart())
  {
    var ns := NewReservations(req, hash, holder, group);
    forall i, j | 0 <= i < j < |ns| ensures Apart()(ns[i], ns[j]) {
      assert req.members[i].gpu != req.members[j].gpu;
    }
    forall x, y | x in rs && y in ns ensures Apart()(x, y) {
      var i :| 0 <= i < |rs| && rs[i] == x;
      var j :| 0 <= j < |ns| && ns[j] == y;
      assert !Blocks(rs[i], req.members[j], req);
      NewWindow(req, req.members[j], hash, holder, group);
    }
    AppendPairwise(rs, ns, Apart());
  }

  lemma RegisteringKeeps(l: Ledger, op: Op)
    requires Exclusive(l) && Apply(l, op).Saved? && (op.RegisterOp? || op.RegisterManagedOp?)
    ensures Exclusive(Apply(l, op).ledger)
  {
    match op
    case RegisterOp(c, req) =>
      var t := NewToken(c, Reserved, req.name, req.expiresAt);
      RequestIsApart(l.reservations, req, t.hash, t.name, "");
    case RegisterManagedOp(keyID, groupID, req) =>
      var t := l.tokens[Find(l.tokens, ManagedKey(Trim(keyID)))];
      RequestIsApart(l.reservations, req, t.hash, t.name, groupID);
  }

  lemma {:induction false} RevokedKeeps(l: Ledger, n: Ledger, how: Revocation)
    requires Exclusive(l) && RevokedTo(l, n, how)
    ensures Exclusive(n)
  {
    match how
    case Group(g) => PointwiseKeeps(l.reservations, Map(l.reservations, RevokeGroup(g)));
    case Marking(x, _, h, _) => PointwiseKeeps(l.reservations, Map(l.reservations, RevokeReservation(x, h)));
  }

  lemma {:induction false} RevokingKeeps(l: Ledger, name: string, hashOfX: string, now: int)
    requires Exclusive(l) && Revoke(l, name, hashOfX, now).Saved?
    ensures Exclusive(Revoke(l, name, hashOfX, now).ledger)
  {
    var how := RevokeShape(l, name, hashOfX, now);
    RevokedKeeps(l, Revoke(l, name, hashOfX, now).ledger, how);
  }

  lemma RekeyingKeeps(l: Ledger, op: Op)
    requires Exclusive(l) && Apply(l, op).Saved? && op.SyncKeysOp?
    ensures Exclusive(Apply(l, op).ledger)
  {
    SnapshotInstalled(l, op.snapshot, op.keys, op.freshGroup);
    var n := Apply(l, op).ledger;
    forall i | 0 <= i < |l.reservations| ensures KeepsPromise(l.reservations[i], n.reservations[i]) {
      assert SameBooking(l.reservations[i], n.reservations[i]);
    }
    PointwiseKeeps(l.reservations, n.reservations);
  }

  lemma ReleasingKeeps(l: Ledger, op: Op)
    requires Exclusive(l) && Apply(l, op).Saved? && op.ReleaseReservationOp?
    ensures Exclusive(Apply(l, op).ledger)
  {
    PointwiseKeeps(l.reservations, Apply(l, op).ledger.reservations);
  }

  lemma PruningKeeps(l: Ledger, op: Op)
    requires Exclusive(l) && Apply(l, op).Saved? && (op.PruneOp? || op.PruneUnreferencedOp?)
    ensures Exclusive(Apply(l, op).ledger)
  {
    match op
    case PruneOp(now) => FilterPairwise(l.reservations, KeepReservation(l, now), Apart());
    case PruneUnreferencedOp(now) => FilterPairwise(l.reservations, KeepEntitlement(l, now), Apart());
  }

  lemma StepKeeps(l: Ledger, op: Op, save: SaveEnd)
    requires Exclusive(l)
    ensures Exclusive(After(l, op, save))
  {
    if Apply(l, op).Saved? && !TouchesReservations(op) {
      ReservationsStay(l, op);
    } else if Apply(l, op).Saved? {
      match op
      case RegisterOp(_, _) => RegisteringKeeps(l, op);
      case RegisterManagedOp(_, _, _) => RegisteringKeeps(l, op);
      case RevokeOp(name, hashOfX, now) => RevokingKeeps(l, name, hashOfX, now);
      case ReleaseReservationOp(_) => ReleasingKeeps(l, op);
      case SyncKeysOp(_, _, _) => RekeyingKeeps(l, op);
      case PruneOp(_) => PruningKeeps(l, op);
      case PruneUnreferencedOp(_) => PruningKeeps(l, op);
    }
  }

  lemma {:induction false} RunKeeps(l: Ledger, events: seq<Event>)
    requires Exclusive(l)
    ensures Exclusive(Run(l, events))
  {
    if events != [] {
      var n := |events| - 1;
      RunKeeps(l, events[..n]);
      StepKeeps(Run(l, events[..n]), events[n].op, events[n].save);
    }
  }

  lemma AtMostOneActive(l: Ledger, i: nat, j: nat, now: int)
    requires Exclusive(l) && i < |l.reservations| && j < |l.reservations|
    requires l.reservations[i].gpu == l.reservations[j].gpu
    requires ActiveAt(l.reservations[i], now) && ActiveAt(l.reservations[j], now)
    ensures i == j
  {
  }

  /** In every reachable ledger, two reservations that occupy one GPU at one instant are the same one. */
  lemma NoDoubleBooking(events: seq<Event>, i: nat, j: nat, now: int)
    requires i < |Run(EMPTY, events).reservations| && j < |Run(EMPTY, events).reservations|
    requires Run(EMPTY, events).reservations[i].gpu == Run(EMPTY, events).reservations[j].gpu
    requires ActiveAt(Run(EMPTY, events).reservations[i], now) && ActiveAt(Run(EMPTY, events).reservations[j], now)
    ensures i == j
  {
    RunKeeps(EMPTY, events);
    AtMostOneActive(Run(EMPTY, events), i, j, now);
  }
}
