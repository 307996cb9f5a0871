/** The records the daemon persists. Times are integers, with 0 for Go's zero time; token modes
    are in their normalized form. */
module Model {

  datatype TokenMode = Reserved | Claimed | Managed | OtherMode

  datatype ScopeMode = Bare | Docker | K8s | User | OtherScope

  datatype Token = Token(
    id: string, hash: string, secret: string, name: string, mode: TokenMode,
    version: int, managed: bool, expiresAt: int, revoked: bool)

  datatype Reservation = Reservation(
    id: string, groupID: string, sessionID: string, gpu: int, tokenHash: string, holder: string,
    purpose: string, createdAt: int, startsAt: int, expiresAt: int, active: bool, revoked: bool)

  datatype Authorization = Authorization(
    id: string, mode: ScopeMode, tokenHash: string, tokenMode: TokenMode, tokenVersion: int,
    holder: string, uid: int, username: string, rootPID: int, cgroupPath: string, cgroupRel: string,
    containerID: string, containerPattern: string, namespace: string,
    expiresAt: int, active: bool, revoked: bool)

  datatype SoftClaim = SoftClaim(id: string, gpu: int, tokenHash: string, authorizationID: string, holder: string)

  datatype Lease = Lease(
    id: string, gpu: int, mode: ScopeMode, tokenHash: string, holder: string, rootPID: int,
    cgroupPath: string, cgroupRel: string, containerID: string, namespace: string,
    expiresAt: int, active: bool)

  datatype BypassKind = ByPID | ByCommand | OtherBypass

  datatype Bypass = Bypass(
    id: string, kind: BypassKind, pid: int, startTime: int, bootID: string, command: string, uid: int,
    expiresAt: int, revoked: bool)

  datatype Ledger = Ledger(
    managedKeys: bool, snapshotID: string,
    tokens: seq<Token>, reservations: seq<Reservation>, authorizations: seq<Authorization>,
    claims: seq<SoftClaim>, leases: seq<Lease>, bypasses: seq<Bypass>)

  const EMPTY := Ledger(false, "", [], [], [], [], [], [])

  function StartsAt(r: Reservation): int {
    if r.startsAt != 0 then r.startsAt else r.createdAt
  }

  /** The reservation occupies its GPU at instant `now`. */
  predicate ActiveAt(r: Reservation, now: int) {
    r.active && !r.revoked && StartsAt(r) <= now < r.expiresAt
  }

  /** The reservation is standing and its window meets the window [startsAt, expiresAt). */
  predicate Overlaps(r: Reservation, startsAt: int, expiresAt: int) {
    r.active && !r.revoked && StartsAt(r) < expiresAt && startsAt < r.expiresAt
  }

  /** The overlap test is about instants: it holds of two proper windows exactly when some
      instant lies in both. */
  lemma OverlapsMeansSharedInstant(r: Reservation, startsAt: int, expiresAt: int)
    requires StartsAt(r) < r.expiresAt && startsAt < expiresAt
    ensures Overlaps(r, startsAt, expiresAt) <==> exists t :: ActiveAt(r, t) && startsAt <= t < expiresAt
  {
    if Overlaps(r, startsAt, expiresAt) {
      var t := if StartsAt(r) > startsAt then StartsAt(r) else startsAt;
      assert ActiveAt(r, t);
    }
  }

  /** Expiry, for records whose zero expiry means "never". */
  predicate Expired(expiresAt: int, now: int) {
    expiresAt != 0 && now >= expiresAt
  }

  predicate TokenUsable(t: Token, now: int) {
    !t.revoked && !Expired(t.expiresAt, now)
  }

  predicate AuthorizationUsable(a: Authorization, now: int) {
    a.active && !a.revoked && !Expired(a.expiresAt, now)
  }
}
