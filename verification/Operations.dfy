/** The reservation and credential ledger as a state machine: one function per store operation,
    giving the ledger it would save, and what every sequence of operations keeps true. */
module Operations {
  import opened Options
  import opened Text
  import opened Seqs
  import opened Model

  const HOUR := 3_600_000_000_000
  const MAX_HARD_TTL := 30 * 24 * HOUR
  const MAX_ACTIVE_TOKENS_PER_HOLDER := 8
  const MAX_TOKENS := 4096
  const MAX_RESERVATIONS := 4096
  const MAX_AUTHORIZATIONS := 4096
  const MAX_CLAIMS := 4096
  const MAX_LEASES := 4096
  const MAX_BYPASSES := 1024
  const MAX_ACTIVE_AUTHORIZATIONS := 64
  const MAX_GPU := 1023

  /** Rejected: an error before anything is saved. Kept: success with nothing to save. */
  datatype Result = Rejected | Kept | Saved(ledger: Ledger)

  // ---------- Registration ----------

  /** One reservation to be made: its GPU and its generated id. */
  datatype Member = Member(gpu: int, id: string)

  datatype Request = Request(
    name: string, purpose: string, session: string, members: seq<Member>, startsAt: int, expiresAt: int, now: int)

  /** The generated parts of a new token. */
  datatype Credential = Credential(id: string, hash: string, secret: string)

  function NewToken(c: Credential, mode: TokenMode, name: string, expiresAt: int): Token {
    var n := Trim(name);
    Token(c.id, c.hash, c.secret, if n == "" then "anonymous" else n, mode, 0, false, expiresAt, false)
  }

  function EffectiveStart(req: Request): int {
    if req.startsAt == 0 then req.now else req.startsAt
  }

  predicate ProperWindow(req: Request) {
    && req.expiresAt > EffectiveStart(req) && req.expiresAt > req.now
    && req.expiresAt - EffectiveStart(req) <= MAX_HARD_TTL
  }

  predicate DistinctGPUs(members: seq<Member>) {
    forall i, j :: 0 <= i < j < |members| ==> members[i].gpu != members[j].gpu
  }

  function NewReservation(req: Request, m: Member, tokenHash: string, holder: string, groupID: string): Reservation {
    Reservation(m.id, groupID, Trim(req.session), m.gpu, tokenHash, holder, Trim(req.purpose),
                req.now, EffectiveStart(req), req.expiresAt, true, false)
  }

  function NewReservations(req: Request, tokenHash: string, holder: string, groupID: string): (r: seq<Reservation>)
    ensures |r| == |req.members|
  {
    seq(|req.members|, i requires 0 <= i < |req.members| => NewReservation(req, req.members[i], tokenHash, holder, groupID))
  }

  /** Some requested GPU already has a standing reservation whose window meets the request's. */
  predicate Conflict(rs: seq<Reservation>, req: Request) {
    exists i, j :: 0 <= i < |rs| && 0 <= j < |req.members| && Blocks(rs[i], req.members[j], req)
  }

  predicate Blocks(r: Reservation, m: Member, req: Request) {
    r.gpu == m.gpu && Overlaps(r, EffectiveStart(req), req.expiresAt)
  }

  function OfSession(session: string): Reservation -> bool {
    (r: Reservation) => r.sessionID == session
  }

  function HashIs(hash: string): Token -> bool {
    (t: Token) => t.hash == hash
  }

  function UsableBy(holder: string, now: int): Token -> bool {
    (t: Token) => TokenUsable(t, now) && NormalizeHolder(t.name) == holder
  }

  predicate TokenRoom(l: Ledger, t: Token, now: int) {
    && |l.tokens| + 1 <= MAX_TOKENS
    && (TokenUsable(t, now) ==> |Filter(l.tokens, UsableBy(NormalizeHolder(t.name), now))| < MAX_ACTIVE_TOKENS_PER_HOLDER)
  }

  /** The same request again: same GPUs, holder, purpose and window. */
  predicate SameRequest(existing: seq<Reservation>, name: string, req: Request) {
    && |existing| == |req.members| && existing != []
    && forall i :: 0 <= i < |existing| ==> MatchesRequest(existing[i], name, req)
  }

  predicate MatchesRequest(r: Reservation, name: string, req: Request) {
    && (exists j :: 0 <= j < |req.members| && req.members[j].gpu == r.gpu)
    && Lower(Trim(r.holder)) == Lower(Trim(name)) && Trim(r.purpose) == Trim(req.purpose)
    && StartsAt(r) == EffectiveStart(req) && r.expiresAt == req.expiresAt
  }

  function RegisterSoft(l: Ledger, c: Credential, name: string, now: int): Result {
    var t := NewToken(c, Claimed, name, 0);
    if !TokenRoom(l, t, now) then Rejected else Saved(l.(tokens := l.tokens + [t]))
  }

  /** A session id that was used before is answered from the ledger, never registered twice. */
  function ReplayReserved(l: Ledger, existing: seq<Reservation>, req: Request): Result
    requires existing != []
  {
    var k := Find(l.tokens, HashIs(existing[0].tokenHash));
    if k == |l.tokens| || l.tokens[k].id == "" || l.tokens[k].secret == "" then Rejected
    else if SameRequest(existing, req.name, req) then Kept else Rejected
  }

  function Register(l: Ledger, c: Credential, req: Request): Result {
    if !ProperWindow(req) || req.members == [] || |req.members| > MAX_RESERVATIONS then Rejected
    else if (exists i :: 0 <= i < |req.members| && req.members[i].gpu < 0) || !DistinctGPUs(req.members) then Rejected
    else
      var t := NewToken(c, Reserved, req.name, req.expiresAt);
      var existing := Filter(l.reservations, OfSession(Trim(req.session)));
      if Trim(req.session) != "" && existing != [] then ReplayReserved(l, existing, req)
      else if !TokenRoom(l, t, req.now) || |l.reservations| + |req.members| > MAX_RESERVATIONS then Rejected
      else if Conflict(l.reservations, req) then Rejected
      else Saved(l.(tokens := l.tokens + [t], reservations := l.reservations + NewReservations(req, t.hash, t.name, "")))
  }

  function ManagedKey(id: string): Token -> bool {
    (t: Token) => t.id == id && t.managed && !t.revoked
  }

  function RegisterManaged(l: Ledger, keyID: string, groupID: string, req: Request): Result {
    if !ProperWindow(req) || req.members == [] then Rejected
    else if (exists i :: 0 <= i < |req.members| && !(0 <= req.members[i].gpu <= MAX_GPU)) || !DistinctGPUs(req.members) then Rejected
    else if !l.managedKeys then Rejected
    else
      var k := Find(l.tokens, ManagedKey(Trim(keyID)));
      if k == |l.tokens| || l.tokens[k].id == "" then Rejected
      else
        var t := l.tokens[k];
        var existing := Filter(l.reservations, OfSession(Trim(req.session)));
        if Trim(req.session) != "" && existing != [] then
          if existing[0].tokenHash == t.hash && SameRequest(existing, t.name, req) then Kept else Rejected
        else if |l.reservations| + |req.members| > MAX_RESERVATIONS then Rejected
        else if Conflict(l.reservations, req) then Rejected
        else Saved(l.(reservations := l.reservations + NewReservations(req, t.hash, t.name, groupID)))
  }

  // ---------- Managed keys ----------

  datatype Key = Key(id: string, owner: string, hash: string, version: int)

  predicate IsHex(s: string) {
    forall i :: 0 <= i < |s| ==> '0' <= s[i] <= '9' || 'a' <= s[i] <= 'f'
  }

  function KeyToken(k: Key): Token {
    Token(Trim(k.id), Lower(Trim(k.hash)), "", NormalizeHolder(k.owner), Managed, k.version, true, 0, false)
  }

  predicate KeyWellFormed(k: Key) {
    var t := KeyToken(k);
    t.id != "" && t.name != "" && t.version >= 1 && |t.hash| == 64 && IsHex(t.hash)
  }

  /** No two managed tokens share an id, a hash or an owner. */
  predicate Distinguishable(a: Token, b: Token) {
    a.id != b.id && a.hash != b.hash && a.name != b.name
  }

  predicate NewIn(ts: seq<Token>, t: Token) {
    forall i :: 0 <= i < |ts| ==> Distinguishable(ts[i], t)
  }

  /** The tokens of a snapshot, or nothing if a key is malformed or repeats another. */
  function SnapshotTokens(keys: seq<Key>): Option<seq<Token>> {
    if keys == [] then Some([])
    else
      var n := |keys| - 1;
      match SnapshotTokens(keys[..n])
      case None => None
      case Some(ts) =>
        if KeyWellFormed(keys[n]) && NewIn(ts, KeyToken(keys[n])) then Some(ts + [KeyToken(keys[n])]) else None
  }

  function OwnedBy(owner: string): Token -> bool {
    (t: Token) => t.name == owner
  }

  /** The id of the (last) token with a hash, as a Go map built in order gives it. */
  function LastTokenID(ts: seq<Token>, hash: string): string {
    if ts == [] then ""
    else if ts[|ts| - 1].hash == hash then ts[|ts| - 1].id
    else LastTokenID(ts[..|ts| - 1], hash)
  }

  /** A reservation under a new snapshot: it gets a group if it had none, and its owner's new hash
      if the owner has a key. Nothing else changes. */
  function Rekeyed(r: Reservation, oldTokens: seq<Token>, newTokens: seq<Token>, freshGroup: string): Reservation {
    var old' := LastTokenID(oldTokens, r.tokenHash);
    var group := if r.groupID != "" then r.groupID else if old' != "" then old' else freshGroup;
    var k := Find(newTokens, OwnedBy(NormalizeHolder(r.holder)));
    r.(groupID := group, tokenHash := if k < |newTokens| then newTokens[k].hash else r.tokenHash)
  }

  function SyncKeys(l: Ledger, snapshot: string, keys: seq<Key>, freshGroup: nat -> string): Result {
    var id := Trim(snapshot);
    if id == "" || |keys| > MAX_TOKENS then Rejected
    else match SnapshotTokens(keys)
         case None => Rejected
         case Some(ts) =>
           if l.managedKeys && l.snapshotID == id then Kept
           else
             var rs := seq(|l.reservations|, i requires 0 <= i < |l.reservations| =>
                             Rekeyed(l.reservations[i], l.tokens, ts, freshGroup(i)));
             Saved(l.(tokens := ts, reservations := rs, managedKeys := true, snapshotID := id))
  }

  // ---------- Authorizations, claims, bypasses ----------

  function AuthIs(id: string): Authorization -> bool {
    (a: Authorization) => a.id == id
  }

  function UsableOfToken(hash: string, now: int): Authorization -> bool {
    (a: Authorization) => a.tokenHash == hash && AuthorizationUsable(a, now)
  }

  function AddAuthorization(l: Ledger, a: Authorization, now: int): Result {
    if |l.authorizations| + 1 > MAX_AUTHORIZATIONS then Rejected
    else if AuthorizationUsable(a, now) &&
            |Filter(l.authorizations, UsableOfToken(a.tokenHash, now))| >= MAX_ACTIVE_AUTHORIZATIONS then Rejected
    else Saved(l.(authorizations := l.authorizations + [a]))
  }

  /** Records the process of a prepared command, on the stored row and only once. */
  function Activate(l: Ledger, id: string, pid: int): Result {
    var k := Find(l.authorizations, AuthIs(id));
    if pid <= 0 || k == |l.authorizations| then Rejected
    else
      var a := l.authorizations[k];
      if !a.active || a.revoked || a.rootPID != 0 then Rejected
      else Saved(l.(authorizations := l.authorizations[k := a.(rootPID := pid)]))
  }

  function ReleaseAuthorization(l: Ledger, id: string): Result {
    var k := Find(l.authorizations, AuthIs(id));
    if k == |l.authorizations| then Kept
    else Saved(l.(authorizations := l.authorizations[k := l.authorizations[k].(active := false)]))
  }

  function ReservationIs(id: string): Reservation -> bool {
    (r: Reservation) => r.id == id
  }

  function ReleaseReservation(l: Ledger, id: string): Result {
    var k := Find(l.reservations, ReservationIs(id));
    if k == |l.reservations| then Kept
    else Saved(l.(reservations := l.reservations[k := l.reservations[k].(active := false)]))
  }

  function LeaseIs(id: string): Lease -> bool {
    (x: Lease) => x.id == id
  }

  function ReleaseLease(l: Ledger, id: string): Result {
    var k := Find(l.leases, LeaseIs(id));
    if k == |l.leases| then Kept
    else Saved(l.(leases := l.leases[k := l.leases[k].(active := false)]))
  }

  function SameClaim(gpu: int, hash: string): SoftClaim -> bool {
    (c: SoftClaim) => c.gpu == gpu && c.tokenHash == hash
  }

  function UpsertClaim(l: Ledger, claim: SoftClaim, freshID: string): Result {
    var c := if claim.id == "" then claim.(id := freshID) else claim;
    var k := Find(l.claims, SameClaim(c.gpu, c.tokenHash));
    Saved(l.(claims := if k < |l.claims| then l.claims[k := c.(id := l.claims[k].id)] else l.claims + [c]))
  }

  function OtherClaim(id: string): SoftClaim -> bool {
    (c: SoftClaim) => c.id != id
  }

  function ReleaseClaim(l: Ledger, id: string): Result {
    var kept := Filter(l.claims, OtherClaim(id));
    if |kept| == |l.claims| then Kept else Saved(l.(claims := kept))
  }

  function AddBypass(l: Ledger, b: Bypass): Result {
    if |l.bypasses| + 1 > MAX_BYPASSES then Rejected else Saved(l.(bypasses := l.bypasses + [b]))
  }

  // ---------- Revocation ----------

  function GroupOf(r: Reservation): string {
    if r.groupID == "" then r.id else r.groupID
  }

  predicate ManagedHash(ts: seq<Token>, hash: string) {
    exists i :: 0 <= i < |ts| && ts[i].managed && ts[i].hash == hash
  }

  function ManagedGroupMember(ts: seq<Token>, x: string): Reservation -> bool {
    (r: Reservation) => ManagedHash(ts, r.tokenHash) && (r.id == x || GroupOf(r) == x)
  }

  function RevokeGroup(g: string): Reservation -> Reservation {
    (r: Reservation) => if GroupOf(r) == g && !r.revoked then r.(revoked := true) else r
  }

  function TokenNamed(x: string, hash: string): Token -> bool {
    (t: Token) => t.id == x || (hash != "" && t.hash == hash)
  }

  /** Revoking tokens in order; a match fixes the hash that later records are matched by. */
  function RevokeTokens(ts: seq<Token>, x: string, hash: string): (r: (seq<Token>, string, bool))
    ensures |r.0| == |ts|
  {
    if ts == [] then ([], hash, false)
    else
      var n := |ts| - 1;
      var (done, h, changed) := RevokeTokens(ts[..n], x, hash);
      if ts[n].id == x || (h != "" && ts[n].hash == h) then (done + [ts[n].(revoked := true)], ts[n].hash, true)
      else (done + [ts[n]], h, changed)
  }

  predicate Named(id: string, hash: string, x: string, h: string) {
    id == x || (h != "" && hash == h)
  }

  function RevokeReservation(x: string, h: string): Reservation -> Reservation {
    (r: Reservation) => if Named(r.id, r.tokenHash, x, h) then r.(revoked := true) else r
  }

  function RevokeAuthorization(x: string, h: string): Authorization -> Authorization {
    (a: Authorization) => if Named(a.id, a.tokenHash, x, h) then a.(revoked := true) else a
  }

  function RevokeLease(x: string, h: string, now: int): Lease -> Lease {
    (e: Lease) => if Named(e.id, e.tokenHash, x, h) then e.(expiresAt := now) else e
  }

  function RevokeBypass(x: string): Bypass -> Bypass {
    (b: Bypass) => if b.id == x then b.(revoked := true) else b
  }

  predicate AnyNamed(l: Ledger, x: string, h: string) {
    || (exists i :: 0 <= i < |l.reservations| && Named(l.reservations[i].id, l.reservations[i].tokenHash, x, h))
    || (exists i :: 0 <= i < |l.authorizations| && Named(l.authorizations[i].id, l.authorizations[i].tokenHash, x, h))
    || (exists i :: 0 <= i < |l.leases| && Named(l.leases[i].id, l.leases[i].tokenHash, x, h))
    || (exists i :: 0 <= i < |l.bypasses| && l.bypasses[i].id == x)
  }

  /** The hash a revocation works with before it touches the tokens. */
  function RevokeHash(l: Ledger, x: string, hashOfX: string): string {
    var h0 := if HasPrefix(x, "gk_") then hashOfX else "";
    var k := Find(l.tokens, TokenNamed(x, h0));
    var h1 := if k < |l.tokens| then l.tokens[k].hash else h0;
    var j := Find(l.reservations, ReservationIs(x));
    if h1 == "" && j < |l.reservations| then l.reservations[j].tokenHash else h1
  }

  function RevokeOther(l: Ledger, x: string, hashOfX: string, now: int): Result {
    var (ts, h, tokenHit) := RevokeTokens(l.tokens, x, RevokeHash(l, x, hashOfX));
    var hit := tokenHit || AnyNamed(l, x, h);
    var claims := if h != "" || hit then Filter(l.claims, OtherClaim(x)) else l.claims;
    if !hit && |claims| == |l.claims| then Rejected
    else Saved(l.(tokens := ts, reservations := Map(l.reservations, RevokeReservation(x, h)),
                  authorizations := Map(l.authorizations, RevokeAuthorization(x, h)),
                  leases := Map(l.leases, RevokeLease(x, h, now)), bypasses := Map(l.bypasses, RevokeBypass(x)),
                  claims := claims))
  }

  /** Revokes by id or by secret. Naming a reservation of a managed key revokes its group only. */
  function Revoke(l: Ledger, name: string, hashOfX: string, now: int): Result {
    var x := Trim(name);
    var k := Find(l.reservations, ManagedGroupMember(l.tokens, x));
    if k < |l.reservations| && GroupOf(l.reservations[k]) != "" then
      var rs := Map(l.reservations, RevokeGroup(GroupOf(l.reservations[k])));
      if rs == l.reservations then Kept else Saved(l.(reservations := rs))
    else
      RevokeOther(l, x, hashOfX, now)
  }

  /** How a revocation came about: it withdrew one group of a managed key, or it marked every
      record that the id or the final hash names. */
  datatype Revocation = Group(group: string) | Marking(id: string, first: string, hash: string, now: int)

  /** `n` is `l` after that revocation. */
  ghost predicate RevokedTo(l: Ledger, n: Ledger, how: Revocation) {
    match how
    case Group(g) =>
      && n == l.(reservations := Map(l.reservations, RevokeGroup(g)))
      && exists i :: 0 <= i < |l.reservations| && ManagedHash(l.tokens, l.reservations[i].tokenHash)
    case Marking(x, first, h, now) =>
      && (n.tokens, h) == (RevokeTokens(l.tokens, x, first).0, RevokeTokens(l.tokens, x, first).1)
      && n.reservations == Map(l.reservations, RevokeReservation(x, h))
      && n.authorizations == Map(l.authorizations, RevokeAuthorization(x, h))
      && n.leases == Map(l.leases, RevokeLease(x, h, now)) && n.bypasses == Map(l.bypasses, RevokeBypass(x))
      && n.managedKeys == l.managedKeys && n.snapshotID == l.snapshotID
      && (n.claims == l.claims || n.claims == Filter(l.claims, OtherClaim(x)))
  }

  lemma {:induction false} RevokeShape(l: Ledger, name: string, hashOfX: string, now: int) returns (how: Revocation)
    requires Revoke(l, name, hashOfX, now).Saved?
    ensures RevokedTo(l, Revoke(l, name, hashOfX, now).ledger, how)
    ensures how.Marking? ==> how.id == Trim(name) && how.first == RevokeHash(l, how.id, hashOfX)
  {
    var x := Trim(name);
    var k := Find(l.reservations, ManagedGroupMember(l.tokens, x));
    if k < |l.reservations| && GroupOf(l.reservations[k]) != "" {
      assert ManagedHash(l.tokens, l.reservations[k].tokenHash);
      how := Group(GroupOf(l.reservations[k]));
    } else {
      var first := RevokeHash(l, x, hashOfX);
      how := Marking(x, first, RevokeTokens(l.tokens, x, first).1, now);
    }
  }

  // ---------- Pruning ----------

  predicate LiveHash(rs: seq<Reservation>, hash: string, now: int) {
    exists i :: 0 <= i < |rs| && rs[i].active && !rs[i].revoked && now < rs[i].expiresAt && rs[i].tokenHash == hash && hash != ""
  }

  predicate TokenGone(t: Token, rs: seq<Reservation>, now: int) {
    t.revoked || Expired(t.expiresAt, now) || (t.mode == Reserved && !LiveHash(rs, t.hash, now))
  }

  predicate HashGone(ts: seq<Token>, rs: seq<Reservation>, hash: string, now: int) {
    hash != "" && exists i :: 0 <= i < |ts| && ts[i].hash == hash && TokenGone(ts[i], rs, now)
  }

  function KeepToken(l: Ledger, now: int): Token -> bool {
    (t: Token) => !TokenGone(t, l.reservations, now)
  }

  function KeepReservation(l: Ledger, now: int): Reservation -> bool {
    (r: Reservation) => !r.revoked && r.active && now < r.expiresAt && !HashGone(l.tokens, l.reservations, r.tokenHash, now)
  }

  function KeepAuthorization(l: Ledger, now: int): Authorization -> bool {
    (a: Authorization) => AuthorizationUsable(a, now) && !HashGone(l.tokens, l.reservations, a.tokenHash, now)
  }

  function KeepLease(l: Ledger, now: int): Lease -> bool {
    (e: Lease) => e.active && now < e.expiresAt && !HashGone(l.tokens, l.reservations, e.tokenHash, now)
  }

  function KeepBypass(now: int): Bypass -> bool {
    (b: Bypass) => !b.revoked && now < b.expiresAt
  }

  predicate HasAuthorization(as': seq<Authorization>, id: string) {
    exists i :: 0 <= i < |as'| && as'[i].id == id
  }

  function KeepClaim(l: Ledger, as': seq<Authorization>, now: int): SoftClaim -> bool {
    (c: SoftClaim) => !HashGone(l.tokens, l.reservations, c.tokenHash, now) && HasAuthorization(as', c.authorizationID)
  }

  predicate SameSizes(a: Ledger, b: Ledger) {
    && |a.tokens| == |b.tokens| && |a.reservations| == |b.reservations| && |a.authorizations| == |b.authorizations|
    && |a.leases| == |b.leases| && |a.bypasses| == |b.bypasses|
  }

  function Prune(l: Ledger, now: int): Result {
    var kept := l.(tokens := Filter(l.tokens, KeepToken(l, now)),
                   reservations := Filter(l.reservations, KeepReservation(l, now)),
                   authorizations := Filter(l.authorizations, KeepAuthorization(l, now)),
                   leases := Filter(l.leases, KeepLease(l, now)), bypasses := Filter(l.bypasses, KeepBypass(now)));
    if SameSizes(kept, l) then Kept
    else Saved(kept.(claims := Filter(l.claims, KeepClaim(l, kept.authorizations, now))))
  }

  function KeepScope(ids: set<string>): Authorization -> bool {
    (a: Authorization) => !(a.id in ids && !a.active && a.cgroupPath != "")
  }

  function KeepLeaseScope(ids: set<string>): Lease -> bool {
    (e: Lease) => !(e.id in ids && !e.active && e.cgroupPath != "")
  }

  /** Of the records with these ids, those that are over and live in a managed cgroup go. */
  function PruneManagedScopes(l: Ledger, authorizationIDs: set<string>, leaseIDs: set<string>): Result {
    var as' := Filter(l.authorizations, KeepScope(authorizationIDs));
    var es := Filter(l.leases, KeepLeaseScope(leaseIDs));
    if |as'| == |l.authorizations| && |es| == |l.leases| then Kept else Saved(l.(authorizations := as', leases := es))
  }

  /** Some authorization or lease outside a managed cgroup still refers to the hash. */
  predicate Referenced(l: Ledger, hash: string) {
    hash != "" && (
      || (exists i :: 0 <= i < |l.authorizations| && l.authorizations[i].cgroupPath == "" && l.authorizations[i].tokenHash == hash)
      || (exists i :: 0 <= i < |l.leases| && l.leases[i].cgroupPath == "" && l.leases[i].tokenHash == hash))
  }

  /** The validity the (last) token with a hash gives it. */
  predicate HashUsable(ts: seq<Token>, hash: string, now: int) {
    ts != [] && if ts[|ts| - 1].hash == hash then TokenUsable(ts[|ts| - 1], now) else HashUsable(ts[..|ts| - 1], hash, now)
  }

  function KeepEntitlement(l: Ledger, now: int): Reservation -> bool {
    (r: Reservation) =>
      (r.active && !r.revoked && now < r.expiresAt && HashUsable(l.tokens, r.tokenHash, now)) || Referenced(l, r.tokenHash)
  }

  function KeepCredential(l: Ledger, now: int): Token -> bool {
    (t: Token) => HashUsable(l.tokens, t.hash, now) || Referenced(l, t.hash)
  }

  function PruneUnreferenced(l: Ledger, now: int): Result {
    var rs := Filter(l.reservations, KeepEntitlement(l, now));
    var ts := Filter(l.tokens, KeepCredential(l, now));
    if |rs| == |l.reservations| && |ts| == |l.tokens| then Kept else Saved(l.(reservations := rs, tokens := ts))
  }

  // ---------- Operations and runs ----------

  datatype Op =
    | RegisterSoftOp(credential: Credential, name: string, now: int)
    | RegisterOp(credential: Credential, req: Request)
    | RegisterManagedOp(keyID: string, groupID: string, req: Request)
    | SyncKeysOp(snapshot: string, keys: seq<Key>, freshGroup: nat -> string)
    | AddAuthorizationOp(authorization: Authorization, now: int)
    | ActivateOp(id: string, pid: int)
    | ReleaseAuthorizationOp(id: string)
    | ReleaseReservationOp(id: string)
    | ReleaseLeaseOp(id: string)
    | UpsertClaimOp(claim: SoftClaim, freshID: string)
    | ReleaseClaimOp(id: string)
    | AddBypassOp(bypass: Bypass)
    | RevokeOp(name: string, hashOfX: string, now: int)
    | PruneOp(now: int)
    | PruneManagedScopesOp(authorizationIDs: set<string>, leaseIDs: set<string>)
    | PruneUnreferencedOp(now: int)

  function Apply(l: Ledger, op: Op): Result {
    match op
    case RegisterSoftOp(c, name, now) => RegisterSoft(l, c, name, now)
    case RegisterOp(c, req) => Register(l, c, req)
    case RegisterManagedOp(keyID, groupID, req) => RegisterManaged(l, keyID, groupID, req)
    case SyncKeysOp(snapshot, keys, freshGroup) => SyncKeys(l, snapshot, keys, freshGroup)
    case AddAuthorizationOp(a, now) => AddAuthorization(l, a, now)
    case ActivateOp(id, pid) => Activate(l, id, pid)
    case ReleaseAuthorizationOp(id) => ReleaseAuthorization(l, id)
    case ReleaseReservationOp(id) => ReleaseReservation(l, id)
    case ReleaseLeaseOp(id) => ReleaseLease(l, id)
    case UpsertClaimOp(claim, freshID) => UpsertClaim(l, claim, freshID)
    case ReleaseClaimOp(id) => ReleaseClaim(l, id)
    case AddBypassOp(b) => AddBypass(l, b)
    case RevokeOp(name, hashOfX, now) => Revoke(l, name, hashOfX, now)
    case PruneOp(now) => Prune(l, now)
    case PruneManagedScopesOp(a, b) => PruneManagedScopes(l, a, b)
    case PruneUnreferencedOp(now) => PruneUnreferenced(l, now)
  }

  // ---------- Which tables an operation leaves alone ----------

  predicate TouchesTokens(op: Op) {
    op.RegisterSoftOp? || op.RegisterOp? || op.SyncKeysOp? || op.RevokeOp? || op.PruneOp? || op.PruneUnreferencedOp?
  }

  predicate TouchesReservations(op: Op) {
    || op.RegisterOp? || op.RegisterManagedOp? || op.SyncKeysOp? || op.ReleaseReservationOp? || op.RevokeOp?
    || op.PruneOp? || op.PruneUnreferencedOp?
  }

  predicate TouchesAuthorizations(op: Op) {
    || op.AddAuthorizationOp? || op.ActivateOp? || op.ReleaseAuthorizationOp? || op.RevokeOp?
    || op.PruneOp? || op.PruneManagedScopesOp?
  }

  predicate TouchesClaims(op: Op) {
    op.UpsertClaimOp? || op.ReleaseClaimOp? || op.RevokeOp? || op.PruneOp?
  }

  lemma {:induction false} TokensStay(l: Ledger, op: Op)
    requires !TouchesTokens(op) && Apply(l, op).Saved?
    ensures Apply(l, op).ledger.tokens == l.tokens && Apply(l, op).ledger.managedKeys == l.managedKeys
  {
  }

  lemma {:induction false} ReservationsStay(l: Ledger, op: Op)
    requires !TouchesReservations(op) && Apply(l, op).Saved?
    ensures Apply(l, op).ledger.reservations == l.reservations
  {
  }

  lemma {:induction false} AuthorizationsStay(l: Ledger, op: Op)
    requires !TouchesAuthorizations(op) && Apply(l, op).Saved?
    ensures Apply(l, op).ledger.authorizations == l.authorizations
  {
  }

  lemma {:induction false} ClaimsStay(l: Ledger, op: Op)
    requires !TouchesClaims(op) && Apply(l, op).Saved?
    ensures Apply(l, op).ledger.claims == l.claims
  {
  }

  /** How a save ends: the file is renamed into place, it is renamed but the directory sync then
      fails, or something fails before the rename. */
  datatype SaveEnd = Renamed | RenamedUnsynced | NotRenamed

  predicate ValidGPU(gpu: int) { 0 <= gpu <= MAX_GPU }

  /** The bounds a ledger must meet to be saved at all. */
  predicate WithinBounds(l: Ledger) {
    && |l.tokens| <= MAX_TOKENS && |l.reservations| <= MAX_RESERVATIONS && |l.authorizations| <= MAX_AUTHORIZATIONS
    && |l.claims| <= MAX_CLAIMS && |l.leases| <= MAX_LEASES && |l.bypasses| <= MAX_BYPASSES
    && (forall i :: 0 <= i < |l.reservations| ==> ValidGPU(l.reservations[i].gpu))
    && (forall i :: 0 <= i < |l.claims| ==> ValidGPU(l.claims[i].gpu))
    && (forall i :: 0 <= i < |l.leases| ==> ValidGPU(l.leases[i].gpu))
  }

  /** The ledger after an operation whose save, if it needs one, ends this way. */
  function After(l: Ledger, op: Op, save: SaveEnd): Ledger {
    match Apply(l, op)
    case Saved(next) => if save.NotRenamed? || !WithinBounds(next) then l else next
    case _ => l
  }

  datatype Event = Event(op: Op, save: SaveEnd)

  function Run(l: Ledger, events: seq<Event>): Ledger {
    if events == [] then l
    else
      var n := |events| - 1;
      After(Run(l, events[..n]), events[n].op, events[n].save)
  }

  /** The call reports success. */
  predicate Succeeds(l: Ledger, e: Event) {
    match Apply(l, e.op)
    case Rejected => false
    case Kept => true
    case Saved(next) => e.save.Renamed? && WithinBounds(next)
  }

  predicate AllSucceed(l: Ledger, events: seq<Event>) {
    events == [] ||
    var n := |events| - 1;
    AllSucceed(l, events[..n]) && Succeeds(Run(l, events[..n]), events[n])
  }
}
