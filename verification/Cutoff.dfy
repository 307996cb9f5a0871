/** Credentials that were cut off stay cut off: a revoked scope, or one whose key the current
    snapshot no longer holds, can never again match a process. */
module Cutoff {
  import opened Seqs
  import opened Model
  import opened Operations
  import opened Reservations
  import opened Lifecycles
  import opened Integrity
  import opened Scope

  /** No stored token honours this hash and version. */
  predicate Locked(l: Ledger, hash: string, version: int) {
    forall i :: 0 <= i < |l.tokens| && l.tokens[i].hash == hash ==> l.tokens[i].managed && l.tokens[i].version != version
  }

  /** The operation neither installs another snapshot nor issues a token under this hash. */
  predicate SameSnapshot(op: Op, hash: string) {
    match op
    case SyncKeysOp(_, _, _) => false
    case RegisterSoftOp(c, _, _) => c.hash != hash
    case RegisterOp(c, _) => c.hash != hash
    case _ => true
  }

  lemma {:induction false} RevokedKeepIdentity(ts: seq<Token>, x: string, hash: string)
    ensures forall i :: 0 <= i < |ts| ==> SameToken(ts[i], RevokeTokens(ts, x, hash).0[i])
  {
    if ts != [] {
      RevokedKeepIdentity(ts[..|ts| - 1], x, hash);
    }
  }

  lemma {:induction false} RevokedLocked(l: Ledger, n: Ledger, how: Revocation, hash: string, version: int)
    requires Locked(l, hash, version) && RevokedTo(l, n, how)
    ensures Locked(n, hash, version)
  {
    if how.Marking? {
      RevokedKeepIdentity(l.tokens, how.id, how.first);
      forall i | 0 <= i < |n.tokens| && n.tokens[i].hash == hash ensures n.tokens[i].managed && n.tokens[i].version != version {
        assert SameToken(l.tokens[i], n.tokens[i]);
      }
    }
  }

  lemma {:induction false} RevokingLocked(l: Ledger, name: string, hashOfX: string, now: int, hash: string, version: int)
    requires Locked(l, hash, version) && Revoke(l, name, hashOfX, now).Saved?
    ensures Locked(Revoke(l, name, hashOfX, now).ledger, hash, version)
  {
    var how := RevokeShape(l, name, hashOfX, now);
    RevokedLocked(l, Revoke(l, name, hashOfX, now).ledger, how, hash, version);
  }

  lemma {:induction false} FilteringLocked(l: Ledger, keep: Token -> bool, hash: string, version: int)
    requires Locked(l, hash, version)
    ensures Locked(l.(tokens := Filter(l.tokens, keep)), hash, version)
  {
    FilterMembers(l.tokens, keep);
    var ts := Filter(l.tokens, keep);
    forall i | 0 <= i < |ts| && ts[i].hash == hash ensures ts[i].managed && ts[i].version != version {
      assert ts[i] in l.tokens;
    }
  }

  lemma {:induction false} PruningLocked(l: Ledger, op: Op, hash: string, version: int)
    requires Locked(l, hash, version) && (op.PruneOp? || op.PruneUnreferencedOp?) && Apply(l, op).Saved?
    ensures Locked(Apply(l, op).ledger, hash, version)
  {
    match op
    case PruneOp(now) => FilteringLocked(l, KeepToken(l, now), hash, version);
    case PruneUnreferencedOp(now) => FilteringLocked(l, KeepCredential(l, now), hash, version);
  }

  lemma StepLocked(l: Ledger, op: Op, save: SaveEnd, hash: string, version: int)
    requires Locked(l, hash, version) && SameSnapshot(op, hash)
    ensures Locked(After(l, op, save), hash, version)
  {
    if Apply(l, op).Saved? {
      match op
      case RevokeOp(name, hashOfX, now) => RevokingLocked(l, name, hashOfX, now, hash, version);
      case PruneOp(_) => PruningLocked(l, op, hash, version);
      case PruneUnreferencedOp(_) => PruningLocked(l, op, hash, version);
      case RegisterManagedOp(_, _, _) =>
      case _ =>
    }
  }

  lemma {:induction false} RunLocked(l: Ledger, events: seq<Event>, hash: string, version: int)
    requires Locked(l, hash, version) && forall i :: 0 <= i < |events| ==> SameSnapshot(events[i].op, hash)
    ensures Locked(Run(l, events), hash, version)
  {
    if events != [] {
      var n := |events| - 1;
      RunLocked(l, events[..n], hash, version);
      StepLocked(Run(l, events[..n]), events[n].op, events[n].save, hash, version);
    }
  }

  /** Once a snapshot is installed, an authorization whose hash is not in it, or is in it with
      another version, matches nothing in any later ledger until another snapshot replaces it. */
  lemma {:induction false} SnapshotCutsOff(l: Ledger, sync: Op, events: seq<Event>, a: Authorization, env: Env, choice: Choice, info: Info)
    requires sync.SyncKeysOp? && Apply(l, sync).Saved?
    requires forall i :: 0 <= i < |events| ==> SameSnapshot(events[i].op, a.tokenHash)
    requires forall i :: 0 <= i < |sync.keys| ==> KeyToken(sync.keys[i]).hash != a.tokenHash || sync.keys[i].version != a.tokenVersion
    ensures MatchAny(env, Run(Apply(l, sync).ledger, events), choice, info) != Matched(a)
  {
    SnapshotInstalled(l, sync.snapshot, sync.keys, sync.freshGroup);
    RunLocked(Apply(l, sync).ledger, events, a.tokenHash, a.tokenVersion);
  }

  /** An authorization revoked or released at some point matches nothing in any later ledger. */
  lemma {:induction false} DeadNeverMatches(l: Ledger, events: seq<Event>, id: string, env: Env, choice: Choice, info: Info)
    requires Dead(l, id) && NeverAdded(events, id)
    ensures var m := MatchAny(env, Run(l, events), choice, info);
            m.Matched? ==> m.authorization.id != id
  {
    DeadForEver(l, events, id, 1);
  }
}
