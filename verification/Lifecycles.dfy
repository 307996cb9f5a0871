/** An authorization only ever moves towards its end: over every sequence of operations its flags
    are never cleared, its process is recorded at most once and the rest of it never changes. */
module Lifecycles {
  import opened Seqs
  import opened Model
  import opened Operations

  /** `b` may be `a` at a later time. */
  predicate Evolved(a: Authorization, b: Authorization) {
    && b == a.(active := b.active, revoked := b.revoked, rootPID := b.rootPID)
    && (b.active ==> a.active) && (a.revoked ==> b.revoked)
    && (b.rootPID != a.rootPID ==> a.rootPID == 0 && b.rootPID > 0 && a.active && !a.revoked)
  }

  predicate Descends(as': seq<Authorization>, b: Authorization) {
    exists i :: 0 <= i < |as'| && Evolved(as'[i], b)
  }

  lemma EvolvedTrans(a: Authorization, b: Authorization, c: Authorization)
    requires Evolved(a, b) && Evolved(b, c)
    ensures Evolved(a, c)
  {
  }

  /** Every authorization of `bs` continues one of `as'`. */
  predicate Continues(as': seq<Authorization>, bs: seq<Authorization>) {
    forall j :: 0 <= j < |bs| ==> Descends(as', bs[j])
  }

  lemma PointwiseContinues(as': seq<Authorization>, bs: seq<Authorization>)
    requires |as'| == |bs| && forall i :: 0 <= i < |bs| ==> Evolved(as'[i], bs[i])
    ensures Continues(as', bs)
  {
  }

  lemma FilterContinues(as': seq<Authorization>, keep: Authorization -> bool)
    ensures Continues(as', Filter(as', keep))
  {
    var bs := Filter(as', keep);
    FilterMembers(as', keep);
    forall j | 0 <= j < |bs| ensures Descends(as', bs[j]) {
      assert bs[j] in as';
      var i :| 0 <= i < |as'| && as'[i] == bs[j];
      assert Evolved(as'[i], bs[j]);
    }
  }

  lemma SameContinues(as': seq<Authorization>)
    ensures Continues(as', as')
  {
    PointwiseContinues(as', as');
  }

  lemma {:induction false} RevokedContinues(l: Ledger, n: Ledger, how: Revocation)
    requires RevokedTo(l, n, how)
    ensures Continues(l.authorizations, n.authorizations)
  {
    match how
    case Group(_) => SameContinues(l.authorizations);
    case Marking(x, _, h, _) => PointwiseContinues(l.authorizations, Map(l.authorizations, RevokeAuthorization(x, h)));
  }

  lemma {:induction false} RevokingContinues(l: Ledger, name: string, hashOfX: string, now: int)
    requires Revoke(l, name, hashOfX, now).Saved?
    ensures Continues(l.authorizations, Revoke(l, name, hashOfX, now).ledger.authorizations)
  {
    var how := RevokeShape(l, name, hashOfX, now);
    RevokedContinues(l, Revoke(l, name, hashOfX, now).ledger, how);
  }

  lemma PruningContinues(l: Ledger, op: Op)
    requires Apply(l, op).Saved? && (op.PruneOp? || op.PruneManagedScopesOp?)
    ensures Continues(l.authorizations, Apply(l, op).ledger.authorizations)
  {
    match op
    case PruneOp(now) => FilterContinues(l.authorizations, KeepAuthorization(l, now));
    case PruneManagedScopesOp(ids, _) => FilterContinues(l.authorizations, KeepScope(ids));
  }

  lemma UpdatingContinues(l: Ledger, op: Op)
    requires Apply(l, op).Saved? && (op.ActivateOp? || op.ReleaseAuthorizationOp?)
    ensures Continues(l.authorizations, Apply(l, op).ledger.authorizations)
  {
    PointwiseContinues(l.authorizations, Apply(l, op).ledger.authorizations);
  }

  lemma ApplyContinues(l: Ledger, op: Op)
    requires Apply(l, op).Saved? && !op.AddAuthorizationOp?
    ensures Continues(l.authorizations, Apply(l, op).ledger.authorizations)
  {
    if !TouchesAuthorizations(op) {
      AuthorizationsStay(l, op);
      SameContinues(l.authorizations);
    } else if op.RevokeOp? {
      RevokingContinues(l, op.name, op.hashOfX, op.now);
    } else if op.PruneOp? || op.PruneManagedScopesOp? {
      PruningContinues(l, op);
    } else {
      UpdatingContinues(l, op);
    }
  }

  /** Every operation but adding one continues the authorizations there were. */
  lemma StepContinues(l: Ledger, op: Op, save: SaveEnd)
    requires !op.AddAuthorizationOp?
    ensures Continues(l.authorizations, After(l, op, save).authorizations)
  {
    SameContinues(l.authorizations);
    if Apply(l, op).Saved? {
      ApplyContinues(l, op);
    }
  }

  lemma AddingContinues(l: Ledger, op: Op, save: SaveEnd, b: Authorization)
    requires op.AddAuthorizationOp? && b in After(l, op, save).authorizations && b != op.authorization
    ensures Descends(l.authorizations, b)
  {
    assert b in l.authorizations;
    var i :| 0 <= i < |l.authorizations| && l.authorizations[i] == b;
    assert Evolved(l.authorizations[i], b);
  }

  /** No event adds an authorization under this id: generated ids are fresh. */
  predicate NeverAdded(events: seq<Event>, id: string) {
    forall i :: 0 <= i < |events| && events[i].op.AddAuthorizationOp? ==> events[i].op.authorization.id != id
  }

  /** Over every run, whatever is stored under an id evolved from what was stored under it. */
  lemma {:induction false} RunEvolves(l: Ledger, events: seq<Event>, b: Authorization)
    requires b in Run(l, events).authorizations && NeverAdded(events, b.id)
    ensures Descends(l.authorizations, b)
  {
    if events == [] {
      SameContinues(l.authorizations);
    } else {
      var n := |events| - 1;
      var mid, op, save := Run(l, events[..n]), events[n].op, events[n].save;
      if op.AddAuthorizationOp? {
        AddingContinues(mid, op, save, b);
      } else {
        StepContinues(mid, op, save);
      }
      var i :| 0 <= i < |mid.authorizations| && Evolved(mid.authorizations[i], b);
      var a := mid.authorizations[i];
      RunEvolves(l, events[..n], a);
      var j :| 0 <= j < |l.authorizations| && Evolved(l.authorizations[j], a);
      EvolvedTrans(l.authorizations[j], a, b);
    }
  }

  /** Everything stored under the id is revoked or inactive. */
  predicate Dead(l: Ledger, id: string) {
    forall i :: 0 <= i < |l.authorizations| && l.authorizations[i].id == id
                ==> l.authorizations[i].revoked || !l.authorizations[i].active
  }

  /** An authorization that was revoked or released before its command started stays dead over
      every run, so recording a process for it is refused for ever. */
  lemma DeadForEver(l: Ledger, events: seq<Event>, id: string, pid: int)
    requires Dead(l, id) && NeverAdded(events, id)
    ensures Dead(Run(l, events), id)
    ensures Apply(Run(l, events), ActivateOp(id, pid)) == Rejected
  {
    var m := Run(l, events);
    forall i | 0 <= i < |m.authorizations| && m.authorizations[i].id == id
      ensures m.authorizations[i].revoked || !m.authorizations[i].active
    {
      RunEvolves(l, events, m.authorizations[i]);
    }
  }

  /** The recorded process never changes once set. */
  lemma ProcessRecordedOnce(l: Ledger, events: seq<Event>, a: Authorization, b: Authorization)
    requires a in l.authorizations && b in Run(l, events).authorizations && a.id == b.id && NeverAdded(events, a.id)
    requires forall x, y :: x in l.authorizations && y in l.authorizations && x.id == y.id ==> x == y
    ensures Evolved(a, b)
    ensures a.rootPID != 0 ==> b.rootPID == a.rootPID
  {
    RunEvolves(l, events, b);
  }
}
