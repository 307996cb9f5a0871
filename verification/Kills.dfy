/** The decisions of an enforcement pass and the budget on kills. A planner first wants a process
    killed; the budget then settles which of these wishes become kills. */
module Kills {
  import opened Model
  import opened Scope

  const KILL_BUDGET := 8

  datatype Why = ByBypass | ByAuthorization | ByLease | ByClaim

  datatype Reason =
    | NoUsage | StalePID | NoInfo | Unresolvable | Unclaimed | Contested | AlreadyTargeted | OverBudget

  datatype Decision =
    | Allow(row: Row, why: Why, authID: string, tokenHash: string)
    | Kill(row: Row, tokenHash: string)
    | Skip(row: Row, reason: Reason)
    | Claim(claim: SoftClaim)
    | Release(claimID: string)

  /** The pids that a list of wishes targets. */
  function Targets(wishes: seq<Decision>): set<int> {
    if wishes == [] then {}
    else
      var n := |wishes| - 1;
      Targets(wishes[..n]) + if wishes[n].Kill? then {wishes[n].row.pid} else {}
  }

  /** A wish in the light of those before it: a pid is targeted once, and only the first eight
      distinct pids fit the budget. A dry run has no budget. */
  function Settle(before: seq<Decision>, wish: Decision, dryRun: bool): Decision {
    if !wish.Kill? then wish
    else if wish.row.pid in Targets(before) then Skip(wish.row, AlreadyTargeted)
    else if !dryRun && |Targets(before)| >= KILL_BUDGET then Skip(wish.row, OverBudget)
    else wish
  }

  function Settled(wishes: seq<Decision>, dryRun: bool): (ds: seq<Decision>)
    ensures |ds| == |wishes|
  {
    if wishes == [] then []
    else
      var n := |wishes| - 1;
      Settled(wishes[..n], dryRun) + [Settle(wishes[..n], wishes[n], dryRun)]
  }

  /** The pids killed, in order. */
  function Killed(ds: seq<Decision>): seq<int> {
    if ds == [] then []
    else
      var n := |ds| - 1;
      Killed(ds[..n]) + if ds[n].Kill? then [ds[n].row.pid] else []
  }

  ghost predicate NoRepeats(s: seq<int>) {
    forall i, j :: 0 <= i < j < |s| ==> s[i] != s[j]
  }

  ghost function AsSet(s: seq<int>): set<int> {
    set x | x in s
  }

  function Least(a: int, b: int): int { if a <= b then a else b }

  lemma AddOne(s: seq<int>, x: int)
    requires NoRepeats(s) && x !in s
    ensures NoRepeats(s + [x]) && AsSet(s + [x]) == AsSet(s) + {x}
  {
  }

  lemma SetSize(s: seq<int>)
    requires NoRepeats(s)
    ensures |AsSet(s)| == |s|
  {
    if s != [] {
      var n := |s| - 1;
      SetSize(s[..n]);
      assert s[n] !in s[..n];
      AddOne(s[..n], s[n]);
      assert s == s[..n] + [s[n]];
    } else {
      assert AsSet(s) == {};
    }
  }

  lemma {:induction false} KilledStep(wishes: seq<Decision>, dryRun: bool)
    requires wishes != []
    ensures var before, wish := wishes[..|wishes| - 1], wishes[|wishes| - 1];
            Killed(Settled(wishes, dryRun))
            == Killed(Settled(before, dryRun)) + if Settle(before, wish, dryRun).Kill? then [wish.row.pid] else []
  {
    var n := |wishes| - 1;
    assert Settled(wishes, dryRun)[..n] == Settled(wishes[..n], dryRun);
  }

  lemma {:induction false} TargetsStep(wishes: seq<Decision>)
    requires wishes != []
    ensures var before, wish := wishes[..|wishes| - 1], wishes[|wishes| - 1];
            if wish.Kill? && wish.row.pid !in Targets(before)
            then Targets(wishes) == Targets(before) + {wish.row.pid} && |Targets(wishes)| == |Targets(before)| + 1
            else Targets(wishes) == Targets(before)
  {
    var before, wish := wishes[..|wishes| - 1], wishes[|wishes| - 1];
    if wish.Kill? && wish.row.pid in Targets(before) {
      assert Targets(before) + {wish.row.pid} == Targets(before);
    } else if !wish.Kill? {
      assert Targets(before) + {} == Targets(before);
    }
  }

  /** The kills are distinct targets, as many as fit the budget. */
  ghost predicate Budgeted(ks: seq<int>, targets: set<int>) {
    && NoRepeats(ks) && AsSet(ks) <= targets && |ks| == Least(KILL_BUDGET, |targets|)
    && (|targets| <= KILL_BUDGET ==> AsSet(ks) == targets)
  }

  lemma {:induction false} BudgetStep(ks: seq<int>, targets: set<int>, pid: int)
    requires Budgeted(ks, targets) && pid !in targets
    ensures Budgeted(if |targets| < KILL_BUDGET then ks + [pid] else ks, targets + {pid})
  {
    assert |targets + {pid}| == |targets| + 1;
    if |targets| < KILL_BUDGET {
      assert pid !in AsSet(ks);
      AddOne(ks, pid);
    }
  }

  /** Each pid is killed at most once; exactly as many as fit the budget are killed, all of them
      targets; and all targets are killed when there are at most eight. */
  lemma {:induction false} BudgetedKills(wishes: seq<Decision>)
    ensures var ks := Killed(Settled(wishes, false));
            && NoRepeats(ks) && AsSet(ks) <= Targets(wishes)
            && |ks| == Least(KILL_BUDGET, |Targets(wishes)|)
            && (|Targets(wishes)| <= KILL_BUDGET ==> AsSet(ks) == Targets(wishes))
    ensures Budgeted(Killed(Settled(wishes, false)), Targets(wishes))
  {
    if wishes == [] {
      assert AsSet([]) == {};
    } else {
      var before, wish := wishes[..|wishes| - 1], wishes[|wishes| - 1];
      BudgetedKills(before);
      KilledStep(wishes, false);
      TargetsStep(wishes);
      if wish.Kill? && wish.row.pid !in Targets(before) {
        BudgetStep(Killed(Settled(before, false)), Targets(before), wish.row.pid);
      }
    }
  }

  /** A dry run reports every target, once. */
  lemma {:induction false} DryRunKills(wishes: seq<Decision>)
    ensures var ks := Killed(Settled(wishes, true)); NoRepeats(ks) && AsSet(ks) == Targets(wishes)
  {
    if wishes == [] {
      assert AsSet([]) == {};
    } else {
      var before, wish := wishes[..|wishes| - 1], wishes[|wishes| - 1];
      DryRunKills(before);
      KilledStep(wishes, true);
      TargetsStep(wishes);
      if wish.Kill? && wish.row.pid !in Targets(before) {
        assert wish.row.pid !in AsSet(Killed(Settled(before, true)));
        AddOne(Killed(Settled(before, true)), wish.row.pid);
      }
    }
  }

  /** Settling turns some kills into skips of the same row and changes nothing else. */
  lemma {:induction false} SettledAt(wishes: seq<Decision>, dryRun: bool, i: nat)
    requires i < |wishes|
    ensures var d := Settled(wishes, dryRun)[i];
            if wishes[i].Kill? then d == wishes[i] || (d.Skip? && d.row == wishes[i].row) else d == wishes[i]
  {
    if i < |wishes| - 1 {
      SettledAt(wishes[..|wishes| - 1], dryRun, i);
    }
  }

  lemma {:induction false} TargetsAppend(a: seq<Decision>, b: seq<Decision>)
    ensures Targets(a + b) == Targets(a) + Targets(b)
  {
    if b == [] {
      assert a + b == a;
    } else {
      var n := |b| - 1;
      TargetsAppend(a, b[..n]);
      assert (a + b)[..|a + b| - 1] == a + b[..n];
    }
  }

  lemma {:induction false} TargetsMember(wishes: seq<Decision>, pid: int)
    ensures pid in Targets(wishes) <==> exists i :: 0 <= i < |wishes| && wishes[i].Kill? && wishes[i].row.pid == pid
  {
    if wishes != [] {
      TargetsMember(wishes[..|wishes| - 1], pid);
    }
  }

  // ---------- The planner object ----------

  /** The queued rows are those of the kill decisions, in order. */
  ghost predicate IsPlan(pending: seq<Row>, ds: seq<Decision>) {
    |Killed(ds)| == |pending| && forall i :: 0 <= i < |pending| ==> Killed(ds)[i] == pending[i].pid
  }

  lemma PlanAppend(pending: seq<Row>, ds: seq<Decision>, d: Decision)
    requires IsPlan(pending, ds)
    ensures IsPlan(if d.Kill? then pending + [d.row] else pending, ds + [d])
  {
    assert (ds + [d])[..|ds|] == ds;
  }

  /** What a planner holds after a list of wishes. */
  ghost predicate Holds(dryRun: bool, wishes: seq<Decision>, decisions: seq<Decision>, targeted: set<int>, pending: seq<Row>) {
    && decisions == Settled(wishes, dryRun) && targeted == Targets(wishes)
    && (if dryRun then pending == [] else |pending| == Least(KILL_BUDGET, |targeted|) && IsPlan(pending, decisions))
  }

  lemma {:induction false} HoldsAppend(dryRun: bool, wishes: seq<Decision>, decisions: seq<Decision>, targeted: set<int>,
                                       pending: seq<Row>, wish: Decision)
    requires Holds(dryRun, wishes, decisions, targeted, pending)
    ensures var d := Settle(wishes, wish, dryRun);
            Holds(dryRun, wishes + [wish], decisions + [d], if wish.Kill? then targeted + {wish.row.pid} else targeted,
                  if d.Kill? && !dryRun then pending + [d.row] else pending)
  {
    var d := Settle(wishes, wish, dryRun);
    assert (wishes + [wish])[..|wishes|] == wishes;
    TargetsStep(wishes + [wish]);
    if !dryRun {
      PlanAppend(pending, decisions, d);
    }
  }

  /** Collects decisions as the pass makes them; `wishes` is what was asked for so far. */
  class Planner {
    const dryRun: bool
    var decisions: seq<Decision>
    var targeted: set<int>
    var pending: seq<Row>
    ghost var wishes: seq<Decision>

    ghost predicate Valid()
      reads this
    {
      Holds(dryRun, wishes, decisions, targeted, pending)
    }

    constructor (dryRun: bool)
      ensures Valid() && wishes == [] && this.dryRun == dryRun
    {
      this.dryRun := dryRun;
      decisions, targeted, pending, wishes := [], {}, [], [];
    }

    method Note(d: Decision)
      requires Valid() && !d.Kill?
      modifies this
      ensures Valid() && wishes == old(wishes) + [d]
    {
      HoldsAppend(dryRun, wishes, decisions, targeted, pending, d);
      decisions, wishes := decisions + [d], wishes + [d];
    }

    /** Plans the kill of a row unless its pid is already targeted or the budget is spent. */
    method KillOnce(row: Row, tokenHash: string)
      requires Valid()
      modifies this
      ensures Valid() && wishes == old(wishes) + [Kill(row, tokenHash)]
    {
      HoldsAppend(dryRun, wishes, decisions, targeted, pending, Kill(row, tokenHash));
      wishes := wishes + [Kill(row, tokenHash)];
      if row.pid in targeted {
        decisions := decisions + [Skip(row, AlreadyTargeted)];
        assert targeted + {row.pid} == targeted;
        return;
      }
      targeted := targeted + {row.pid};
      if !dryRun && |pending| >= KILL_BUDGET {
        decisions := decisions + [Skip(row, OverBudget)];
        return;
      }
      decisions := decisions + [Kill(row, tokenHash)];
      if !dryRun {
        pending := pending + [row];
      }
    }

    /** Notes a decision, or plans it if it is a kill. */
    method Wish(d: Decision)
      requires Valid()
      modifies this
      ensures Valid() && wishes == old(wishes) + [d]
    {
      if d.Kill? {
        KillOnce(d.row, d.tokenHash);
      } else {
        Note(d);
      }
    }
  }
}
