/** The daemon's telemetry emitter: an append that fails is remembered by its time, and a gap
    event must reach the outbox before any ordinary event may follow. */
module Emission {

  /** One call: the time of the event, and whether the outbox accepts each of the (at most two)
      appends the call attempts. Time 0 is Go's zero time. */
  datatype Call = Call(at: int, gapAccepted: bool, eventAccepted: bool)

  /** What an append leaves in the outbox, tagged with the call that made it. */
  datatype Entry =
    | Ordinary(call: nat)
    | Gap(call: nat, from: int, to: int)

  datatype Emitter = Emitter(gapFrom: int, outbox: seq<Entry>)

  function Emit(e: Emitter, n: nat, c: Call): Emitter {
    var pending := e.gapFrom != 0;
    if pending && !c.gapAccepted then
      e
    else
      var out := if pending then e.outbox + [Gap(n, e.gapFrom, c.at)] else e.outbox;
      if c.eventAccepted then Emitter(0, out + [Ordinary(n)]) else Emitter(c.at, out)
  }

  /** The emitter after a whole run of calls, numbered from 0. */
  function Run(calls: seq<Call>): Emitter {
    if calls == [] then Emitter(0, [])
    else var n := |calls| - 1; Emit(Run(calls[..n]), n, calls[n])
  }

  /** The daemon's own form of a call, changing its fields step by step. */
  class Daemon {
    var telemetryGapFrom: int
    var outbox: seq<Entry>
    var emitted: nat

    function State(): Emitter
      reads this
    {
      Emitter(telemetryGapFrom, outbox)
    }

    constructor ()
      ensures State() == Run([]) && emitted == 0
    {
      telemetryGapFrom, outbox, emitted := 0, [], 0;
    }

    method Append(entry: Entry, accepted: bool) returns (ok: bool)
      modifies this`outbox
      ensures ok == accepted
      ensures outbox == if accepted then old(outbox) + [entry] else old(outbox)
    {
      ok := accepted;
      if accepted {
        outbox := outbox + [entry];
      }
    }

    method EmitTelemetry(c: Call)
      modifies this
      ensures State() == Emit(old(State()), old(emitted), c) && emitted == old(emitted) + 1
    {
      var n := emitted;
      emitted := emitted + 1;
      if telemetryGapFrom != 0 {
        var ok := Append(Gap(n, telemetryGapFrom, c.at), c.gapAccepted);
        if !ok {
          return;
        }
        telemetryGapFrom := 0;
      }
      var ok := Append(Ordinary(n), c.eventAccepted);
      if !ok && telemetryGapFrom == 0 {
        telemetryGapFrom := c.at;
      }
    }
  }

  /** Call `i` left no ordinary event. */
  ghost predicate Lost(out: seq<Entry>, i: int) {
    i >= 0 && Ordinary(i) !in out
  }

  /** Some gap among the first `q` entries was appended by a call after `i`. */
  ghost predicate GapAfter(out: seq<Entry>, q: int, i: int) {
    exists p :: 0 <= p < q <= |out| && out[p].Gap? && out[p].call > i
  }

  /** Every lost event is followed by a gap before any later ordinary event. */
  ghost predicate NoSilentLoss(out: seq<Entry>) {
    forall i, q :: Lost(out, i) && 0 <= q < |out| && out[q].Ordinary? && out[q].call > i ==> GapAfter(out, q, i)
  }

  /** `f` is the first event lost since the gaps among the first `q` entries. */
  ghost predicate FirstLost(out: seq<Entry>, q: int, f: int) {
    && 0 <= q <= |out| && Lost(out, f) && !GapAfter(out, q, f)
    && forall i :: 0 <= i < f && Lost(out, i) ==> GapAfter(out, q, i)
  }

  /** The gap at `p` starts at the time of the first event lost since the gap before it. */
  ghost predicate ExactGap(calls: seq<Call>, out: seq<Entry>, p: int)
    requires 0 <= p < |out| && out[p].Gap?
  {
    exists f :: 0 <= f < out[p].call && f < |calls| && FirstLost(out, p, f) && out[p].from == calls[f].at
  }

  ghost predicate Timed(calls: seq<Call>) {
    forall i :: 0 <= i < |calls| ==> calls[i].at != 0
  }

  /** What holds of the outbox once calls `0..n` have begun. */
  ghost predicate History(calls: seq<Call>, n: int, out: seq<Entry>) {
    && (forall p :: 0 <= p < |out| ==> out[p].call < n)
    && NoSilentLoss(out)
    && (forall p :: 0 <= p < |out| && out[p].Gap? ==> ExactGap(calls, out, p))
  }

  /** Every event lost by calls `0..n` is followed by a gap. */
  ghost predicate AllMarked(n: int, out: seq<Entry>) {
    forall i :: Lost(out, i) && i < n ==> GapAfter(out, |out|, i)
  }

  /** The remembered time is that of the first unmarked loss, and 0 only if there is none. */
  ghost predicate Remembered(calls: seq<Call>, e: Emitter) {
    if e.gapFrom == 0 then AllMarked(|calls|, e.outbox)
    else exists f :: 0 <= f < |calls| && FirstLost(e.outbox, |e.outbox|, f) && e.gapFrom == calls[f].at
  }

  /** Appending an entry of call `n` changes nothing about earlier positions or other calls. */
  lemma Appended(out: seq<Entry>, entry: Entry, n: nat)
    requires entry.call == n
    ensures forall i :: i != n || entry.Gap? ==> (Lost(out + [entry], i) <==> Lost(out, i))
    ensures forall q, i :: q <= |out| ==> (GapAfter(out + [entry], q, i) <==> GapAfter(out, q, i))
  {
    var next := out + [entry];
    forall q, i | q <= |out| ensures GapAfter(next, q, i) <==> GapAfter(out, q, i) {
      if GapAfter(out, q, i) {
        var p :| 0 <= p < q && out[p].Gap? && out[p].call > i;
        assert next[p] == out[p];
      }
    }
  }

  /** Exact gaps stay exact when an entry is appended and a call is added. */
  lemma StillExact(calls: seq<Call>, c: Call, out: seq<Entry>, entry: Entry, p: int)
    requires 0 <= p < |out| && out[p].Gap? && ExactGap(calls, out, p)
    requires forall q :: 0 <= q < |out| ==> out[q].call <= entry.call
    ensures ExactGap(calls, out + [entry], p) && ExactGap(calls + [c], out + [entry], p)
  {
    Appended(out, entry, entry.call);
    var f :| 0 <= f < out[p].call && f < |calls| && FirstLost(out, p, f) && out[p].from == calls[f].at;
    var next := out + [entry];
    assert next[p] == out[p];
    assert FirstLost(next, p, f);
    assert (calls + [c])[f] == calls[f];
  }

  lemma GapHidesNothing(out: seq<Entry>, entry: Entry)
    requires NoSilentLoss(out) && entry.Gap?
    ensures NoSilentLoss(out + [entry])
  {
    var next := out + [entry];
    Appended(out, entry, entry.call);
    forall i, q | Lost(next, i) && 0 <= q < |next| && next[q].Ordinary? && next[q].call > i ensures GapAfter(next, q, i) {
      assert q < |out| && next[q] == out[q];
    }
  }

  lemma GapIsExact(calls: seq<Call>, c: Call, e: Emitter)
    requires History(calls, |calls|, e.outbox) && Remembered(calls, e) && e.gapFrom != 0
    ensures ExactGap(calls + [c], e.outbox + [Gap(|calls|, e.gapFrom, c.at)], |e.outbox|)
  {
    var entry := Gap(|calls|, e.gapFrom, c.at);
    Appended(e.outbox, entry, |calls|);
    var f :| 0 <= f < |calls| && FirstLost(e.outbox, |e.outbox|, f) && e.gapFrom == calls[f].at;
    assert FirstLost(e.outbox + [entry], |e.outbox|, f) && (calls + [c])[f] == calls[f];
  }

  lemma GapStep(calls: seq<Call>, c: Call, e: Emitter)
    requires History(calls, |calls|, e.outbox) && Remembered(calls, e) && e.gapFrom != 0
    ensures var out := e.outbox + [Gap(|calls|, e.gapFrom, c.at)];
            History(calls + [c], |calls| + 1, out) && AllMarked(|calls|, out)
  {
    var n, entry := |calls|, Gap(|calls|, e.gapFrom, c.at);
    var out := e.outbox + [entry];
    GapHidesNothing(e.outbox, entry);
    GapIsExact(calls, c, e);
    forall p | 0 <= p < |e.outbox| && out[p].Gap? ensures ExactGap(calls + [c], out, p) {
      StillExact(calls, c, e.outbox, entry, p);
    }
    forall i | i < n ensures GapAfter(out, |out|, i) {
      assert out[|e.outbox|] == entry;
    }
  }

  lemma OrdinaryStep(calls: seq<Call>, n: nat, out: seq<Entry>)
    requires History(calls, n + 1, out) && AllMarked(n, out) && Ordinary(n) !in out
    ensures History(calls, n + 1, out + [Ordinary(n)]) && AllMarked(n + 1, out + [Ordinary(n)])
  {
    var entry := Ordinary(n);
    var next := out + [entry];
    Appended(out, entry, n);
    assert next[|out|] == entry;
    forall p | 0 <= p < |next| && next[p].Gap? ensures ExactGap(calls, next, p) {
      assert next[p] == out[p];
      StillExact(calls, Call(1, true, true), out, entry, p);
    }
    forall i | Lost(next, i) && i < n + 1 ensures GapAfter(next, |next|, i) {
      var p :| 0 <= p < |out| && out[p].Gap? && out[p].call > i;
      assert next[p] == out[p];
    }
  }

  lemma EmitSound(calls: seq<Call>, c: Call, e: Emitter)
    requires History(calls, |calls|, e.outbox) && Remembered(calls, e)
    ensures var e' := Emit(e, |calls|, c);
            History(calls + [c], |calls| + 1, e'.outbox) && (c.at != 0 ==> Remembered(calls + [c], e'))
  {
    var n, later := |calls|, calls + [c];
    var pending := e.gapFrom != 0;
    if pending && !c.gapAccepted {
      var f :| 0 <= f < |calls| && FirstLost(e.outbox, |e.outbox|, f) && e.gapFrom == calls[f].at;
      assert later[f] == calls[f];
      Widen(calls, c, e.outbox);
      return;
    }
    var out := if pending then e.outbox + [Gap(n, e.gapFrom, c.at)] else e.outbox;
    if pending {
      GapStep(calls, c, e);
    } else {
      Widen(calls, c, out);
    }
    assert Ordinary(n) !in out;
    if c.eventAccepted {
      OrdinaryStep(later, n, out);
    } else {
      assert FirstLost(out, |out|, n) && later[n] == c;
    }
  }

  lemma Widen(calls: seq<Call>, c: Call, out: seq<Entry>)
    requires History(calls, |calls|, out)
    ensures History(calls + [c], |calls| + 1, out)
  {
    forall p | 0 <= p < |out| && out[p].Gap? ensures ExactGap(calls + [c], out, p) {
      var f :| 0 <= f < out[p].call && f < |calls| && FirstLost(out, p, f) && out[p].from == calls[f].at;
      assert (calls + [c])[f] == calls[f];
    }
  }

  /** Whatever appends fail, in every run of events with non-zero times: each lost event is
      followed by a gap before any later ordinary event, each gap starts at the first event lost
      since the previous gap, and losses not yet marked are remembered. */
  lemma {:induction false} RunSound(calls: seq<Call>)
    requires Timed(calls)
    ensures NoSilentLoss(Run(calls).outbox)
    ensures forall p :: 0 <= p < |Run(calls).outbox| && Run(calls).outbox[p].Gap? ==> ExactGap(calls, Run(calls).outbox, p)
    ensures History(calls, |calls|, Run(calls).outbox) && Remembered(calls, Run(calls))
  {
    if calls != [] {
      var n := |calls| - 1;
      RunSound(calls[..n]);
      EmitSound(calls[..n], calls[n], Run(calls[..n]));
      assert calls[..n] + [calls[n]] == calls;
    }
  }

  // ---------- The zero time ----------

  function Times(calls: seq<Call>): (ts: seq<int>)
    ensures |ts| == |calls| && forall i :: 0 <= i < |calls| ==> ts[i] == calls[i].at
  {
    seq(|calls|, i requires 0 <= i < |calls| => calls[i].at)
  }

  /** No pattern of refused appends makes a run with these times lose an event silently. */
  ghost predicate SafeTimes(times: seq<int>) {
    forall calls :: Times(calls) == times ==> NoSilentLoss(Run(calls).outbox)
  }

  /** Events at these times, the outbox refusing the event of call `i` only. */
  function RefusingOne(times: seq<int>, i: int): (calls: seq<Call>)
    ensures Times(calls) == times && forall k :: 0 <= k < |times| ==> calls[k] == Call(times[k], true, k != i)
  {
    seq(|times|, k requires 0 <= k < |times| => Call(times[k], true, k != i))
  }

  /** If the refused event has the zero time, the run forgets it: no gap is ever pending. */
  lemma {:induction false} ForgottenLoss(times: seq<int>, i: nat, k: nat)
    requires i < |times| && times[i] == 0 && k <= |times|
    ensures var e := Run(RefusingOne(times, i)[..k]);
            && e.gapFrom == 0 && (forall p :: 0 <= p < |e.outbox| ==> e.outbox[p].Ordinary? && e.outbox[p].call != i)
            && (k > 0 && k - 1 != i ==> e.outbox != [] && e.outbox[|e.outbox| - 1] == Ordinary(k - 1))
  {
    if k > 0 {
      ForgottenLoss(times, i, k - 1);
      assert RefusingOne(times, i)[..k][..k - 1] == RefusingOne(times, i)[..k - 1];
    }
  }

  /** An event with the zero time that is not the last can disappear without a gap. */
  lemma {:induction false} ZeroTimeLost(times: seq<int>, i: nat)
    requires i < |times| - 1 && times[i] == 0
    ensures !NoSilentLoss(Run(RefusingOne(times, i)).outbox)
  {
    var n, calls := |times|, RefusingOne(times, i);
    ForgottenLoss(times, i, n);
    assert calls[..n] == calls;
    var out := Run(calls).outbox;
    var q := |out| - 1;
    assert Lost(out, i) && out[q].Ordinary? && out[q].call > i && !GapAfter(out, q, i);
  }

  lemma {:induction false} TimedButLast(calls: seq<Call>)
    requires forall i :: 0 <= i < |calls| - 1 ==> calls[i].at != 0
    ensures NoSilentLoss(Run(calls).outbox)
  {
    if calls != [] {
      var n := |calls| - 1;
      RunSound(calls[..n]);
      EmitSound(calls[..n], calls[n], Run(calls[..n]));
    }
  }

  /** Events at these times are safe whatever the outbox refuses exactly when every time but the
      last is non-zero. */
  lemma {:induction false} SafeExactlyWhenTimed(times: seq<int>)
    ensures SafeTimes(times) <==> forall i :: 0 <= i < |times| - 1 ==> times[i] != 0
  {
    if i :| 0 <= i < |times| - 1 && times[i] == 0 {
      ZeroTimeLost(times, i);
    } else {
      forall calls | Times(calls) == times ensures NoSilentLoss(Run(calls).outbox) {
        TimedButLast(calls);
      }
    }
  }
}
