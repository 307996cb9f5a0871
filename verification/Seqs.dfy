/** Slices as the store handles them: filtering, updating the first match, updating every match. */
module Seqs {

  function Filter<T>(s: seq<T>, keep: T -> bool): (r: seq<T>)
    ensures |r| <= |s|
  {
    if s == [] then []
    else
      var n := |s| - 1;
      Filter(s[..n], keep) + if keep(s[n]) then [s[n]] else []
  }

  /** The position of the first element that `pick` accepts, or the length. */
  function Find<T>(s: seq<T>, pick: T -> bool): (k: nat)
    ensures k <= |s|
    ensures k < |s| ==> pick(s[k])
    ensures forall i :: 0 <= i < k ==> !pick(s[i])
  {
    if s == [] then 0
    else if pick(s[0]) then 0
    else
      var k := Find(s[1..], pick);
      assert forall i :: 1 <= i < 1 + k ==> s[i] == s[1..][i - 1];
      1 + k
  }

  function Map<T>(s: seq<T>, f: T -> T): (r: seq<T>)
    ensures |r| == |s| && forall i :: 0 <= i < |s| ==> r[i] == f(s[i])
  {
    seq(|s|, i requires 0 <= i < |s| => f(s[i]))
  }

  lemma Assoc<T>(a: seq<T>, b: seq<T>, c: seq<T>)
    ensures a + b + c == a + (b + c)
  {
  }

  ghost predicate Pairwise<T(!new)>(s: seq<T>, ok: (T, T) -> bool) {
    forall i, j :: 0 <= i < j < |s| ==> ok(s[i], s[j])
  }

  lemma {:induction false} FilterMembers<T>(s: seq<T>, keep: T -> bool)
    ensures forall x :: x in Filter(s, keep) <==> x in s && keep(x)
  {
    forall x ensures x in Filter(s, keep) <==> x in s && keep(x) {
      FilterMember(s, keep, x);
    }
  }

  lemma {:induction false} FilterMember<T>(s: seq<T>, keep: T -> bool, x: T)
    ensures x in Filter(s, keep) <==> x in s && keep(x)
  {
    if s != [] {
      var n := |s| - 1;
      FilterMember(s[..n], keep, x);
      assert x in s <==> x in s[..n] || x == s[n];
    }
  }

  /** A filter that removes nothing changes nothing. */
  lemma {:induction false} FilterAll<T>(s: seq<T>, keep: T -> bool)
    requires |Filter(s, keep)| == |s|
    ensures Filter(s, keep) == s
  {
    if s != [] {
      var n := |s| - 1;
      FilterAll(s[..n], keep);
      assert s == s[..n] + [s[n]];
    }
  }

  lemma {:induction false} FilterPairwise<T(!new)>(s: seq<T>, keep: T -> bool, ok: (T, T) -> bool)
    requires Pairwise(s, ok)
    ensures Pairwise(Filter(s, keep), ok)
  {
    if s != [] {
      var n := |s| - 1;
      FilterPairwise(s[..n], keep, ok);
      FilterMembers(s[..n], keep);
      var r := Filter(s[..n], keep);
      forall i | 0 <= i < |r| ensures ok(r[i], s[n]) {
        assert r[i] in s[..n];
        var k :| 0 <= k < n && s[..n][k] == r[i];
        assert s[k] == r[i];
      }
    }
  }

  lemma {:induction false} SameFilter<T>(s: seq<T>, f: T -> bool, g: T -> bool)
    requires forall x :: x in s ==> f(x) == g(x)
    ensures Filter(s, f) == Filter(s, g)
  {
    if s != [] {
      SameFilter(s[..|s| - 1], f, g);
    }
  }

  lemma AppendPairwise<T(!new)>(s: seq<T>, t: seq<T>, ok: (T, T) -> bool)
    requires Pairwise(s, ok) && Pairwise(t, ok)
    requires forall x, y :: x in s && y in t ==> ok(x, y)
    ensures Pairwise(s + t, ok)
  {
  }

  /** The in-place filter loop `out := s[:0]; for x in s { if keep { out = append(out, x) } }`. */
  method FilterSlice<T>(s: seq<T>, keep: T -> bool) returns (r: seq<T>)
    ensures r == Filter(s, keep)
  {
    r := [];
    for i := 0 to |s|
      invariant r == Filter(s[..i], keep)
    {
      assert s[..i + 1][..i] == s[..i];
      if keep(s[i]) {
        r := r + [s[i]];
      }
    }
    assert s[..|s|] == s;
  }

  method FindFirst<T>(s: seq<T>, pick: T -> bool) returns (k: nat)
    ensures k == Find(s, pick)
  {
    k := 0;
    while k < |s| && !pick(s[k])
      invariant 0 <= k <= |s| && forall i :: 0 <= i < k ==> !pick(s[i])
    {
      k := k + 1;
    }
  }

  /** The loop `for i := range s { s[i] = f(s[i]) }`. */
  method MapSlice<T>(s: seq<T>, f: T -> T) returns (r: seq<T>)
    ensures r == Map(s, f)
  {
    r := s;
    for i := 0 to |s|
      invariant |r| == |s|
      invariant forall j :: 0 <= j < i ==> r[j] == f(s[j])
      invariant forall j :: i <= j < |s| ==> r[j] == s[j]
    {
      r := r[i := f(r[i])];
    }
  }
}
