/** The store keeps two copies of each slice: the working one, which operations filter in place,
    and the committed one, which a failed save restores. They must not share an array. */
module Slices {
  import opened Seqs

  /** The in-place filter: kept elements are moved to the front of the same array. */
  method FilterInPlace<T>(a: array<T>, n: nat, keep: T -> bool) returns (m: nat)
    requires n <= a.Length
    modifies a
    ensures m <= n && a[..m] == Filter(old(a[..n]), keep) && a[m..] == old(a[m..])
  {
    m := 0;
    ghost var was := a[..];
    for i := 0 to n
      invariant m <= i
      invariant a[..m] == Filter(was[..i], keep) && a[m..] == was[m..]
    {
      assert was[..i + 1][..i] == was[..i];
      assert a[i] == a[m..][i - m] == was[i];
      if keep(a[i]) {
        a[m] := a[i];
        m := m + 1;
        assert a[m..] == was[m..];
      }
    }
    assert was[..n] == old(a[..n]);
  }

  /** What becomes of a second slice over the same array: it survives the filter exactly when the
      kept elements were a prefix already. */
  lemma SharedCopySurvives<T>(s: seq<T>, keep: T -> bool)
    ensures var r := Filter(s, keep); r + s[|r|..] == s <==> r <= s
  {
    var r := Filter(s, keep);
    if r <= s {
      assert s == s[..|r|] + s[|r|..];
    }
  }

  method SharedFilter<T>(a: array<T>, keep: T -> bool) returns (m: nat)
    modifies a
    ensures m <= a.Length && a[..m] == Filter(old(a[..]), keep)
    ensures a[..] == old(a[..]) <==> Filter(old(a[..]), keep) <= old(a[..])
  {
    ghost var was := a[..];
    assert a[..a.Length] == was;
    m := FilterInPlace(a, a.Length, keep);
    SharedCopySurvives(was, keep);
    assert a[..] == a[..m] + a[m..];
  }

  method Clone<T>(a: array<T>, n: nat) returns (b: array<T>)
    requires n <= a.Length
    ensures fresh(b) && b[..] == a[..n]
  {
    b := new T[n](i requires 0 <= i < n reads a => a[i]);
  }

  /** The loop `for i := range s { s[i] = f(s[i]) }` on the array itself. */
  method MapInPlace<T>(a: array<T>, n: nat, f: T -> T)
    requires n <= a.Length
    modifies a
    ensures a[..n] == Map(old(a[..n]), f) && a[n..] == old(a[n..])
  {
    ghost var was := a[..];
    for i := 0 to n
      invariant forall j :: 0 <= j < i ==> a[j] == f(was[j])
      invariant forall j :: i <= j < a.Length ==> a[j] == was[j]
    {
      a[i] := f(a[i]);
    }
  }

  /** One slice of the store with its committed copy: the working array with its length, whose spare
      room appends may use, and an array of its own for the copy. */
  class Copies<T> {
    var live: array<T>
    var len: nat
    var committed: array<T>

    ghost predicate Valid()
      reads this
    {
      len <= live.Length && live != committed
    }

    ghost predicate Empty()
      reads this
    {
      Valid() && len == live.Length == committed.Length == 0
    }

    ghost function State(): seq<T>
      requires Valid()
      reads this, live
    {
      live[..len]
    }

    ghost function Saved(): seq<T>
      reads this, committed
    {
      committed[..]
    }

    constructor ()
      ensures Empty() && fresh(live) && fresh(committed)
    {
      live := new T[0];
      committed := new T[0];
      len := 0;
    }

    /** Writes into the spare room if there is any, else moves to a larger array. */
    method Append(x: T)
      requires Valid()
      modifies this`live, this`len, live
      ensures Valid() && State() == old(State()) + [x]
      ensures Saved() == old(Saved()) && (live == old(live) || fresh(live))
    {
      if len == live.Length {
        var a, n := live, len;
        live := new T[2 * n + 1](i requires 0 <= i reads a requires n <= a.Length => if i < n then a[i] else x);
      } else {
        live[len] := x;
      }
      len := len + 1;
    }

    /** Keeps the elements chosen, in the same array. */
    method Retain(keep: T -> bool)
      requires Valid()
      modifies this`len, live
      ensures Valid() && State() == Filter(old(State()), keep) && Saved() == old(Saved())
    {
      len := FilterInPlace(live, len, keep);
    }

    /** Rewrites every element, in the same array. */
    method Rewrite(f: T -> T)
      requires Valid()
      modifies live
      ensures Valid() && State() == Map(old(State()), f) && Saved() == old(Saved())
    {
      MapInPlace(live, len, f);
    }

    method Set(k: nat, x: T)
      requires Valid() && k < len
      modifies live
      ensures Valid() && State() == old(State())[k := x] && Saved() == old(Saved())
    {
      live[k] := x;
    }

    /** Takes another slice, in an array of its own. */
    method Replace(s: seq<T>)
      requires Valid()
      modifies this`live, this`len
      ensures Valid() && State() == s && Saved() == old(Saved()) && fresh(live)
    {
      live := new T[|s|](i requires 0 <= i < |s| => s[i]);
      len := |s|;
    }

    /** Copies the working slice into a new committed array. */
    method Commit()
      requires Valid()
      modifies this`committed
      ensures Valid() && State() == old(State()) && Saved() == old(State()) && fresh(committed)
    {
      committed := Clone(live, len);
    }

    /** Goes back to what is committed, in a new working array. */
    method RollBack()
      requires Valid()
      modifies this`live, this`len
      ensures Valid() && State() == old(Saved()) && Saved() == old(Saved()) && fresh(live)
    {
      live := Clone(committed, committed.Length);
      len := live.Length;
    }
  }
}
