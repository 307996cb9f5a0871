/** The `*` matcher used for container names, namespaces and user names: a greedy
    left-to-right scan, proved equal to the declarative meaning of `*`. */
module Glob {
  import opened Text

  /** The meaning of a pattern: `*` stands for any substring, every other character for itself. */
  predicate Matches(pattern: string, value: string)
    decreases |pattern|
  {
    if pattern == "" then value == ""
    else if pattern[0] == '*' then
      exists k :: 0 <= k <= |value| && Matches(pattern[1..], value[k..])
    else
      value != "" && value[0] == pattern[0] && Matches(pattern[1..], value[1..])
  }

  /** What a scope selector accepts: both sides trimmed, and an empty pattern accepts nothing. */
  predicate Accepts(pattern: string, value: string) {
    Trim(pattern) != "" && Matches(Trim(pattern), Trim(value))
  }

  /** The pieces of a pattern between its stars; a pattern with n stars has n + 1 pieces. */
  function SplitStar(pattern: string): (parts: seq<string>)
    ensures |parts| >= 1
    ensures '*' in pattern <==> |parts| >= 2
  {
    if pattern == "" then [""]
    else if pattern[0] == '*' then
      assert pattern == [pattern[0]] + pattern[1..];
      [""] + SplitStar(pattern[1..])
    else
      assert pattern == [pattern[0]] + pattern[1..];
      var rest := SplitStar(pattern[1..]);
      [[pattern[0]] + rest[0]] + rest[1..]
  }

  /** The value consists of the pieces in order, with arbitrary text between consecutive pieces. */
  predicate PartsMatch(parts: seq<string>, value: string)
    requires |parts| >= 1
    decreases |parts|, 0
  {
    if |parts| == 1 then value == parts[0]
    else parts[0] <= value && Anywhere(parts[1..], value[|parts[0]|..])
  }

  /** The pieces match some suffix of the value, as they do after a star. */
  predicate Anywhere(parts: seq<string>, value: string)
    requires |parts| >= 1
    decreases |parts|, 1
  {
    exists k :: 0 <= k <= |value| && PartsMatch(parts, value[k..])
  }

  lemma {:induction false} SplitMeaning(pattern: string, value: string)
    ensures Matches(pattern, value) <==> PartsMatch(SplitStar(pattern), value)
    decreases |pattern|
  {
    if pattern == "" {
    } else if pattern[0] == '*' {
      var parts := SplitStar(pattern);
      var rest := SplitStar(pattern[1..]);
      assert parts[1..] == rest && value[0..] == value;
      forall k | 0 <= k <= |value|
        ensures Matches(pattern[1..], value[k..]) <==> PartsMatch(rest, value[k..])
      {
        SplitMeaning(pattern[1..], value[k..]);
      }
      assert Matches(pattern, value) <==> Anywhere(rest, value);
    } else if value == "" {
    } else {
      var parts := SplitStar(pattern);
      var rest := SplitStar(pattern[1..]);
      SplitMeaning(pattern[1..], value[1..]);
      assert parts[1..] == rest[1..];
      assert value == [value[0]] + value[1..];
      if |rest| > 1 && value[0] == pattern[0] && rest[0] <= value[1..] {
        assert value[1..][|rest[0]|..] == value[|parts[0]|..];
      }
    }
  }

  /** A text that occurs somewhere in `value`. */
  predicate OccursAt(value: string, part: string, at: int) {
    0 <= at && at + |part| <= |value| && value[at..at + |part|] == part
  }

  lemma PrefixOccurs(value: string, part: string, k: int)
    requires 0 <= k <= |value|
    ensures part <= value[k..] <==> OccursAt(value, part, k)
  {
    if k + |part| <= |value| {
      assert value[k..][..|part|] == value[k..k + |part|];
    }
  }

  method IndexOf(value: string, part: string) returns (index: int)
    ensures index == -1 ==> forall i :: !OccursAt(value, part, i)
    ensures index != -1 ==> OccursAt(value, part, index) && forall i :: i < index ==> !OccursAt(value, part, i)
  {
    var i := 0;
    while i + |part| <= |value|
      invariant 0 <= i
      invariant forall j :: j < i ==> !OccursAt(value, part, j)
    {
      if value[i..i + |part|] == part {
        return i;
      }
      i := i + 1;
    }
    return -1;
  }

  /** Skipping an empty piece loses nothing: two stars in a row are one star. */
  lemma EmptyPart(rest: seq<string>, value: string)
    requires |rest| >= 1
    ensures Anywhere([""] + rest, value) <==> Anywhere(rest, value)
  {
    var parts := [""] + rest;
    assert parts[1..] == rest;
    if Anywhere(rest, value) {
      var k :| 0 <= k <= |value| && PartsMatch(rest, value[k..]);
      assert value[0..] == value && PartsMatch(parts, value[0..]);
    }
    if Anywhere(parts, value) {
      var k :| 0 <= k <= |value| && PartsMatch(parts, value[k..]);
      assert Anywhere(rest, value[k..][0..]);
      var m :| 0 <= m <= |value[k..]| && PartsMatch(rest, value[k..][0..][m..]);
      assert value[k..][0..][m..] == value[k + m..];
    }
  }

  /** The greedy choice: taking the leftmost occurrence of a piece never loses a match. */
  lemma LeftmostSuffices(part: string, rest: seq<string>, value: string, index: int)
    requires |rest| >= 1
    requires OccursAt(value, part, index) && forall i :: i < index ==> !OccursAt(value, part, i)
    ensures Anywhere([part] + rest, value) <==> Anywhere(rest, value[index + |part|..])
  {
    var parts := [part] + rest;
    var tail := value[index + |part|..];
    assert parts[1..] == rest;
    if Anywhere(rest, tail) {
      assert value[index..][|part|..] == tail && part == value[index..][..|part|];
      assert PartsMatch(parts, value[index..]);
    }
    if Anywhere(parts, value) {
      var k :| 0 <= k <= |value| && PartsMatch(parts, value[k..]);
      PrefixOccurs(value, part, k);
      assert Anywhere(rest, value[k..][|part|..]);
      var m :| 0 <= m <= |value[k..][|part|..]| && PartsMatch(rest, value[k..][|part|..][m..]);
      var shift := k + m - index;
      assert 0 <= shift <= |tail| && tail[shift..] == value[k..][|part|..][m..];
    }
  }

  lemma MissingPart(part: string, rest: seq<string>, value: string)
    requires forall i :: !OccursAt(value, part, i)
    ensures !Anywhere([part] + rest, value)
  {
    forall k | 0 <= k <= |value|
      ensures !PartsMatch([part] + rest, value[k..])
    {
      PrefixOccurs(value, part, k);
    }
  }

  /** The closing suffix test cannot reach back over text that earlier pieces used: the last
      piece was found at or after `pos`, so its occurrence at the end starts there too. */
  lemma LastPart(value: string, pos: nat, last: string)
    requires pos <= |value|
    requires exists i :: OccursAt(value[pos..], last, i)
    ensures Anywhere([last], value[pos..]) <==> HasSuffix(value, last)
  {
    var tail := value[pos..];
    if HasSuffix(value, last) {
      var k := |tail| - |last|;
      assert tail[k..] == value[|value| - |last|..];
      assert PartsMatch([last], tail[k..]);
    }
    if Anywhere([last], tail) {
      var k :| 0 <= k <= |tail| && PartsMatch([last], tail[k..]);
      assert tail[k..] == value[pos + k..];
    }
  }

  method WildcardMatch(rawPattern: string, rawValue: string) returns (matched: bool)
    ensures matched <==> Accepts(rawPattern, rawValue)
  {
    var pattern, value := Trim(rawPattern), Trim(rawValue);
    if pattern == "" {
      return false;
    }
    SplitMeaning(pattern, value);
    if '*' !in pattern {
      assert SplitStar(pattern) == [pattern] by { NoStar(pattern); }
      return pattern == value;
    }
    if pattern == "*" {
      assert Matches("", value[|value|..]);
      return true;
    }
    var parts := SplitStar(pattern);
    var pos := 0;
    if parts[0] != "" {
      if !(parts[0] <= value) {
        return false;
      }
      pos := |parts[0]|;
    }
    var i := 1;
    while i < |parts|
      invariant 1 <= i <= |parts| && 0 <= pos <= |value|
      invariant i < |parts| ==> (PartsMatch(parts, value) <==> Anywhere(parts[i..], value[pos..]))
      invariant i == |parts| ==>
          (PartsMatch(parts, value) <==> parts[|parts| - 1] == "" || HasSuffix(value, parts[|parts| - 1]))
    {
      var part := parts[i];
      ghost var rest := parts[i + 1..];
      assert parts[i..] == [part] + rest;
      if part == "" {
        if i + 1 < |parts| {
          EmptyPart(rest, value[pos..]);
        } else {
          assert value[pos..][|value| - pos..] == part && PartsMatch([part], value[pos..][|value| - pos..]);
        }
        i := i + 1;
        continue;
      }
      var index := IndexOf(value[pos..], part);
      if index < 0 {
        MissingPart(part, rest, value[pos..]);
        return false;
      }
      if i + 1 < |parts| {
        LeftmostSuffices(part, rest, value[pos..], index);
        assert value[pos..][index + |part|..] == value[pos + index + |part|..];
      } else {
        LastPart(value, pos, part);
        assert parts[i..] == [part];
      }
      pos := pos + index + |part|;
      i := i + 1;
    }
    var last := parts[|parts| - 1];
    return last == "" || HasSuffix(value, last);
  }

  lemma NoStar(pattern: string)
    requires '*' !in pattern
    ensures SplitStar(pattern) == [pattern]
  {
    if pattern != "" {
      NoStar(pattern[1..]);
      assert pattern == [pattern[0]] + pattern[1..];
    }
  }
}
