/** Does a process fall under an authorization? Lookups can fail, so the answer has three values. */
module Scope {
  import opened Options
  import opened Text
  import opened Seqs
  import opened Model
  import Glob

  /** One row of a GPU process sample. */
  datatype Row = Row(pid: int, gpu: int, memBytes: int, memUnknown: bool)

  /** What is known of a process. */
  datatype Info = Info(pid: int, uid: int, username: string, startTime: int, containerID: string, commandPath: string, cgroup: string)

  datatype InfoResult = InfoFound(info: Info) | NoProcess | InfoError

  datatype Lookup = Found(name: string) | NotFound | Unavailable

  /** The outside world as one pass sees it: every lookup gives the same answer throughout the pass. */
  datatype Env = Env(
    exists': int -> bool, info: int -> InfoResult, hasRuntime: bool, dockerName: string -> Lookup,
    namespaceOf: string -> Lookup, username: int -> Lookup, inCgroup: (string, string, string) -> bool,
    bootID: string, now: int)

  datatype Verdict = Yes | No | Inconclusive

  function Sure(b: bool): Verdict { if b then Yes else No }

  predicate SameContainer(x: string, y: string) {
    var a, b := Lower(Trim(x)), Lower(Trim(y));
    && a != "" && b != ""
    && (a == b || (|a| <= |b| && |a| >= 12 && HasPrefix(b, a)) || (|b| < |a| && |b| >= 12 && HasPrefix(a, b)))
  }

  /** A runtime lookup of a container, then a test of the name it gives. */
  function Looked(env: Env, containerID: string, found: Lookup, test: string -> bool): Verdict {
    if containerID == "" then No
    else if !env.hasRuntime then Inconclusive
    else match found
         case Found(name) => Sure(test(name))
         case NotFound => No
         case Unavailable => Inconclusive
  }

  function GlobTest(pattern: string): string -> bool {
    (name: string) => Glob.Accepts(pattern, name)
  }

  function ExactTest(want: string): string -> bool {
    (name: string) => name == want
  }

  function UserVerdict(env: Env, a: Authorization, info: Info): Verdict {
    if info.uid < 0 then Inconclusive
    else if a.uid >= 0 then Sure(info.uid == a.uid)
    else if info.username != "" then Sure(a.username != "" && GlobTest(a.username)(info.username))
    else match env.username(info.uid)
         case Found(name) => Sure(a.username != "" && GlobTest(a.username)(name))
         case _ => Inconclusive
  }

  /** Whether the process lies in the scope the authorization names, its validity aside. */
  function ScopeVerdict(env: Env, a: Authorization, info: Info): Verdict {
    match a.mode
    case Bare => Sure(env.inCgroup(info.cgroup, a.cgroupRel, a.cgroupPath))
    case Docker =>
      if a.containerPattern != "" then Looked(env, info.containerID, env.dockerName(info.containerID), GlobTest(a.containerPattern))
      else Sure(SameContainer(info.containerID, a.containerID))
    case K8s => Looked(env, info.containerID, env.namespaceOf(info.containerID), GlobTest(a.namespace))
    case User => UserVerdict(env, a, info)
    case OtherScope => No
  }

  function LeaseVerdict(env: Env, e: Lease, info: Info): Verdict {
    match e.mode
    case Bare => Sure(env.inCgroup(info.cgroup, e.cgroupRel, e.cgroupPath))
    case Docker => Sure(SameContainer(info.containerID, e.containerID))
    case K8s => Looked(env, info.containerID, env.namespaceOf(info.containerID), ExactTest(e.namespace))
    case _ => No
  }

  // ---------- Bypasses ----------

  predicate BypassedBy(b: Bypass, info: Info, now: int, bootID: string) {
    && !b.revoked && now < b.expiresAt
    && match b.kind
       case ByPID => bootID != "" && b.bootID == bootID && b.pid == info.pid && b.startTime != 0 && b.startTime == info.startTime
       case ByCommand => b.uid == 0 && info.uid == 0 && b.command != "" && b.command == info.commandPath
       case OtherBypass => false
  }

  predicate Bypassed(bs: seq<Bypass>, info: Info, now: int, bootID: string) {
    exists i :: 0 <= i < |bs| && BypassedBy(bs[i], info, now, bootID)
  }

  // ---------- Candidates ----------

  /** The token a Go map from hashes to tokens, filled in order, holds for a hash: the last one. */
  function TokenOf(ts: seq<Token>, hash: string): (t: Option<Token>)
    ensures t.Some? ==> t.value in ts && t.value.hash == hash
    ensures t.None? ==> forall i :: 0 <= i < |ts| ==> ts[i].hash != hash
  {
    if ts == [] then None
    else if ts[|ts| - 1].hash == hash then Some(ts[|ts| - 1])
    else TokenOf(ts[..|ts| - 1], hash)
  }

  /** Which authorizations a match may use: those of some hashes only, those of claimed or managed
      tokens only. */
  datatype Choice = Choice(hashes: Option<set<string>>, soft: bool)

  predicate SoftMode(mode: TokenMode) { mode == Claimed || mode == Managed }

  /** The authorization is currently valid, by its own flags and by its token. */
  predicate Entitled(ts: seq<Token>, a: Authorization, now: int) {
    && AuthorizationUsable(a, now)
    && var t := TokenOf(ts, a.tokenHash);
       t.Some? && TokenUsable(t.value, now) && (t.value.managed ==> a.tokenVersion == t.value.version)
  }

  predicate Candidate(ts: seq<Token>, choice: Choice, a: Authorization, now: int) {
    && Entitled(ts, a, now)
    && (choice.hashes.Some? ==> a.tokenHash in choice.hashes.value)
    && (choice.soft ==> SoftMode(TokenOf(ts, a.tokenHash).value.mode))
  }

  datatype Match = Matched(authorization: Authorization) | NoMatch | Unresolved

  function Hits(env: Env, ts: seq<Token>, choice: Choice, info: Info): Authorization -> bool {
    (a: Authorization) => Candidate(ts, choice, a, env.now) && ScopeVerdict(env, a, info) == Yes
  }

  function Doubts(env: Env, ts: seq<Token>, choice: Choice, info: Info): Authorization -> bool {
    (a: Authorization) => Candidate(ts, choice, a, env.now) && ScopeVerdict(env, a, info) == Inconclusive
  }

  /** The first candidate that matches; failing that, whether any candidate was in doubt. */
  function MatchAny(env: Env, l: Ledger, choice: Choice, info: Info): Match {
    var k := Find(l.authorizations, Hits(env, l.tokens, choice, info));
    if k < |l.authorizations| then Matched(l.authorizations[k])
    else if Find(l.authorizations, Doubts(env, l.tokens, choice, info)) < |l.authorizations| then Unresolved
    else NoMatch
  }

  /** A process is matched exactly when some candidate certainly covers it, and found unmatched
      exactly when every candidate was resolved as not covering it. */
  lemma MatchAnyMeaning(env: Env, l: Ledger, choice: Choice, info: Info)
    ensures MatchAny(env, l, choice, info).Matched?
            <==> exists i :: 0 <= i < |l.authorizations| && Candidate(l.tokens, choice, l.authorizations[i], env.now)
                             && ScopeVerdict(env, l.authorizations[i], info) == Yes
    ensures MatchAny(env, l, choice, info).NoMatch?
            <==> forall i :: 0 <= i < |l.authorizations| && Candidate(l.tokens, choice, l.authorizations[i], env.now)
                             ==> ScopeVerdict(env, l.authorizations[i], info) == No
  {
    var k := Find(l.authorizations, Hits(env, l.tokens, choice, info));
    var d := Find(l.authorizations, Doubts(env, l.tokens, choice, info));
    assert forall i :: 0 <= i < |l.authorizations| && Hits(env, l.tokens, choice, info)(l.authorizations[i]) ==> k < |l.authorizations|;
    assert forall i :: 0 <= i < |l.authorizations| && Doubts(env, l.tokens, choice, info)(l.authorizations[i]) ==> d < |l.authorizations|;
  }

  /** The loop: skip what cannot be used, stop at the first match, remember failed lookups. */
  method MatchAnyAuthorization(env: Env, l: Ledger, choice: Choice, info: Info) returns (m: Match)
    ensures m == MatchAny(env, l, choice, info)
  {
    var hit, doubt := Hits(env, l.tokens, choice, info), Doubts(env, l.tokens, choice, info);
    var doubted := false;
    for i := 0 to |l.authorizations|
      invariant forall j :: 0 <= j < i ==> !hit(l.authorizations[j])
      invariant doubted <==> exists j :: 0 <= j < i && doubt(l.authorizations[j])
    {
      var a := l.authorizations[i];
      if !Candidate(l.tokens, choice, a, env.now) {
        continue;
      }
      match ScopeVerdict(env, a, info) {
        case Yes => return Matched(a);
        case No =>
        case Inconclusive => doubted := true;
      }
    }
    m := if doubted then Unresolved else NoMatch;
  }

  // ---------- Leases ----------

  function LeaseHits(env: Env, info: Info): Lease -> bool {
    (e: Lease) => e.active && env.now < e.expiresAt && LeaseVerdict(env, e, info) == Yes
  }

  function LeaseDoubts(env: Env, info: Info): Lease -> bool {
    (e: Lease) => e.active && env.now < e.expiresAt && LeaseVerdict(env, e, info) == Inconclusive
  }

  datatype LeaseMatch = LeaseMatched(id: string) | NoLease | LeaseUnresolved

  function MatchLease(env: Env, leases: seq<Lease>, info: Info): LeaseMatch {
    var k := Find(leases, LeaseHits(env, info));
    if k < |leases| then LeaseMatched(leases[k].id)
    else if Find(leases, LeaseDoubts(env, info)) < |leases| then LeaseUnresolved
    else NoLease
  }

  method MatchesAnyLease(env: Env, leases: seq<Lease>, info: Info) returns (m: LeaseMatch)
    ensures m == MatchLease(env, leases, info)
  {
    var hit, doubt := LeaseHits(env, info), LeaseDoubts(env, info);
    var doubted := false;
    for i := 0 to |leases|
      invariant forall j :: 0 <= j < i ==> !hit(leases[j])
      invariant doubted <==> exists j :: 0 <= j < i && doubt(leases[j])
    {
      var e := leases[i];
      if e.active && env.now < e.expiresAt {
        match LeaseVerdict(env, e, info) {
          case Yes => return LeaseMatched(e.id);
          case No =>
          case Inconclusive => doubted := true;
        }
      }
    }
    m := if doubted then LeaseUnresolved else NoLease;
  }
}
