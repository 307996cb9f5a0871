# GPUardian in Dafny

GPUardian runs one daemon per GPU node. The daemon keeps a ledger of tokens, reservations,
authorizations and soft claims, samples the processes on its GPUs, and kills those that may not be
there; a gateway collects each node's telemetry. This project models the parts of that system whose
correctness is a matter of whole runs rather than of one call, and proves what they promise.

The modules follow the program:

- `Options`, `Text`, `Glob` — absent values, trimming and the `*` matcher for container names, namespaces and user names.
- `Model`, `Operations` — the records, one function per store operation, how a save can end, and
  runs of operations. `Reservations`, `Lifecycles`, `Integrity` and `Cutoff` prove what runs keep.
- `Seqs`, `Store` — slice loops, and the store object with its working state, its committed copy and
  its file. `Slices` and `Tables` are the same store with its slices as arrays that are edited in place.
- `Scope`, `Kills`, `Enforce` — three-valued scope matching, the kill budget, the enforcement
  planner with its loops. `Exclusivity`, `Coverage` and `Orders` prove what a pass decides.
- `Evict`, `Strays` — the eviction pass and its guarantees.
- `Monitor`, `Server` — the daemon's passes as a state machine and as loops. `Claims`, `Patience` and
  `Departures` prove what every run of passes, requests and restarts keeps; `Leftovers` is one run.
- `Emission`, `Outbox`, `Collector`, `Rollups`, `Sessions` — the telemetry pipeline.
- `Resolver`, `Lanes` — the single-flight cache and the calendar's lane allocator.

`dafny verify dfyconfig.toml` checks everything.

## What is assumed

- The clock does not run backwards; successive readings within a pass are ordered. Times are
  integers with 0 for the zero time.
- Generated ids and hashes are fresh: a new token's hash, a new reservation's, authorization's or
  claim's id is not in the ledger when it is issued, token ids start with `tok_` and reservation ids
  with `res_`. `Integrity.Allowed` says this operation by operation. Exclusivity of reservations
  (`Reservations`) and the monotone life of authorizations (`Lifecycles`) need none of it.
- Within one pass every lookup (process table, container runtime, user names) gives the same answer
  each time, and any of them may fail. They are functions in `Scope.Env`.
- A Go map may be visited in any order (`Enforce.VisitOrder`).
- Where a pass is cancelled, how each save ends, whether a cgroup could be stopped and whether kills
  succeeded are inputs (`Enforce.Deadline`, `Monitor.Round`, `Operations.SaveEnd`).
- The SQL tables are maps, and a transaction is one step that may abort. Cursors round-trip. No sample
  names a group that starts with `pending:`, which is what the gateway calls a session it has not confirmed.

Only the daemon's own calls are in the step relation: reservations are released by the cleanup once
they are revoked or over, and self-registered reservations are refused under managed keys
(internal/daemon/server.go:447-453). Claimed tokens may still appear under managed keys, because that
registration does not hold the enforcement mutex while it checks the mode.

## Where the code does less than one might expect

- A scope is released only after three clean samples in a row, but its record is pruned regardless of
  samples: a record that is no longer active goes in a pass exactly when that pass prunes
  (`Departures.ReleasedGoesExactlyWithPrune`). There is a run in which the pass that prunes it finds a
  process in the scope (`Leftovers.PrunedUnderAStray`). What does hold of pruning: a scope once watched and
  later gone was found clean three times in a row in between (`Departures.GoneWasCleanThrice`).
- The kill set depends on the order in which GPUs are visited exactly when the kills that each GPU would
  plan alone are more than eight together (`Orders.OrderMattersExactly`; a case of nine processes on two
  GPUs is `Orders.TwoOrdersTwoPlans`). Its size does not depend on the order (`Coverage.OrderDoesNotMatter`).
- A session GPU's summary equals the sum of its minute rollups if the session was opened with that GPU
  (`Sessions.MembersBalance`). A GPU that is sampled under the session's group before the group lists it
  keeps the difference for good (`Sessions.LateJoinerUnbalanced`); in general they are equal exactly when
  no window was recorded before the summary row was inserted (`Sessions.BalancedExactly`). The daemon
  gives every group all its GPUs at once, so this needs a node that reports otherwise.
- A window that does not consist of whole milliseconds loses time, possibly all of it
  (`Rollups.PartsExact`, `Rollups.UnalignedWindowDropped`).
- Telemetry events at given times are safe from silent loss, whatever the outbox refuses, exactly when
  every time but the last is non-zero (`Emission.SafeExactlyWhenTimed`, `Emission.ZeroTimeLost`).
- A result of the resolver that returned at one time and was published at another can reach a joining
  caller a lifetime too late exactly when it was published a lifetime or more after it returned
  (`Resolver.StaleExactlyWhenLate`).
- The prune that follows an outbox append keeps the event just written exactly when no older segment has
  the name of its segment, or the event is young enough and its segment within budget, or the prune stops
  at an older segment of another name (`Outbox.AfterWrite`). Only a failed write leaves a segment whose
  name is used again; `Outbox.LosesNewest` is a run that loses an event so, and an event not older than
  the retention time is never lost (`Outbox.Log.Append`).

## Model

| member | source | states |
|---|---|---|
| `Glob.WildcardMatch` | internal/enforce/enforce.go:1395-1428 | the greedy leftmost scan answers true exactly when the trimmed, non-empty pattern matches the trimmed value with `*` meaning any substring |
| `Glob.SplitMeaning` | internal/enforce/enforce.go:1409-1409 | cutting a pattern at its stars keeps its meaning: the pieces must occur in order, the first at the start and the last at the end |
| `Glob.LeftmostSuffices` | internal/enforce/enforce.go:1417-1425 | if the remaining pieces fit anywhere, they fit after the leftmost occurrence of the next one |
| `Glob.MissingPart` | internal/enforce/enforce.go:1422-1424 | if a piece does not occur, no placement exists |
| `Glob.EmptyPart` | internal/enforce/enforce.go:1419-1421 | skipping an empty piece loses nothing |
| `Glob.LastPart` | internal/enforce/enforce.go:1426-1427 | the final suffix test cannot be satisfied by characters an earlier piece used up |
| `Glob.IndexOf` | internal/enforce/enforce.go:1421-1421 | the first position at which a piece occurs, or -1 exactly when there is none |
| `Model.OverlapsMeansSharedInstant` | internal/model/model.go:84-96 | two proper windows overlap exactly when some instant lies in both |
| `Operations.RevokeShape` | internal/store/store.go:817-934 | a revocation either withdraws one managed group and changes nothing else, or marks in every table exactly the records that the id or the final hash names and leaves key mode and snapshot id alone |
| `Reservations.NoDoubleBooking` | internal/store/store.go:330-521 | in every ledger reached by any operations and any failed saves, two reservations occupying one GPU at one instant are the same record |
| `Reservations.RunKeeps` | internal/store/store.go:419-427 | no sequence of operations makes two standing reservations on one GPU meet |
| `Reservations.RequestIsApart` | internal/store/store.go:419-427 | an accepted request clashes neither with the ledger nor with itself |
| `Reservations.RevokingKeeps` | internal/store/store.go:817-934 | revocation keeps reservations exclusive |
| `Reservations.RekeyingKeeps` | internal/store/store.go:128-146 | key synchronisation keeps reservations exclusive |
| `Reservations.PruningKeeps` | internal/store/store.go:1590-1666 | both prunes that touch reservations keep them exclusive |
| `Reservations.AtMostOneActive` | internal/model/model.go:84-89 | exclusive windows mean at most one active reservation per GPU and instant |
| `Reservations.SnapshotInstalled` | internal/store/store.go:80-158 | an installed snapshot has pairwise distinct ids, hashes and owners; every reservation keeps GPU, window and flags, takes its owner's new hash if the owner is in the snapshot, else keeps its hash; nothing else changes |
| `Reservations.SnapshotIsDistinct` | internal/store/store.go:93-117 | a snapshot is accepted only with well-formed, pairwise distinguishable keys, and its tokens are theirs in the order given |
| `Reservations.RekeyedBooking` | internal/store/store.go:128-146 | one reservation under a new snapshot: same booking, its owner's hash |
| `Lifecycles.RunEvolves` | internal/store/store.go:675-755 | over every run, what is stored under an id evolved from what was stored under it: flags only towards the end, everything but flags and process unchanged |
| `Lifecycles.ProcessRecordedOnce` | internal/store/store.go:713-740 | a recorded root process never changes |
| `Lifecycles.DeadForEver` | internal/store/store.go:713-740 | an authorization revoked or released before its command started stays so over every run, and activating it is refused for ever |
| `Lifecycles.StepContinues` | internal/store/store.go:675-934 | every operation but adding one continues the authorizations there were |
| `Cutoff.SnapshotCutsOff` | internal/enforce/enforce.go:1016-1054 | once a snapshot is installed, an authorization with an absent hash or another version matches nothing in any later ledger until another snapshot replaces it |
| `Cutoff.RunLocked` | internal/store/store.go:147-153 | no operation short of another snapshot revives a hash and version that no stored token honours |
| `Cutoff.DeadNeverMatches` | internal/enforce/enforce.go:1023-1025 | a revoked or released authorization matches nothing in any later ledger |
| `Integrity.StepSound` | internal/store/store.go:80-934 | every operation the daemon issues, however its save ends, keeps hashes and ids distinct and every usable reserved token backed by a standing reservation |
| `Integrity.BackedStep` | internal/store/store.go:1590-1604 | no registration, release, key sync or prune leaves a usable reserved token without its reservation |
| `Integrity.RevokeTokensMeaning` | internal/store/store.go:878-884 | revoking tokens sets flags only, and every token under the final hash ends up revoked |
| `Integrity.RevokingByReservation` | internal/store/store.go:858-876 | revoking a self-registered reservation by its own id works through its token's hash |
| `Integrity.RevokedSound` | internal/store/store.go:817-934 | revocation keeps the ledger sound, in particular it never strands a usable reserved token |
| `Integrity.PrunedBacked` | internal/store/store.go:1590-1620 | pruning at an instant not later than the clock keeps every backing reservation |
| `Integrity.ClearedBacked` | internal/store/store.go:1204-1252 | clearing unreferenced entitlements keeps every backing reservation |
| `Store.Store.SaveLocked` | internal/store/store.go:1292-1327 | working state, committed copy and file agree after every save: on the new state if it was renamed, on the old one otherwise; success exactly if also synced |
| `Store.Store.RegisterSoftToken` | internal/store/store.go:296-316 | adds a claimed token if the total and per-holder limits allow; working state, committed copy and file agree afterwards, on the new ledger or the old one |
| `Store.Store.RegisterScheduledReservations` | internal/store/store.go:330-432 | refuses improper windows, bad or repeated GPUs, clashes and full tables, answers a repeated session from the ledger, else adds the token and its reservations; working state, committed copy and file agree afterwards |
| `Store.Store.RegisterManagedReservations` | internal/store/store.go:434-521 | adds reservations under an unrevoked managed key with the same refusals and session replay; working state, committed copy and file agree afterwards |
| `Store.Store.SyncManagedUserKeys` | internal/store/store.go:80-158 | refuses a malformed snapshot, does nothing for the current one, else replaces the tokens and re-keys the reservations; working state, committed copy and file agree afterwards |
| `Store.Store.AddAuthorization` | internal/store/store.go:675-689 | adds the authorization within the total and per-token limits; working state, committed copy and file agree afterwards |
| `Store.Store.ActivateAuthorization` | internal/store/store.go:713-740 | records a positive root process on the stored row, refused when absent, revoked, inactive or already started; working state, committed copy and file agree afterwards |
| `Store.Store.ReleaseAuthorization` | internal/store/store.go:742-755 | makes the stored row inactive, succeeding without a save when it is absent; working state, committed copy and file agree afterwards |
| `Store.Store.ReleaseReservation` | internal/store/store.go:660-673 | makes the reservation inactive, succeeding without a save when it is absent; working state, committed copy and file agree afterwards |
| `Store.Store.ReleaseLease` | internal/store/store.go:632-645 | makes the lease inactive, succeeding without a save when it is absent; working state, committed copy and file agree afterwards |
| `Store.Store.UpsertSoftClaim` | internal/store/store.go:757-780 | a claim of the same GPU and token is replaced under its old id, otherwise a claim with a fresh id is added; working state, committed copy and file agree afterwards |
| `Store.Store.ReleaseSoftClaim` | internal/store/store.go:782-802 | removes exactly the claims with the id and saves only if there was one; working state, committed copy and file agree afterwards |
| `Store.Store.AddBypass` | internal/store/store.go:804-815 | adds the rule within the limit; working state, committed copy and file agree afterwards |
| `Store.Store.Revoke` | internal/store/store.go:817-934 | performs the specified revocation, fails if nothing is named, saves nothing if nothing changes; working state, committed copy and file agree afterwards |
| `Store.Store.Prune` | internal/store/store.go:1139-1148 | removes exactly the dead records and saves only if there were any; working state, committed copy and file agree afterwards |
| `Store.Store.PruneInactiveManagedScopes` | internal/store/store.go:1155-1198 | removes exactly the named, inactive records with a cgroup; working state, committed copy and file agree afterwards |
| `Store.Store.PruneUnreferencedInvalidEntitlements` | internal/store/store.go:1204-1252 | removes exactly the invalid tokens and reservations that no scope outside a cgroup refers to; working state, committed copy and file agree afterwards |
| `Store.CheckMembers` | internal/store/store.go:352-361 | the `seen` loop accepts exactly in-range, pairwise distinct GPUs |
| `Store.FindConflict` | internal/store/store.go:419-427 | the nested loop finds a clash exactly when one exists |
| `Store.BuildTokens` | internal/store/store.go:93-117 | the three-set loop yields a token list exactly for well-formed, pairwise distinguishable keys |
| `Store.GoneHashes` | internal/store/store.go:1592-1607 | collects exactly the hashes whose tokens a prune removes |
| `Store.PruneRecords` | internal/store/store.go:1590-1666 | the filter loops compute the specified ledger and report a change exactly if there is one |
| `Store.RevokeNamed` | internal/store/store.go:817-934 | the marking loops compute the specified revocation |
| `Slices.FilterInPlace` | internal/store/store.go:1595-1607 | the in-place filter moves exactly the kept elements to the front and leaves the tail of the array as it was |
| `Slices.SharedFilter` | internal/store/store.go:1595-1607 | a second slice over the same array survives the filter exactly when the kept elements were a prefix already |
| `Slices.MapInPlace` | internal/store/store.go:887-925 | the in-place loop rewrites exactly the elements of the slice and leaves the spare part of the array alone |
| `Slices.Copies.Append` | internal/store/store.go:757-780 | an append uses spare room or moves to a larger array; either way the committed copy is untouched |
| `Slices.Copies.Retain` | internal/store/store.go:1595-1607 | filtering the working array leaves the committed one untouched |
| `Slices.Copies.Rewrite` | internal/store/store.go:887-925 | rewriting the working array in place leaves the committed one untouched |
| `Slices.Clone` | internal/store/store.go:1678-1694 | a clone has the same contents in a new array |
| `Tables.Tables.SaveLocked` | internal/store/store.go:1292-1327 | on arrays: working state, committed copy and file agree after every save that passes the bounds and every one that does not, and no table's two arrays are the same |
| `Tables.Tables.Prune` | internal/store/store.go:1139-1148 | on arrays filtered in place: the specified prune, saved only if something went, and the three copies agree afterwards |
| `Tables.Tables.Revoke` | internal/store/store.go:817-934 | on arrays marked in place: the specified revocation; a call that finds nothing has touched the arrays and changed nothing, and the three copies agree |
| `Tables.Tables.SyncManagedUserKeys` | internal/store/store.go:80-158 | on arrays: reservations re-keyed in place, tokens replaced by a new array, and the three copies agree afterwards |
| `Tables.Tables.ReleaseSoftClaim` | internal/store/store.go:782-802 | on arrays: the claims are filtered before it is known whether one goes, and the three copies agree either way |
| `Tables.Tables.ReleaseAuthorization` | internal/store/store.go:742-755 | on arrays: one element is written in place, and the three copies agree afterwards |
| `Tables.Tables.ReleaseReservation` | internal/store/store.go:660-673 | on arrays: one element is written in place, and the three copies agree afterwards |
| `Tables.Tables.RegisterSoftToken` | internal/store/store.go:296-316 | on arrays: the token is appended, in spare room if there is any, and the three copies agree afterwards |
| `Tables.Tables.AddAuthorization` | internal/store/store.go:675-689 | on arrays: the authorization is appended within its limits, and the three copies agree afterwards |
| `Tables.RevokeInPlace` | internal/store/store.go:878-884 | the token loop on the array: each token found fixes the hash for those after it |
| `Tables.RekeyInPlace` | internal/store/store.go:128-146 | the reservation loop on the array gives every reservation its group and its owner's hash |
| `Tables.NothingNamed` | internal/store/store.go:878-931 | a revocation that names nothing leaves every table as it was |
| `Scope.MatchAnyAuthorization` | internal/enforce/enforce.go:1016-1054 | the loop returns the first candidate that certainly covers the process, else whether any candidate was in doubt |
| `Scope.MatchAnyMeaning` | internal/enforce/enforce.go:1016-1054 | a process is matched exactly when some candidate certainly covers it, and unmatched exactly when every candidate was resolved as not covering it |
| `Scope.MatchesAnyLease` | internal/enforce/enforce.go:1135-1152 | the loop returns the first lease that certainly covers the process, else whether any lease was in doubt |
| `Kills.BudgetedKills` | internal/enforce/enforce.go:865-891 | no pid is killed twice, exactly min(8, targets) are killed, all of them targets, and all targets when there are at most eight |
| `Kills.DryRunKills` | internal/enforce/enforce.go:865-891 | a dry run reports every target exactly once |
| `Kills.SettledAt` | internal/enforce/enforce.go:985-992 | the budget turns some kills into skips of the same row and changes nothing else |
| `Kills.Planner.KillOnce` | internal/enforce/enforce.go:865-992 | the planner's decisions, targeted set and queue stay exactly what the list of wishes determines |
| `Kills.Planner.Note` | internal/enforce/enforce.go:217-293 | a decision that is not a kill is recorded and leaves targets and queue alone |
| `Enforce.SortRows` | internal/enforce/enforce.go:221-246 | each row is decided at once or put, in sample order, on its GPU's list |
| `Enforce.EnforceHard` | internal/enforce/enforce.go:656-695 | the loop over a reserved GPU asks for exactly the specified decision per process |
| `Enforce.EnforceLegacyLeases` | internal/enforce/enforce.go:701-735 | the loop over a leased GPU asks for exactly the specified decision per process |
| `Enforce.EnforceSoft` | internal/enforce/enforce.go:737-863 | the loop over a claimed or open GPU asks for exactly the specified decisions, claim included |
| `Enforce.EnforceClaimed` | internal/enforce/enforce.go:748-782 | the loop over a claimed GPU stops at the first process it cannot decide |
| `Enforce.SplitViews` | internal/enforce/enforce.go:783-806 | splits the processes by whether some claimed or managed authorization covers them, or reports that one cannot be decided |
| `Enforce.ClaimHasMatchingProcess` | internal/enforce/enforce.go:994-1014 | the claim test: first match, first failure, or none |
| `Enforce.EnforcePass` | internal/enforce/enforce.go:203-293 | a whole pass, in any visiting order and cut off anywhere, gives the settled wishes and queues exactly its kills |
| `Exclusivity.OneHolderPerGPU` | internal/enforce/enforce.go:248-269 | in every pass over every reachable ledger, all processes allowed on one GPU by authorization or claim are allowed for one token hash |
| `Exclusivity.OneHash` | internal/enforce/enforce.go:656-863 | within the wishes of one GPU, in all three regimes, holders' processes are allowed for one token hash |
| `Exclusivity.OneReservingHash` | internal/enforce/enforce.go:1249-1257 | at any instant the standing reservations of a GPU are one record |
| `Exclusivity.WishConcerns` | internal/enforce/enforce.go:656-863 | a GPU's wishes are only about its own sampled processes, or claim it |
| `Coverage.ReservedGPU` | internal/enforce/enforce.go:656-695 | an unbypassed process on a reserved GPU is allowed exactly when a valid authorization of a reserving token covers it, is a kill target exactly when all of them were resolved as not covering it, and is skipped otherwise |
| `Coverage.EveryRowOnce` | internal/enforce/enforce.go:217-293 | with no failed lookup and no cancellation, the rows decided about are, with multiplicity, exactly the rows sampled |
| `Coverage.OrderDoesNotMatter` | internal/enforce/enforce.go:248-269 | for any two visiting orders the targets are the union over GPUs, equally many kills are planned, and the same ones when at most eight are targeted |
| `Coverage.PassTargets` | internal/enforce/enforce.go:248-269 | a pid is targeted by a pass exactly when it is on some GPU |
| `Orders.OrderMattersExactly` | internal/enforce/enforce.go:248-269 | all visiting orders plan the same kills exactly when the kills each GPU would plan alone are at most eight in all |
| `Orders.TwoOrdersTwoPlans` | internal/enforce/enforce.go:865-891 | one ledger and one sample, two visiting orders, and a process that only one of them kills |
| `Orders.KillOfAPart` | internal/enforce/enforce.go:865-891 | a kill of two lists of wishes together is a kill of one of them alone |
| `Orders.FirstGetsAll` | internal/enforce/enforce.go:865-891 | the GPU visited first gets every kill it would plan alone |
| `Orders.FittingKills` | internal/enforce/enforce.go:865-891 | when those fit the budget a pass kills exactly what the GPUs alone would |
| `Evict.EvictExpired` | internal/enforce/enforce.go:299-509 | the loops compute the specified assessment, decisions and failure flag, cut off anywhere |
| `Evict.ScanScopes` | internal/enforce/enforce.go:410-463 | the scope loop stops at the first failed lookup or entitling match and otherwise collects the stale scopes |
| `Evict.ScanMeaning` | internal/enforce/enforce.go:410-463 | a finished scan left nothing in doubt, met no entitling match, and collected exactly the stale scopes the process is in |
| `Strays.ScanDoubtful` | internal/enforce/enforce.go:410-463 | a scan ends in doubt exactly when a relevant lookup failed before any scope entitled the process, and protects the process exactly when a scope entitles it and no such lookup failed |
| `Evict.ReservationKeys` | internal/enforce/enforce.go:327-350 | the two sets of GPU and hash pairs that give, or gave, access |
| `Evict.TrackScopes` | internal/enforce/enforce.go:351-366 | the scopes an assessment starts with |
| `Strays.OnlyStraysAreEvicted` | internal/enforce/enforce.go:372-507 | every row planned runs under some stale scope and no entitling one, is not bypassed and was resolved without doubt; no pid is planned twice; at most eight are killed |
| `Strays.DoubtKeepsScopes` | internal/enforce/enforce.go:372-466 | if the lookup of an examined row's process fails, or that of a relevant authorization or lease before any entitling one, or the pass is cancelled or a kill fails: that row is not planned and no tracked scope is clean |
| `Strays.FailsExactly` | internal/enforce/enforce.go:372-507 | a pass counts as failed exactly when it was cancelled, a kill failed, or such a lookup about an examined row failed |
| `Strays.JudgedUnsure` | internal/enforce/enforce.go:408-466 | a process is left undecided exactly when the lookup of a relevant authorization failed before one entitled it, or none entitles it and the same happened among the leases |
| `Strays.CleanMeansQuiet` | internal/enforce/enforce.go:470-480 | a scope assessed clean: in every examined row the process is outside it, or covered by an entitling scope too |
| `Strays.FailureCleansNothing` | internal/enforce/enforce.go:579-586 | a failure leaves every scope not clean, whatever rows follow |
| `Strays.JudgedStray` | internal/enforce/enforce.go:408-480 | exactly the stale authorizations the process is in are marked |
| `Claims.PassKeepsOneClaim` | internal/daemon/server.go:1552-1564 | if each GPU has at most one claim, it still has after any pass that is not cut short and whose claim writes succeed |
| `Claims.ClaimReplaces` | internal/enforce/enforce.go:737-863 | a GPU is claimed anew only if its old claim is found unused by the same test and belongs to another token |
| `Claims.ClaimEventsShape` | internal/daemon/server.go:1557-1564 | the claim writes of a pass are at most one new claim per GPU, then the releases |
| `Claims.ClaimsOn` | internal/enforce/enforce.go:832-842 | a GPU gives a claim exactly when it is open and every process on it is authorized |
| `Claims.FallenClaim` | internal/enforce/enforce.go:1259-1271 | a claim whose token no longer stands matches no process |
| `Claims.ClaimEventsSound` | internal/store/store.go:757-802 | the claim writes of a pass keep ids distinct |
| `Patience.NeverDroppedEarly` | internal/daemon/server.go:1505-1614 | over every run of passes, outages, requests and restarts: a non-bare authorization without a cgroup stops being active only in a pass whose sample, and the two before it, all assessed it clean |
| `Patience.DropNeedsThreeCleanSamples` | internal/daemon/server.go:1697-1785 | the same for one step from any consistent state |
| `Patience.DueIsDroppedExactlyWhenClean` | internal/daemon/server.go:1749-1785 | a due authorization of this kind whose save reaches the disk is dropped by a pass exactly when that sample and the two before it assessed it clean |
| `Patience.RunConsistent` | internal/daemon/server.go:1582-1614 | over every run the counters equal the lengths of the current clean streaks and the ledger stays sound |
| `Patience.RecordKeeps` | internal/daemon/server.go:1582-1610 | recording a sample keeps each counter equal to its scope's streak |
| `Patience.StreakMeaning` | internal/daemon/server.go:1612-1614 | a streak of n means exactly that the last n samples were all clean |
| `Patience.OutageKeeps` | internal/daemon/server.go:1697-1738 | a pass whose GPU sampling failed never touches such an authorization |
| `Patience.PassKeeps` | internal/daemon/server.go:1565-1573 | a pass never releases or prunes one that is not ready |
| `Patience.PruneKeepsValid` | internal/store/store.go:1590-1640 | pruning at an earlier instant keeps an authorization that was valid at a later one, reserved tokens included |
| `Patience.ServeKeeps` | internal/store/store.go:80-934 | no request served between passes drops one |
| `Patience.SomePassIsPossible` | internal/daemon/server.go:1505-1574 | the step relation is never stuck: from every state some pass can follow |
| `Patience.OneClaimOverRuns` | internal/daemon/server.go:1505-1574 | over every run whose passes are not cut short and whose claim writes succeed, no GPU is ever claimed twice |
| `Patience.NoProcessPlannedTwice` | internal/daemon/server.go:1533-1553 | in one pass no pid is planned both by eviction and by enforcement, nor twice by either |
| `Departures.GoneWasCleanThrice` | internal/daemon/server.go:1505-1614 | over every run: an authorization once watched and later no longer present and active was, in between, assessed clean by a pass and the two samples before it |
| `Departures.ReleasedGoesExactlyWithPrune` | internal/daemon/server.go:1565-1573 | a pass removes a record that is no longer active exactly when it prunes: nothing failed, no due scope was held back, the cleanups succeeded and the prune reached the disk |
| `Leftovers.PrunedUnderAStray` | internal/daemon/server.go:1533-1573 | a run whose last pass finds a process in a released scope, assesses it not clean, and removes its record |
| `Departures.ThreeQuietPassesDrop` | internal/daemon/server.go:1749-1785 | three consecutive whole passes with no failed lookup or kill and no process in the scope drop a due scope of a claimed or managed token, if its release reaches the disk |
| `Departures.QuietPassCleans` | internal/enforce/enforce.go:351-480 | such a pass assesses the scope clean |
| `Departures.StepEvolves` | internal/store/store.go:675-934 | whatever a step leaves under an id in use evolved from the record that was there |
| `Departures.RunInBounds` | internal/store/store.go:1292-1327 | every ledger a run reaches is within the bounds of the store |
| `Server.Server.MonitorOnce` | internal/daemon/server.go:1505-1574 | the pass as the daemon runs it, write by write, ends in the specified ledger, counters and decisions |
| `Server.Server.CleanupExpiredManagedCgroups` | internal/daemon/server.go:1697-1738 | the pass without a sample, write by write, ends in the specified ledger |
| `Server.Server.RecordEvictionAssessment` | internal/daemon/server.go:1582-1610 | the counter loops add one to clean scopes, reset others and forget the rest, in any map order |
| `Server.Server.Cleanup` | internal/daemon/server.go:1566-1573 | the five cleanups in order, and whether pruning may follow |
| `Server.CleanupExpiredAuthorizations` | internal/daemon/server.go:1749-1785 | releases exactly the due authorizations that need not be kept, telling whether one was kept and whether all writes succeeded |
| `Server.CleanupExpiredReservations` | internal/daemon/server.go:1795-1826 | releases exactly the due reservations |
| `Server.CleanupExpiredLeases` | internal/daemon/server.go:1878-1902 | releases exactly the due leases that need not be kept, telling whether one was kept and whether all writes succeeded |
| `Server.RemainingRows` | internal/daemon/server.go:1534-1551 | takes out exactly the rows of pids that eviction decided about |
| `Emission.RunSound` | internal/daemon/telemetry.go:165-185 | under arbitrary append failures every lost event is followed by a gap before any later ordinary event, and each gap starts at the first event lost since the previous one |
| `Emission.SafeExactlyWhenTimed` | internal/daemon/telemetry.go:165-185 | for given event times, no pattern of refused appends loses an event silently exactly when every time but the last is non-zero |
| `Emission.ZeroTimeLost` | internal/daemon/telemetry.go:179-184 | for any times with a zero before the last: a run in which only that event is refused, and it disappears without a gap |
| `Emission.Daemon.EmitTelemetry` | internal/daemon/telemetry.go:165-185 | one call changes the pending time and the outbox as specified |
| `Outbox.DrainIsComplete` | internal/telemetry/telemetry.go:284-331 | following the cursor from any valid position returns exactly the later events, once each and in order, and terminates |
| `Outbox.DrainFromEmpty` | internal/telemetry/telemetry.go:284-331 | from the empty cursor it returns exactly the retained log |
| `Outbox.PageAdvances` | internal/telemetry/telemetry.go:307-331 | a page continues exactly where the cursor stands and moves it while events remain |
| `Outbox.PruneKeepsShape` | internal/telemetry/telemetry.go:417-450 | after a prune the log is a suffix of what it was, still contiguous and in layers |
| `Outbox.AfterWrite` | internal/telemetry/telemetry.go:417-450 | the prune after a write keeps the event written exactly when no older segment shares its segment's name, or it is young enough and its segment within budget, or the prune stops at an older segment of another name |
| `Outbox.LosesNewest` | internal/telemetry/telemetry.go:247-282 | a run that loses an accepted event: a failed write, an hour later a rotation to the same name, and an event older than the retention time |
| `Outbox.DropCountMeaning` | internal/telemetry/telemetry.go:424-440 | a prune drops everything before the first segment that is young and within budget, or all but the last |
| `Outbox.WithinBudget` | internal/telemetry/telemetry.go:417-450 | after a prune the retained bytes are within budget if no segment is oversized |
| `Outbox.Log.Append` | internal/telemetry/telemetry.go:247-282 | an accepted event gets the next number and is kept exactly under that condition, always if it is not older than the retention time; the log stays contiguous and within 256 MiB when lines fit a segment; a failed append changes no event |
| `Outbox.Log.PruneLocked` | internal/telemetry/telemetry.go:417-450 | drops exactly the oldest segments that are over budget or too old, never the last one |
| `Outbox.Log.ReadPage` | internal/telemetry/telemetry.go:284-331 | the page, gap or refusal that the cursor deserves |
| `Collector.RunsLoseNothingSilently` | internal/web/history_collector.go:82-111 | over every mix of appends, prunes, polls, aborts and restarts, applied numbers strictly increase and every number skipped after first contact is preceded by a committed gap mark |
| `Collector.RunKeeps` | internal/history/ingest.go:20-106 | the invariant behind it, step by step |
| `Collector.CommitTwice` | internal/history/ingest.go:20-70 | committing a page again right away changes nothing |
| `Collector.ReapplyIsNoOp` | internal/history/ingest.go:44-57 | re-applying events whose ids are remembered changes no table |
| `Collector.IdentitiesRemembered` | internal/history/ingest.go:44-57 | an applied event's id is remembered |
| `Collector.LivePollIsRun` | internal/web/history_collector.go:82-111 | a poll of a node that goes on appending and pruning before each answer and each commit is a sequence of steps that continues any run, and ends in the record the poll loop computes |
| `Collector.History.CollectNodeHistory` | internal/web/history_collector.go:69-112 | one poll of a live node, at most 32 turns from the committed cursor, extends the run the record came from; so applied numbers still increase and skipped ones are marked |
| `Collector.History.ApplyPage` | internal/history/ingest.go:20-70 | effects and cursor are committed together or not at all |
| `Collector.History.MarkGap` | internal/history/ingest.go:81-106 | the mark is committed or nothing is |
| `Rollups.SummaryMatches` | internal/history/ingest.go:494-547 | for one session GPU's operations: the summary equals the sum of the minute rollups exactly when the row was inserted before the first recorded window |
| `Sessions.MembersBalance` | internal/history/ingest.go:411-456 | over every sequence of events: for a GPU that its session was opened with, by a reservation, a confirmation or a claimed run, the summary equals the sum of the minute rollups ever after |
| `Sessions.BalancedExactly` | internal/history/ingest.go:494-547 | over every sequence of events, for any session GPU with a summary row: they are equal exactly when no window was recorded before that row was inserted |
| `Sessions.LateJoinerUnbalanced` | internal/history/ingest.go:424-431 | three events after which a GPU listed too late has rollups that no summary counts |
| `Sessions.RowsFollow` | internal/history/ingest.go:411-456 | a session GPU's rows are what its own insertions and recorded windows made of them, samples without a session being skipped |
| `Sessions.NothingBefore` | internal/history/ingest.go:424-431 | nothing is recorded under a session before it is open |
| `Sessions.OpeningLists` | internal/history/query.go:387-416 | the transaction that opens a session inserts the summary rows of the GPUs it names |
| `Sessions.RunIndexed` | internal/history/ingest.go:175-237 | the unique index maps each group to the one session that holds it, an unconfirmed session under its own name |
| `Rollups.Conservation` | internal/history/ingest.go:494-547 | over every run, rollups equal the summary plus what was recorded before the summary row existed |
| `Rollups.RunBounded` | internal/history/ingest.go:494-559 | in every run busy time is at most observed time and the utilization integral lies between 0 and 100 times it, in rollups and summary |
| `Rollups.PartsExact` | internal/history/ingest.go:494-512 | the minute parts of a window never exceed it and sum to it exactly when it consists of whole milliseconds on every side of a minute boundary |
| `Rollups.UnalignedWindowDropped` | internal/history/ingest.go:494-512 | a window starting half a millisecond before a boundary is dropped entirely |
| `Rollups.MinuteBound` | internal/history/ingest.go:494-512 | pairwise disjoint windows put at most 60000 ms into a minute |
| `Rollups.RunMinuteBound` | internal/history/ingest.go:494-547 | with disjoint sample windows no minute rollup is longer than a minute |
| `Rollups.Clip` | internal/history/ingest.go:437-447 | clipping keeps exactly the instants from the session's start until it expires or is revoked |
| `Rollups.RecordWindow` | internal/history/ingest.go:494-547 | the loop records exactly the parts of a window |
| `Rollups.History.ApplyGPUIntervals` | internal/history/ingest.go:494-547 | changes only the rows of its own session GPU |
| `Rollups.History.InsertSummary` | internal/history/ingest.go:205-205 | the summary row is inserted once, with zeros, and never reset |
| `Resolver.RunSafe` | internal/runtime/runtime.go:120-172 | for every interleaving of callers: one base call in flight per key, at most 1024 entries, every answer the outcome of a base call for that key that is young enough or was published after the lookup |
| `Resolver.PromptAnswersAreFresh` | internal/runtime/runtime.go:120-172 | if results are published within one lifetime, no answer is older than that |
| `Resolver.LateJoinerGetsOldResult` | internal/runtime/runtime.go:134-142 | for every lifetime and all return and publication times a lifetime or more apart: a run in which a joiner is handed that old result |
| `Resolver.StaleExactlyWhenLate` | internal/runtime/runtime.go:120-172 | some run hands out a result too late exactly when the result was published a lifetime or more after it returned |
| `Resolver.CachedResolver.LookUp` | internal/runtime/runtime.go:120-145 | the locked lookup is a step of the state machine |
| `Resolver.CachedResolver.PublishResult` | internal/runtime/runtime.go:148-172 | the locked publication is a step of the state machine |
| `Resolver.MakeRoom` | internal/runtime/runtime.go:150-162 | expired entries go first, then any, until one fits |
| `Lanes.AssignLanes` | web/ui/src/main.jsx:2898-2926 | overlapping blocks get different lanes, each the first free one, and exactly as many lanes are used as blocks ever overlap at one instant |
| `Lanes.LayoutScheduleGroup` | web/ui/src/main.jsx:2898-2926 | the group's blocks in order, overlapping ones in different lanes, every block with the group's peak as its lane count |
| `Lanes.CutGroups` | web/ui/src/main.jsx:2876-2896 | the groups are non-empty, join to the sorted day, and are cut at exactly the positions that no block crosses |
| `Lanes.LayoutScheduleBlocks` | web/ui/src/main.jsx:2876-2896 | over a day, overlapping blocks get different lanes of the same count, and each count is the peak of the block's group, a run that no other block touches and that cannot be divided |
| `Lanes.ScheduleBlock` | web/ui/src/main.jsx:2846-2874 | the visible block of any job covers exactly the instants of the day at which it runs, none if it ends before it starts |

## Left out

- The audit log, secrets, the root key, HTTP, JSON and command start: effects or formats outside this model.
- `RealKiller` and the execution of kills: only whether they failed is an input.
- `/proc`, SMI and cgroup file access: inputs; the cgroup path comparison of bare scopes is one predicate of the environment.
- Loading of persisted state, and state files or segments after partial writes: every run starts empty, and a restart keeps the ledger as it is.
- `AddReservation`, `UpdateAuthorization`, `AddLease`, `UpdateLease`, `RegisterToken`: not called by the daemon paths modelled; `AddReservation` makes no overlap check.
- Bounds on string lengths and on the size of the state file: a save that fails on them is one that ends before the rename.
- Cancellation inside the matching of one row of an enforcement pass is modelled as cancellation before that row, and cancellation while rows are sorted as a pass over the shorter sample with nothing reached.
- A claim's creation and update times, reservation owners' display names and kill messages: no decision reads them.
- Node-level GPU rollups, the 90-day delete and job and session rows other than through the events applied: they would repeat the session rollups.
- A reset of a node's telemetry stream: the collector is modelled on one stream.
- Case folding outside ASCII: lower-casing is defined on ASCII letters.
- Lanes.LayoutScheduleBlocks: lays out blocks that end after they start, because the ledger refuses any other window.
- `Tables` covers the operations that filter, mark, append or write one element; the remaining ones edit the arrays in the same ways. Audit entries and command lists, which the copies also hold, are not modelled.
- A session moved between nodes: `Sessions` follows one node's tables.
- Sorting blocks by a library call is modelled by an insertion sort with the same order.
- That every stale scope is eventually released: a reserved-mode scope whose hash is on no reservation is not tracked by the assessment (internal/enforce/enforce.go:351-359).
