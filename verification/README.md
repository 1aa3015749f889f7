# The runner broker, proved

The broker hands out one-shot CI runner slots. A slot is counted twice: by an in-memory scheduler that
decides who may have one, and by a store of allocation records that decides what is true after a restart.
Concurrent calls allocate, provision, cancel, complete and reap; webhooks and a reconcile loop feed demand in;
back ends hold the runners. These files model that core in Dafny and prove what its protocols keep over every run.

Where the source updates objects step by step, the model is a class whose methods have the source's branches and
loops, each proved equal to a small specification of the new state; the theorems are lemmas about those
specifications. Where calls interleave inside one another (the lifecycle), the model is a step relation with
program counters, so that the gap between a won compare-and-swap and the release that follows it is visible.
Go map iteration is an arbitrary order, and providers, listings and disk writes are oracles whose answers are
parameters. Times are integers, in seconds.

| file | part of the broker |
|---|---|
| `Basics.dfy`, `Model.dfy` | counting and summing over maps; configuration, allocation records, tenant names |
| `Ring.dfy`, `Rotation.dfy` | backend order and weights; the round-robin schedulers and their fairness |
| `FairShare.dfy`, `FairShareRuns.dfy` | the priority fair-share scheduler; what every run of it keeps |
| `Store.dfy`, `FileStore.dfy`, `Inbox.dfy` | the memory store and leader lease; the file store; the webhook inbox |
| `LayerAgreement.dfy` | when the store accepts what the scheduler granted |
| `Lifecycle.dfy`, `LifecycleBooks.dfy` | interleaved calls, step by step; what each does to the slots |
| `LifecycleOwnership.dfy`, `LifecycleCustody.dfy` | what each does to record ids and to runners |
| `LifecycleRuns.dfy`, `LifecycleFailures.dfy` | what every run of them keeps; runs that go wrong |
| `ServiceCalls.dfy`, `Reaper.dfy` | single calls with rivals; complete and sweep |
| `Scanner.dfy`, `ScannerRuns.dfy`, `CallBudget.dfy` | the resumable reconcile scan and its call budget |
| `WorkflowJobs.dfy`, `WorkflowJobRuns.dfy`, `WorkflowJobOrder.dfy` | runner identity, isolation, event order |
| `JobRetry.dfy` | one live allocation per job, bounded retries |
| `ManagedLease.dfy`, `ManagedLeaseRuns.dfy` | label leases on long-lived virtual machines |
| `Admission.dfy` | circuit breaker and rate limit |

`dafny verify dfyconfig.toml` checks the whole project.

## Where the code does less than is said of it

Each of these is a lemma that gives the exact condition under which the code keeps the promise, most of them
with a concrete input that shows it fail.

- Admission rejected after a reservation (`internal/api/service.go:955`): the release names no tenant, so the
  tenant's quota count is returned exactly for the default tenant (`ReleaseMustNameTheTenant`, `RejectionBalances`).
- Starvation bypass: the scheduler lets a starving lane past its soft reserves, but the store is asked with the
  lane's reduced limit and refuses, unless that limit is zero, which reads as no limit (`BypassIsRefused`).
- `Cancel` of a queued record that names a backend releases a slot the record does not hold (`CancelBalances`,
  `QueuedCancelFreesANeighbour`).
- `Complete` and the sweep read and then mark without comparing: a cancel in between frees the slot twice
  (`MarkBalances`, `LateCompletionFreesTwice`); an expiry that read the record before its runner was placed tears
  down no runner (`MarkKeepsCustody`, `LateExpiryOrphansARunner`); a warm record is marked but neither released nor
  torn down (`WarmCompletionLeaksTheSlot`, `CompletionKeepsExact`).
- A runner's claim or registration (`internal/api/service.go:3477-3530`) writes back the whole record it read. If the
  record was closed in between it is in use again without a slot (`NoteBalances`, `RegistrationRevives`); if its
  runner was placed in between the runner is lost (`NoteKeepsCustody`, `RegistrationOrphansARunner`); and a job that
  was allocated anew has two live allocations (`OneLivePerJob`, `CallbackMakesTwoLive`). Events of jobs save only over
  the state they read (`SwapNoteBalances`).
- A warm handoff (`internal/api/service.go:1027-1063`) does not look at the consumer's own record again: if that is
  canceled or expired before it is deleted, two slots are given back for one (`HandoffNeedsTheReservation`,
  `HandoffFreesTwice`); nor at the warm record (`HandoffNeedsTheWarmRecord`), whose cancel in the meantime frees a
  second slot (`CancelBalances`). A failed delete or save leaves the warm runner on the wrong books
  (`HandDeleteErrorBalances`, `HandSaveErrorBalances`).
- A warm record seen in a listing is claimed (`internal/api/service.go:1981-1993`) or recycled (1999-2005) by an
  unconditional mark: one that was closed in between comes back without a slot, or is released twice
  (`ClaimBalances`, `RecycleBalances`). The same mark expires what was read as quarantined (`RecheckBalances`).
- A request queues itself over its record, deletes it or marks it failed whatever it has become: the books are kept
  exactly when nobody has put it in use (`EnqueueBalances`, `ForgetBalances`, `GiveUpBalances`).
- A cancel of a queued record does not last: a retry under way writes its own copy back as queued, and reserves it
  (`CanceledThenResurrected`). Once no call works on it or remembers it open, a closed record stays closed until its
  request is queued or reserved anew (`ClosedStaysClosed`). Only cancels that follow from a workflow job's own events
  are spared, as those and the retry hold one lock.
- The limits the store checks on admission are not checked when a warm record is saved (`internal/api/service.go:2216`)
  nor when a handoff moves one to another tenant after deleting the cold record (1045-1063): they are kept exactly
  when those saves find room (`NeverOverAdmitted`, `PrewarmPassesTheLimit`, `HandoffPassesTheQuota`).
- A commit whose write fails releases the slot of a record that stays reserved, unless a retry worker marks it failed
  afterwards (`CommitErrorIsMended`); a warm record whose write fails leaves its slot counted and its runner alone
  (`SaveWarmErrorUnbalances`, `SaveWarmErrorKeepsCustody`).
- A cross-pool limit of a backend binds only the pools that state it (`CapBindsItsOwnPool`).
- File store: a write whose directory sync fails is undone in memory but not on disk, and a lease claim or
  resignation whose write fails stays in memory but not on disk (`CrashAfterCall`, `CrashAnywhere`); a process that
  saves a record writes its own, possibly stale, lease table (`RewriteErasesUnseenLease`,
  `StaleWriterMakesTwoLeaders`); giving up the last lease is not seen by a process that remembers it
  (`ReleaseReachesPeers`).
- Out-of-order job events converge for a live runner exactly when every record the start may then look up serves the
  repository and carries the conclusion: a live record that is not dropped from the queue hides the older ones
  (`EventsConverge`). A retried job, with an older failed record, is where it goes wrong (`RetriedJobDiverges`).
  A completion that arrives early also drops queued demand that a late one may keep.
- The retry delay of a job is set only by a replacement that was granted (`FailedReplacementDoesNotWait`).
- Label leases are undone exactly when no label already reads as one of the lease's proofs (`LeaseRoundTrip`), and a
  cleanup is restartable exactly when the marker was not itself lent as a routing label (`RestartableExactly`).
- A failed probe that was sent when due, but recorded after the circuit opened again, shortens the open time exactly
  when it was sent earlier than a probe interval before its end (`DeferKeepsPromise`, `LateDeferOpensEarly`); the
  half-open limit bounds a counter that any success resets, not the requests that are out
  (`HalfOpenLimitIsNotOutstanding`, `HalfOpenBudget`).
- `reconcileRecentReserve` (`internal/api/github_webhook.go:508-511`) is described as held back for the recent
  scan, but no code reads it; only the deep scan's reserve is enforced (`DeepScanHasItsShare`).

## Model

| member | source | states |
|---|---|---|
| Ring.OrderedBackends | internal/scheduler/round_robin.go:54-89 | the ring lists the pool's backends by cost, then preferred names first, and leaves ties in any order |
| Ring.OrderIsUnique | internal/scheduler/round_robin.go:54-89 | without ties that order admits one ring only |
| Ring.WeightedBackends | internal/scheduler/weighted_round_robin.go:27-37 | the weighted ring repeats each backend in order by its weight |
| Ring.RingMembers | internal/scheduler/priority_fair_share.go:352-359 | a ring mentions the pool's backends and nothing else |
| Ring.RingShares | internal/scheduler/weighted_round_robin.go:27-37 | each backend has exactly its weight in entries, or one entry in an unweighted ring |
| Rotation.OrderedScheduler.Reserve | internal/scheduler/stateful.go:24-63 | pinned requests use their backend or fail; others go to the first available ring entry from the cursor |
| Rotation.OrderedScheduler.Release | internal/scheduler/stateful.go:65-76 | gives one slot back, never below zero |
| Rotation.QuietCalls | internal/scheduler/stateful.go:24-76 | pinned reservations, releases and other pools leave a pool's cursor alone |
| Rotation.RotationReaches | internal/scheduler/stateful.go:45-62 | an always-available backend is chosen within ring-length unpinned reservations, from any cursor |
| Rotation.PicksReadTheRing | internal/scheduler/stateful.go:45-62 | while all stay available the picks read the ring straight through |
| Rotation.SharesAreExact | internal/scheduler/stateful.go:45-62 | then every ring-length stretch picks each backend exactly its weight times |
| FairShare.SoftReserveHeld | internal/scheduler/priority_fair_share.go:456-474 | the slots kept for classes heavier than the request's |
| FairShare.EffectiveMaxRunners | internal/scheduler/priority_fair_share.go:476-489 | the runners a class may fill, never negative |
| FairShare.HeavierSeesMore | internal/scheduler/priority_fair_share.go:456-474 | a heavier class is never shown less room |
| FairShare.PriorityFairShare.Reserve | internal/scheduler/priority_fair_share.go:102-214 | quota, starvation, pinned and argmin branches refine one relation between old and new state |
| FairShare.PriorityFairShare.Release | internal/scheduler/priority_fair_share.go:361-389 | returns the backend's and the named tenant's count, then prunes |
| FairShare.PriorityFairShare.Best | internal/scheduler/priority_fair_share.go:163-214 | the ring scan finds the least score, ties to the smallest offset from the cursor |
| FairShare.PriorityFairShare.PruneAllTenantLogs | internal/scheduler/priority_fair_share.go:260-286 | every pool's log is cut to its own window, and empty logs are dropped |
| FairShare.PriorityFairShare.IsStarving | internal/scheduler/priority_fair_share.go:291-308 | a lane starves after enough time denied, unless the streak has lapsed |
| FairShare.PriorityFairShare.RecordStarvation | internal/scheduler/priority_fair_share.go:310-323 | a denial extends the lane's streak or starts one |
| FairShareRuns.ReleaseMustNameTheTenant | internal/api/service.go:953-956 | a release keeps the books if and only if it names the tenant that holds the slot |
| FairShareRuns.TopLaneFindsRoom | internal/scheduler/priority_fair_share.go:102-214 | a request of the top lane finds room while fewer than min(held, maxRunners) reservations above w are out |
| FairShareRuns.UsageMatchesHistory | internal/scheduler/priority_fair_share.go:219-286 | pruned log and full history give the same tenant usage |
| FairShareRuns.StarvingExactly | internal/scheduler/priority_fair_share.go:291-339 | a lane may bypass soft reserves exactly when it was really denied, without gap or admission, long enough |
| FairShareRuns.SelectionIsLeast | internal/scheduler/priority_fair_share.go:163-214 | an unpinned request fails exactly when nothing is open to it, else gets a least-score open backend |
| FairShareRuns.SelectionIsUnique | internal/scheduler/priority_fair_share.go:163-214 | ties by ring offset leave one choice |
| FairShareRuns.GrantWithinCaps | internal/scheduler/priority_fair_share.go:416-430 | a grant, bypassing soft reserves or not, respects maxRunners, cross-pool cap and quota |
| FairShareRuns.CapBindsItsOwnPool | internal/scheduler/priority_fair_share.go:416-424 | at a cross-pool cap a request with room in its own pool goes past it exactly when its pool does not cap the backend as tightly |
| FairShareRuns.GrantKeepsLanes | internal/scheduler/priority_fair_share.go:416-427 | lanes up to w never fill more than maxRunners minus the reserves above w |
| FairShareRuns.RunsStaySound | internal/scheduler/priority_fair_share.go:102-389 | over every run of matched calls books balance, caps and lanes hold, log and streaks are exact |
| Store.CountActive | internal/store/store.go:223-237 | counts the accounted records of a pool and backend, one id excluded |
| Store.CountBackendActive | internal/store/store.go:270-284 | counts the accounted records of a backend across pools |
| Store.CountTenantActive | internal/store/store.go:239-257 | counts the accounted records of a tenant in a pool |
| Store.CapacityAllowed | internal/store/store.go:286-309 | a record is admitted exactly when every positive limit leaves room beside the others |
| Store.CollectPrunableIds | internal/store/store.go:330-356 | exactly the terminal records older than the retention, or without an age |
| Store.Memory.CompareAndMarkState | internal/store/memory.go:81-92 | moves the record only from the expected state |
| Store.Memory.SaveIfState | internal/store/memory.go:94-104 | replaces the record only in the expected state |
| Store.Memory.SaveIfCapacity | internal/store/memory.go:106-114 | saves exactly when capacity allows |
| Store.Memory.PruneTerminal | internal/store/memory.go:134-145 | removes exactly the prunable records and says how many |
| Store.ChangeKeepsLimit | internal/store/store.go:286-309 | one store call keeps a limit that admissions check exactly when a save or mark it lets through unchecked adds nothing or finds room |
| Store.NeverOverAdmitted | internal/store/store.go:286-309 | over a run of admissions, marks, unchecked saves and removals a limit holds throughout exactly when every unchecked save and mark found room |
| Store.PrewarmPassesTheLimit | internal/api/service.go:2216 | a warm record that the store would refuse to admit is saved beyond the limit |
| Store.HandoffPassesTheQuota | internal/api/service.go:1045-1063 | a concrete handoff between whose delete and save another request takes the tenant's quota |
| Store.PruningFreesNothing | internal/store/store.go:330-356 | pruning changes no count of used capacity |
| Store.Memory.TryAcquireLeadership | internal/store/memory.go:151-164 | granted exactly when nobody else holds an unexpired lease |
| Store.LeaseIsExclusive | internal/store/memory.go:151-175 | over any run a lease is exclusive until it expires or its holder acts |
| LayerAgreement.SaveReservedAllocation | internal/api/service.go:1257-1286 | the record is saved under the lane's room, the tenant's quota and the backend limit |
| LayerAgreement.LayersAgree | internal/api/service.go:1257-1286 | a grant without starvation bypass is never refused by a store the scheduler covers |
| LayerAgreement.BypassIsRefused | internal/api/service.go:1257-1286 | with equal counts the store accepts a grant exactly below the lane's own room, or when that room is zero |
| LayerAgreement.BypassCounterexample | internal/scheduler/priority_fair_share.go:416-430 | a concrete starving grant that the store refuses |
| LifecycleBooks.StepKeepsBooks | internal/api/service.go:1005-1205 | scheduler count = accounted records + unsaved reservations + won, unapplied releases, kept by every careful step |
| LifecycleCustody.StepKeepsCustody | internal/api/service.go:3151-3191 | every provisioned runner serves a live record, is in a call's hands, or was cleaned up, kept by every careful step |
| LifecycleCustody.KeepsCustodyExactly | internal/api/service.go:3151-3191 | a step keeps all runners in custody exactly when it answers for each runner it lets go of that nothing else answers for |
| LifecycleOwnership.StepKeepsOwnership | internal/api/service.go:1005-1205 | while owned, a record is in use only as the reservation its call saved, and a warm record being handed over stays as claimed, kept by every careful step |
| LifecycleBooks.CancelBalances | internal/api/service.go:1511-1519 | a won cancel keeps the books exactly when the record was in use and its slot not given back in a handoff |
| LifecycleBooks.MarkBalances | internal/api/service.go:1598-1616 | a completion or expiry keeps the books at a place exactly when a release is owed there for what it read if and only if what it overwrites is counted there |
| LifecycleCustody.MarkKeepsCustody | internal/api/service.go:1720-1725 | it keeps every runner in custody exactly when the overwritten record serves none that nothing else answers for, or was read active with that runner |
| LifecycleBooks.NoteBalances | internal/api/service.go:3477-3530 | a claim or registration that writes its copy back keeps the books at a place exactly when copy and overwritten record are in use there alike |
| LifecycleCustody.NoteKeepsCustody | internal/api/service.go:3477-3530 | it keeps every runner in custody exactly when the overwritten record serves none that the copy does not serve and nothing else answers for |
| LifecycleBooks.SwapNoteBalances | internal/api/service_workflow_job.go:273-300 | a job event that saves over the state it read keeps the books at a place exactly when copy and record stand at the same place, if in use |
| LifecycleBooks.HandReleaseBalances | internal/api/service.go:1030-1034 | a handoff's first release keeps the books at a place exactly when the warm record counts there as often as the slot given back |
| LifecycleBooks.HandoffNeedsTheWarmRecord | internal/api/service.go:1030-1034 | it keeps them exactly when the warm record is in use where it was claimed, or closed with no slot left there to give back |
| LifecycleBooks.HandDeleteBalances | internal/api/service.go:1042 | deleting the consumer's record keeps them exactly when that record is counted at the consumer's place and nowhere else |
| LifecycleBooks.HandoffNeedsTheReservation | internal/api/service.go:1027-1042 | so a handoff keeps the books exactly when the consumer's record is still reserved when it is deleted |
| LifecycleBooks.HandDeleteErrorBalances | internal/api/service.go:1042-1044 | a delete that fails breaks the books exactly at the place the warm runner came from |
| LifecycleBooks.HandSaveBalances | internal/api/service.go:1063 | the last save keeps the books whatever has become of the warm record |
| LifecycleBooks.HandSaveErrorBalances | internal/api/service.go:1063 | if it fails they are kept exactly when the warm runner does not change place |
| LifecycleBooks.ClaimBalances | internal/api/service.go:1981-1993 | claiming a warm record keeps the books at its place exactly when nobody has closed it since it was seen |
| LifecycleBooks.RecycleBalances | internal/api/service.go:1999-2005 | recycling a warm record keeps the books at its place exactly when it is still in use and not being handed over |
| LifecycleBooks.RecheckBalances | internal/api/service.go:1751-1772 | expiring a quarantined record keeps the books exactly when it was not put in use meanwhile |
| LifecycleBooks.EnqueueBalances | internal/api/service.go:1288-1333 | queueing a request over its record keeps the books exactly when the record is not in use |
| LifecycleBooks.RejectionBalances | internal/api/service.go:953-956 | the release after a rejected admission balances exactly for the default tenant |
| LifecycleBooks.CommitErrorIsMended | internal/api/service.go:1197-1202 | a commit whose write fails unbalances the books, and the retry worker's mark of the record as failed balances them again |
| LifecycleBooks.SaveWarmErrorUnbalances | internal/api/service.go:2216 | a warm record whose write fails always leaks its slot |
| LifecycleCustody.SaveWarmErrorKeepsCustody | internal/api/service.go:2216 | and its runner exactly when nothing else answers for it |
| LifecycleRuns.RunsKeepInvariant | internal/api/service.go:1005-1205 | books, custody and ownership hold over every interleaving of careful steps |
| LifecycleRuns.QuiescentIsExact | internal/api/service.go:3127-3191 | with no call in flight the counts are exact and no runner is orphaned |
| LifecycleRuns.NoDoubleFree | internal/api/service.go:3065-3075 | in a careful run every release finds the slot it gives back |
| LifecycleRuns.NoDoubleHandoff | internal/api/service.go:1030-1034 | and so does every handoff |
| LifecycleRuns.TracesStayTyped | internal/api/service.go:1005-1205 | over any run, careful or not, an id belongs to one call at most, and warm records and those of requests stay apart |
| LifecycleRuns.ClosedStaysClosed | internal/api/service.go:1399-1440 | over any run, careful or not, a terminal record that no call works on or remembers open stays out of use unless its request is queued or reserved anew |
| LifecycleFailures.RegistrationRevives | internal/api/service.go:3504-3523 | a concrete registration puts a canceled record back in use after its slot was given back |
| LifecycleFailures.RegistrationOrphansARunner | internal/api/service.go:3504-3523 | a concrete registration overwrites the label of a runner that was just placed |
| LifecycleFailures.CanceledThenResurrected | internal/api/service.go:1399-1433 | a concrete cancel of a queued record that a retry under way writes back as queued, and reserves |
| LifecycleFailures.HandoffFreesTwice | internal/api/service.go:1027-1063 | a concrete cancel in the middle of a handoff leaves a runner in use with no slot counted |
| LifecycleFailures.LateExpiryOrphansARunner | internal/api/service.go:1720-1725 | a concrete expiry keeps the books and loses the runner |
| LifecycleFailures.QueuedCancelFreesANeighbour | internal/api/service.go:1511-1519 | a concrete cancel of a queued record frees a running neighbour's slot |
| LifecycleFailures.LateCompletionFreesTwice | internal/api/service.go:1598-1616 | a concrete completion and cancel free one slot twice |
| LifecycleFailures.WarmCompletionLeaksTheSlot | internal/api/service.go:1598-1616 | a concrete completion of a warm record leaks its slot and its runner |
| ServiceCalls.Service.Cancel | internal/api/service.go:1494-1530 | whatever rivals make of the record between reads and swaps, deleting it included, what they left decides, and the winner releases that record once |
| ServiceCalls.Service.AbandonReserved | internal/api/service.go:3127-3138 | a failed provision gives the slot back exactly when the record was still reserved |
| ServiceCalls.Service.CommitProvisioned | internal/api/service.go:1185-1206 | ready exactly while still reserved; else the runner is cleaned up under its own label and nothing is released |
| Reaper.Broker.Complete | internal/api/service.go:1539-1629 | marks once, releases exactly for records that were active, and answers repeated calls without change |
| Reaper.Broker.SweepExpired | internal/api/service.go:1640-1781 | every record gets the sentence it is due, each reclaimed slot is given back once, old records are pruned |
| Reaper.NothingOverdue | internal/api/service.go:1640-1781 | after a sweep no reserved or ready record is past deadline and grace |
| Reaper.SweepOnlyCloses | internal/api/service.go:1640-1781 | a sweep closes what is due and moves terminal records only from quarantine to expired |
| Reaper.ReclaimedOnce | internal/api/service.go:1640-1781 | what one sweep reclaimed no later sweep reclaims |
| Reaper.SweepKeepsExact | internal/api/service.go:1640-1781 | a sweep keeps scheduler and store in step while every pool resolves |
| Reaper.PruningKeepsExact | internal/api/service.go:1640-1781 | so does the pruning after it |
| Reaper.CompletingTwice | internal/api/service.go:1584-1597 | the same completion again is a no-op, another state is refused |
| Reaper.CompletionKeepsExact | internal/api/service.go:1598-1616 | a completion keeps the counts exact if and only if the record was not warm and its pool resolves |
| FileStore.File.Save | internal/store/file.go:54-68 | memory moves exactly when the write is confirmed, as in the memory store |
| FileStore.File.Delete | internal/store/file.go:70-83 | the same for removal; a missing record writes nothing |
| FileStore.File.MarkState | internal/store/file.go:103-120 | the same for a state change |
| FileStore.File.CompareAndMarkState | internal/store/file.go:122-138 | the same for a guarded state change |
| FileStore.File.SaveIfState | internal/store/file.go:140-154 | the same for a guarded save |
| FileStore.File.SaveIfCapacity | internal/store/file.go:156-173 | the same under capacity limits |
| FileStore.File.PruneTerminal | internal/store/file.go:193-215 | removes the prunable records or, when the write fails, restores every one |
| FileStore.File.TryAcquireLeadership | internal/store/file.go:221-244 | looks at the file first; a claim stays in memory when its write fails |
| FileStore.File.ReleaseLeadership | internal/store/file.go:246-258 | removes only the caller's own lease |
| FileStore.CrashAfterCall | internal/store/file.go:273-304 | a change, claim or resignation keeps a restart exact if and only if it is not undone in memory alone, nor kept in memory alone |
| FileStore.CrashAnywhere | internal/store/file.go:306-319 | over runs of changes, claims and resignations a crash at every point loses and invents nothing if and only if no call slips so |
| FileStore.SharedLeaseIsExclusive | internal/store/file.go:221-258 | among processes sharing the file a lease is exclusive while nobody rewrites records without having seen it |
| FileStore.RewriteErasesUnseenLease | internal/store/file.go:306-319 | a record write keeps a lease exactly when its writer saw the lease or the write fails |
| FileStore.StaleWriterMakesTwoLeaders | internal/store/file.go:221-258 | a concrete run with two leaders at once |
| FileStore.ReleaseReachesPeers | internal/store/file.go:294-302 | a released lease is free to others, except the last one for a process that remembers it |
| Inbox.WebhookInbox.Enqueue | internal/store/inbox.go:52-71 | a delivery already queued changes nothing; another gets the next id |
| Inbox.WebhookInbox.Claim | internal/store/inbox.go:73-95 | returns and leases the oldest free deliveries, up to the limit |
| Inbox.WebhookInbox.Drain | internal/api/github_webhook.go:440-481 | batch after batch handles every free delivery exactly once; finished ones go, others stay leased |
| Inbox.OldestComeFirst | internal/store/inbox.go:73-95 | a free delivery is returned exactly when fewer older free ones than the limit exist |
| Inbox.ClaimIsUnique | internal/store/inbox.go:73-95 | what a claim returns is determined by the queue |
| Inbox.NothingIsLost | internal/store/inbox.go:20-31 | until acknowledged a delivery stays queued, and its attempts are exactly the claims that returned it |
| Inbox.LeasedOnce | internal/store/inbox.go:20-31 | no claim returns a delivery twice within a lease |
| Scanner.RepoScanner.Cutoff | internal/api/github_webhook.go:798-811 | the third cutoff of a unit says skip and forgets the count |
| Scanner.RepoScanner.Reopen | internal/api/github_webhook.go:635-636 | a pass starts over the whole list from wherever the cursor stands |
| Scanner.RepoScanner.ScanRepos | internal/api/github_webhook.go:823-884 | one cycle is a legal trace of calls that stops at the first one not finished, or at the end |
| ScannerRuns.StepSettles | internal/api/github_webhook.go:823-884 | each call settles the front of what is to be done and nothing else |
| ScannerRuns.PassIsOneTrace | internal/api/github_webhook.go:203-209 | interrupted cycles joined are one legal trace |
| ScannerRuns.PassCoversTheRing | internal/api/github_webhook.go:823-884 | however cut up, a pass settles every call of every accepted repository exactly once, in ring order |
| ScannerRuns.InterruptedEqualsUninterrupted | internal/api/github_webhook.go:823-884 | without skips, the calls finished over all cycles are those of one uninterrupted scan |
| ScannerRuns.EachRepositoryOnce | internal/api/github_webhook.go:637-641 | a full pass visits each list position once from any cursor |
| ScannerRuns.SkipsAreEarned | internal/api/github_webhook.go:798-811 | a call is skipped exactly at its third cutoff in a row |
| ScannerRuns.PassCloses | internal/api/github_webhook.go:655-669 | a pass of n calls closes within 3n cycles that make a call, whatever hangs |
| CallBudget.CycleBudget.Take | internal/api/github_webhook.go:747-759 | a request is granted exactly when nothing ended the context, limited the rate or spent the budget |
| CallBudget.ScanOvershoot | internal/api/github_webhook.go:745-746 | a scan exceeds its limit by at most the pages of its last request |
| CallBudget.DeepScanHasItsShare | internal/api/github_webhook.go:700-716 | an open deep pass always gets its reserve, and a cycle's calls stay bounded |
| WorkflowJobs.FindDemand | internal/api/service_workflow_job.go:91-107 | the record queued for a job, a live one if there is any, in any listing order |
| WorkflowJobs.Desk.FindExecutor | internal/api/service_workflow_job.go:224-271 | a candidate bound to the job, else the best by lease and liveness, in any listing order |
| WorkflowJobs.Desk.Finalize | internal/api/service_workflow_job.go:347-398 | what a completion does to the records, given its lookups |
| WorkflowJobs.Desk.Claim | internal/api/service_workflow_job.go:422-485 | what a start does to the records, given its lookups |
| WorkflowJobs.Desk.SuppressSurplus | internal/api/service_workflow_job.go:317-328 | queued demand goes only when the actual runner's own job is over |
| WorkflowJobRuns.FinalizeIsolates | internal/api/service_workflow_job.go:347-398 | only what is bound to the job, or its own queued or label-only demand, is ended; an unknown runner releases nothing |
| WorkflowJobRuns.ClaimIsolates | internal/api/service_workflow_job.go:422-485 | a binding to another job is overwritten only on a label-only record |
| WorkflowJobRuns.BindingsLast | internal/api/service_workflow_job.go:273-287 | over any run a bound runner stays bound, and events of other jobs leave its state alone |
| WorkflowJobOrder.EventsConverge | internal/api/service_workflow_job.go:291-300 | completion and start converge in either order, under every lookup, exactly when no live runner is found or the completion reaches all the job's records |
| WorkflowJobOrder.LiveRunnerAgrees | internal/api/service_workflow_job.go:453-485 | for a live runner two outcomes agree, and the early one ends it, exactly when the start's lookup gives a record with the conclusion |
| WorkflowJobOrder.RetriedJobDiverges | internal/api/service_workflow_job.go:371-397 | a concrete retried job, its demand on record, whose runner one order releases and the other leaves running |
| WorkflowJobOrder.NoRunnerConverges | internal/api/service_workflow_job.go:371-397 | without a live runner the two orders agree, whatever the lookups give |
| JobRetry.Backoff | internal/api/workflow_job_retry.go:31-40 | the doubling loop computes min(30 * 2^(n-1), 600) |
| JobRetry.JobAllocator.MayReallocate | internal/api/workflow_job_retry.go:55-66 | fewer than five records and the delay over |
| JobRetry.JobAllocator.NoteReallocated | internal/api/workflow_job_retry.go:68-82 | sets the job's delay and drops entries an hour old |
| JobRetry.JobAllocator.AllocateForWorkflowJob | internal/api/service_workflow_job.go:135-176 | allocates exactly for a job without records, or on a permitted retry when all are terminal |
| JobRetry.OneLivePerJob | internal/api/service_workflow_job.go:135-151 | over a run at most one allocation of a job is live throughout exactly when every copy a callback writes back is of a live record, or of none that is live, or comes while none is |
| JobRetry.CallbackMakesTwoLive | internal/api/service.go:3504-3523 | a concrete late callback after which a job has two live allocations |
| JobRetry.FivePerJob | internal/api/workflow_job_retry.go:55-66 | while none is pruned a job gets at most five allocations |
| JobRetry.ReplacementWaits | internal/api/workflow_job_retry.go:68-82 | after a granted replacement nothing is allocated for the job before the n-th delay is over |
| JobRetry.FailedReplacementDoesNotWait | internal/api/service_workflow_job.go:146-150 | a failed replacement may be followed at once exactly while records are fewer than five |
| ManagedLease.ManagedBackend.Provision | internal/backend/azurevm/managed.go:104-157 | leases the lowest eligible runner, or leaves every runner in a state some interrupted cleanup can leave |
| ManagedLease.ManagedBackend.Additions | internal/backend/azurevm/managed.go:127-142 | the labels lent are those wanted and absent, each with its proof |
| ManagedLease.ManagedBackend.Cleanup | internal/backend/azurevm/managed.go:167-206 | removes routing labels, then proofs, then the marker, of this lease only, from allowed runners only |
| ManagedLeaseRuns.LeaseRoundTrip | internal/backend/azurevm/managed.go:104-206 | cleanup after provision restores the labels if and only if they were harmless |
| ManagedLeaseRuns.CleanupIsRestartable | internal/backend/azurevm/managed.go:181-203 | a cleanup after any interruption leaves what an undisturbed one leaves |
| ManagedLeaseRuns.RestartableExactly | internal/backend/azurevm/managed.go:199-203 | that holds if and only if the marker is not itself a routing label |
| ManagedLeaseRuns.AttemptsAddUp | internal/backend/azurevm/managed.go:181-203 | so does any number of interrupted cleanups followed by a whole one |
| ManagedLeaseRuns.OneMarker | internal/backend/azurevm/managed.go:77-84 | a lease leaves one marker if and only if no other label it lends reads as one |
| ManagedLeaseRuns.LeasesLeaveNoTrace | internal/backend/azurevm/managed.go:104-206 | over any run a runner never carries two markers, and without one has exactly its own labels |
| Admission.Breaker.CircuitDecision | internal/api/backend_admission.go:226-264 | admits by phase, probe time and half-open limit; only consuming changes state |
| Admission.Breaker.RecordSuccess | internal/api/backend_admission.go:302-327 | clears failures and closes, or counts one more half-open success |
| Admission.Breaker.RecordProbeSuccess | internal/api/backend_admission.go:329-355 | counts towards recovery or closes |
| Admission.Breaker.RecordFailure | internal/api/backend_admission.go:357-394 | keeps the failures inside the window and opens at the threshold, or from half-open at once |
| Admission.Breaker.DeferProbe | internal/api/backend_admission.go:406-416 | opens, due again after the probe interval |
| Admission.Breaker.ProbeDue | internal/api/backend_admission.go:396-404 | a probe is due exactly when the circuit is open and its time has come |
| Admission.ReachableIsSound | internal/api/backend_admission.go:226-416 | in every reachable state closed means fewer failures than the threshold, and both counters stay in bounds |
| Admission.NoEarlyGrant | internal/api/backend_admission.go:226-416 | after opening at t nothing is admitted before t plus the open duration if no success is recorded and every probe put off was sent late enough |
| Admission.DeferKeepsPromise | internal/api/service.go:1808-1824 | over success-free runs the circuit stays shut at every point until then exactly when each probe put off was sent no earlier than a probe interval before |
| Admission.LateDeferOpensEarly | internal/api/service.go:1808-1824 | a concrete run in which a late probe failure opens the circuit early |
| Admission.HalfOpenBudget | internal/api/backend_admission.go:302-320 | one half-open phase admits at most the limit times the successes it needs |
| Admission.HalfOpenLimitIsNotOutstanding | internal/api/backend_admission.go:302-320 | a concrete run with more requests out than the half-open limit |
| Admission.RateLimiter.RateLimitDecision | internal/api/backend_admission.go:266-300 | fixed windows: rolls over when the interval has passed, grants up to the permits |
| Admission.OneWindow | internal/api/backend_admission.go:266-300 | one window grants at most the permits, and counts every grant |
| Admission.AnySpan | internal/api/backend_admission.go:266-300 | any span as long as the interval grants at most twice the permits |

## Left out

- HTTP handlers, signatures, identity tokens, metrics, tracing and logging: input and output without accounting.
- Provider adapters, the GitHub client and the PostgreSQL store: providers are oracles, and the memory store is the specification of a store.
- Configuration loading, capability aliases, label and DNS-name sanitising, tier, quality and budget scoring, warm-pool refill and schedules, the ARC wait loop: outside the modelled machines.
- Unicode: case folding and trimming cover ASCII only; configuration keys are taken as folded and unique.
- Digests: ownership proofs assume that the truncated SHA-256 of distinct labels differs, and lease ids are lower-case.
- The file format, fsync and rename calls: the disk is one snapshot replaced at once, with three ways a write can end. The admission document in the file is not part of the model.
- Shared admission state: a breaker and a limiter are one backend's, without the reload from a shared store before each decision.
- A record's repository when it has no originating request, and lease times that do not parse.
- LifecycleRuns.RunsKeepInvariant: covers careful steps only; each guard in `Lifecycle.Careful` is one of the lifecycle exceptions listed above, with its exact condition. A back end missing from the registry is not modelled, nor what a restart rebuilds before calls are served (`internal/api/service.go:240-720`). Slots are told apart by tenant, as the fair-share scheduler counts them; without it a handoff gives the cold slot back where the model gives the warm one, which that scheduler counts alike.
- FairShareRuns.RunsStaySound: the cross-pool clause needs every pool that offers a backend to cap it, and lane bounds need the starvation bypass off, as only then are they promised.
- ScannerRuns.SkipsAreEarned: starts from a scanner with no cutoffs noted; a pass restarted by force after an hour keeps the count of the call it was at, and when passes open is not modelled.
- JobRetry.OneLivePerJob: the cold path only; a warm handoff drops the job's record, so the job can be allocated again.
- WorkflowJobOrder.EventsConverge: for a job with any number of records, one of them live at most (JobRetry.OneLivePerJob says when), nothing yet known of its execution and no other conclusion noted, and a live runner that is one allocation at most; releases of capacity by a completion or cancel are in the lifecycle.
- ManagedLease.ManagedBackend.Provision: the labels of one call are added all or none, and a listing cut at its page cap is the set of runners seen.
