# kubectl-safed drain engine: a verified model

This project models the drain engine of `kubectl-safed` in Dafny and proves what it promises: a small
distributed protocol that cordons a node, restarts the workloads found on it, evicts what is left, and
keeps a checkpoint file so that an interrupted drain can be resumed, all of it against a Kubernetes API
that may fail, lag or change at any call.

`dafny verify dfyconfig.toml` checks everything.

## How it is modelled

The API server, the clock and the contexts are oracles: every call gets its answer from a parameter, and
theorems quantify over all answers. Everything a drain writes (the cordon and uncordon patches, restart
patches, evictions, deletions, events, the temporary checkpoint file, its rename, the removal of the
checkpoint) is an entry of a trace, so that "writes nothing" and "at most once" are statements about
sequences.

| module | part of the program |
|---|---|
| `Kube`, `Labels`, `Workloads`, `Trace` | objects, label selectors, workload identities, writes |
| `Coordinator` | `WorkloadCoordinator.Do`: locks and the done set, as small steps of any number of goroutines, and as an object whose critical sections are those steps |
| `Restarts` | many node drains over one coordinator |
| `StableSort`, `Batches`, `Groups`, `Tiers` | the in-place priority sort, the batches, the fail-fast group that runs them, and when priority tiers are restarted together |
| `Checkpoints`, `Runner`, `Resume` | checkpoint contents and file; the interleaved workers that save it; chains of crashed, failed, resumed and fresh runs |
| `Finder` | cached owner resolution against a resolver without caches |
| `Rollout`, `WorkloadRestart` | rollout polls, their selector cache, the wait for pods to leave the node; the rolling restart made of them |
| `Backoff`, `Eviction` | the eviction retry loop in 64-bit nanoseconds; classification, protection, removal and the wait for deletion |
| `Preflight` | which disruption budgets may cover a workload; strict mode |
| `Drain`, `Phases`, `Promises` | a whole drain of one node, the writes of its phases, and what every run of it guarantees |
| `Sessions` | whole drains, one after another, over one checkpoint file |
| `App` | batches of nodes that share a coordinator |

Conditions that decide an outcome are stated twice: once as the operation computes them, and once on the
observed fields, option sets and literal durations, by a lemma that connects the two (the names end in
`Exactly`, `Explained` or `Shows`).

The parts meet. A worker of `Runner` sends exactly the writes of its restart and returns what the restart
returns; `Drain` takes restart and writes from `WorkloadRestart`, whose method is proved to behave so; and
`Sessions` turns a sequence of drains into a chain of `Resume`.

Concurrency is modelled as interleaving. A crash needs no step of its own: a run may stop in any state,
so whatever is proved of every state holds after a crash there. `FairSchedulesExist` shows that the
assumption made of the worker schedule in a whole drain, namely that the workers come to an end, can be
met for every configuration.

## Where the code and its documentation differ

The model follows the code.

- README.md:463-465 says that critical tiers remain strictly ordered. Batches are consecutive chunks of
  the sorted list and may mix priorities; `Batches.StrictTiersExactlyWhenAligned` gives the
  exact condition on paper, `Tiers.TiersMeetExactlyWhenMisaligned` on runs, and `Tiers.CriticalTierShared`
  three workloads that show it.
- README.md:508-510 says that a checkpoint of another kube context is rejected. A run that does not know
  its context passes the check and relabels the file; `Resume.UnknownContextLaundersEntries` says exactly
  when entries cross contexts, and `Resume.SkipsAreSound` what holds when every run knows its own.
- pkg/drain/checkpoint.go:43-44 says that file names of different clusters and nodes do not collide.
  They do in the cases that `Checkpoints.FilesCollideExactly` lists.
- pkg/drain/rollout.go:142-143 speaks of any pod matching the workload selector. The check looks at the
  pods of the current revision, and at none while no selector is cached;
  `Rollout.RecurrenceCanHideStuckPods` shows a run that completes past a stuck pod, and
  `Rollout.CachedSelectorExactly` says when a selector is missing.
- pkg/drain/eviction.go:248-250 stands in for a missing UID, after which the first sight of the pod
  counts as its replacement (`Eviction.TakenForGoneExactly`).
- The interval of pkg/drain/eviction.go:154 is doubled in 64 bits; above half the maximum it overflows
  and the documented schedule is lost (`Backoff.ScheduleExactlyWithoutOverflow`).
- pkg/drain/checkpoint.go:15-16 says that a resumed drain does not restart completed workloads. An entry records
  the generation seen at discovery, which the restart's own patch then bumps: a recorded workload is skipped
  exactly when its generation is unknown on a side or has not moved (`Checkpoints.BumpedGenerationExactly`,
  with `Checkpoints.CompletedButNotSkipped` for one that is not, and `Resume.BumpedWorkloadIsDispatchedAgain`
  over a run and its successor). What is proved of every skip is that it is justified.

## Model

| member | source | states |
|---|---|---|
| Coordinator.OneHolderPerKey | pkg/drain/coordinator.go:32-34 | two calls past the key lock of one key are the same call, though locks are created on demand |
| Coordinator.InvStep | pkg/drain/coordinator.go:27-68 | every step of every goroutine keeps the lock, guard, done-set and history invariants |
| Coordinator.NoSuccessBeforeFn | pkg/drain/coordinator.go:38-46 | a call inside fn finds that fn has never succeeded for its key |
| Coordinator.CoordinatorSafety | pkg/drain/coordinator.go:27-54 | in every interleaving: one call inside fn per key, fn succeeds at most once per key, a nil return of Do comes after a success, and done holds only keys that succeeded |
| Coordinator.FailedFnLeavesKeyUndone | pkg/drain/coordinator.go:44-46 | a failed fn leaves the key undone, its call fails, and no other call, lock or key changes |
| Coordinator.NoDeadlock | pkg/drain/coordinator.go:27-68 | while some call has not returned, some call can step: no one waits for a key lock holding the guard |
| Coordinator.StepDecreasesWork | pkg/drain/coordinator.go:27-68 | each step lessens the total remaining work |
| Coordinator.EveryCallReturns | pkg/drain/coordinator.go:27-68 | N calls take at most 10 N steps, and a run that cannot go on has every call returned |
| Coordinator.WorkloadCoordinator.LockGuard | pkg/drain/coordinator.go:38 | takes the free guard mutex for the call, and the object's history stays a run of the machine |
| Coordinator.WorkloadCoordinator.LockFor | pkg/drain/coordinator.go:56-68 | the key's mutex, new on first use and the same ever after, guard released: exactly the step of the machine |
| Coordinator.WorkloadCoordinator.LockKey | pkg/drain/coordinator.go:32-34 | takes a free key lock for the call, nothing else |
| Coordinator.WorkloadCoordinator.CheckContext | pkg/drain/coordinator.go:35-37 | a cancelled context leads to release without fn |
| Coordinator.WorkloadCoordinator.ReadDone | pkg/drain/coordinator.go:38-43 | a done key skips fn with nil, any other enters it, guard released |
| Coordinator.WorkloadCoordinator.ReturnFromFn | pkg/drain/coordinator.go:44-46 | success goes on to mark the key, failure to release |
| Coordinator.WorkloadCoordinator.MarkDone | pkg/drain/coordinator.go:47-53 | adds the key to done under the guard |
| Coordinator.WorkloadCoordinator.UnlockKey | pkg/drain/coordinator.go:34-53 | releases the key lock and returns the outcome decided before |
| Coordinator.WorkloadCoordinator.Do | pkg/drain/coordinator.go:27-54 | a whole call that meets no other: fn runs exactly if the context is live and the key not done; its success alone adds the key; every lock is free again |
| Coordinator.ExtendRun | pkg/drain/coordinator.go:27-68 | what keeps the object's history a run: any enabled step extends it |
| Coordinator.ObjectIsSafe | pkg/drain/coordinator.go:27-68 | the object itself: one call inside fn per key, one success per key, done only after success, never deadlocked |
| Restarts.RestartOnceClearEverywhere | pkg/drain/rollout.go:24-72 | across all drains sharing a coordinator, each workload's restart body succeeds at most once, and each nil restart saw zero live pods on its own node after that success |
| StableSort.SortByPriority | pkg/drain/workload_runner.go:31-35 | in place: a permutation, by ascending priority, each tier in its original order |
| StableSort.StablySortedUnique | pkg/drain/workload_runner.go:31-35 | a list has one stable arrangement, so the specification leaves no choice |
| StableSort.StablySortedPermutes | pkg/drain/workload_runner.go:31-35 | the arrangement is a permutation |
| Batches.ChunksPartition | pkg/drain/workload_runner.go:92-103 | batches concatenate to the list, number ceil(n/limit), and only the last may be short |
| Batches.SplitBatches | pkg/drain/workload_runner.go:88-103 | the dispatch loop produces that partition for every MaxConcurrency, zero and negative meaning all at once |
| Batches.BatchMeaning | pkg/drain/workload_runner.go:116-119 | batch numbers are quotients, and batches begin exactly at the multiples of the limit |
| Batches.ChunkAt | pkg/drain/workload_runner.go:116-119 | workload i is in batch i / limit at place i % limit |
| Batches.StrictTiersExactlyWhenAligned | pkg/drain/workload_runner.go:92-103 | no batch mixes priorities if and only if every change of priority falls on a batch boundary |
| Tiers.TiersMeetExactlyWhenMisaligned | pkg/drain/workload_runner.go:116-150 | some run restarts two priorities at the same time if and only if some priority begins inside a batch |
| Tiers.CriticalTierShared | pkg/drain/workload_runner.go:116-150 | priorities 10, 100, 100 with limit 2: the first batch mixes tiers, on paper and at run time |
| Groups.EarlierBatchMeaning | pkg/drain/workload_runner.go:116-119 | a boundary separates two jobs exactly when their batch numbers differ |
| Groups.EarlierBatchesPassed | pkg/drain/workload_runner.go:116-150 | a started job proves all jobs of earlier batches succeeded |
| Groups.CompanionInBatch | pkg/drain/workload_runner.go:131-146 | a job may start as soon as one of its batch has |
| Groups.OutcomeMeaning | pkg/drain/workload_runner.go:147-156 | success exactly when all jobs succeeded, failure exactly when one failed |
| Groups.BatchDiscipline | pkg/drain/workload_runner.go:116-155 | at every moment of every run: at most the limit at once, earlier batches first, nothing later after a failure |
| Checkpoints.Checkpoint.MarkDoneAt | pkg/drain/checkpoint.go:120-137 | the workload's key is completed, with its own kind, namespace, name, UID and generation; the rest is unchanged |
| Checkpoints.Checkpoint.Save | pkg/drain/checkpoint.go:94-112 | the file holds the whole checkpoint, or what it held before if any step fails |
| Checkpoints.FileStore.Delete | pkg/drain/checkpoint.go:151-158 | the file is gone, also when there was none; a removal that fails leaves it and says so |
| Checkpoints.CanSkipExactly | pkg/drain/checkpoint_resume.go:20-47 | on the file's fields: a workload is dropped exactly when it is recorded as completed and UID and generation agree wherever both are known, or, without recorded identity, when no live pod of it is on the node |
| Checkpoints.RecordedIsSkippedExactly | pkg/drain/checkpoint_resume.go:20-47 | a workload marked, and one found under its key: skipped exactly when neither UIDs nor generations tell them apart |
| Checkpoints.RecreatedIsNotSkipped | pkg/drain/checkpoint_resume.go:25-28 | a Deployment deleted and created anew after it was recorded is restarted |
| Checkpoints.BumpedGenerationExactly | pkg/drain/checkpoint_resume.go:24-33 | a recorded workload found at another generation is skipped exactly when a generation is unknown or has not moved |
| Checkpoints.CompletedButNotSkipped | pkg/drain/checkpoint_resume.go:29-32 | one workload completed at generation 1, found at 2 and restarted again |
| Checkpoints.FilterCompleted | pkg/drain/workload_runner.go:48-60 | the undropped workloads in order; an error exactly when some legacy entry cannot be verified |
| Checkpoints.KeptMeaning | pkg/drain/workload_runner.go:48-60 | a workload stays exactly when the skip rule does not drop it, and keys stay distinct |
| Checkpoints.OneFilePerNode | pkg/drain/checkpoint.go:45-59 | within one context, file names agree exactly for equal node names |
| Checkpoints.FileNameIsClean | pkg/drain/checkpoint.go:45-59 | a file name holds no slash, colon, space or backslash, and every other character as given |
| Checkpoints.FilesCollideExactly | pkg/drain/checkpoint.go:45-59 | across contexts: file names agree exactly when cleaned names agree or a hyphenated part moves between context and node |
| Checkpoints.FilesMayCollideAcrossContexts | pkg/drain/checkpoint.go:45-59 | two real names that collide, and validation then refuses the other node's file |
| Runner.ReplayMeaning | pkg/drain/checkpoint.go:120-137 | marking a sequence of workers adds exactly their keys and forgets nothing |
| Runner.ReplayEntry | pkg/drain/checkpoint.go:125-136 | the entry of a marked key is the identity of a worker marked under it |
| Runner.StepInv | pkg/drain/workload_runner.go:72-156 | every step of every worker keeps mutex, file, order and trace invariants |
| Runner.FileIsAlwaysComplete | pkg/drain/workload_runner.go:72-86 | in every state, crash or not, the file is as before the run or the complete checkpoint after some mark-done, each marked worker once and only after a nil restart |
| Runner.CompletedKeysWereRestarted | pkg/drain/workload_runner.go:131-149 | a key or entry the run added to the file belongs to a worker whose restart returned nil, with its identity |
| Runner.FileOnlyGrows | pkg/drain/checkpoint.go:94-112 | from the first save on the completed set in the file only grows |
| Runner.HistoryGrows | pkg/drain/workload_runner.go:72-86 | saves and completions are never taken back |
| Runner.RestartsAreBatched | pkg/drain/workload_runner.go:92-155 | at most the limit restarts at once, and a worker starts only after all workers of earlier batches returned nil |
| Runner.BatchesInOrder | pkg/drain/workload_runner.go:116-150 | by batch number: a started worker proves every worker of a lower batch restarted |
| Runner.CompanionsMayStart | pkg/drain/workload_runner.go:131-146 | a worker waits for no other worker of its batch |
| Runner.Recorded | pkg/drain/workload_runner.go:69-86 | the checkpoint keeps its node, context and completed keys, and a run that ends well has recorded every worker |
| Runner.RunnerOutcome | pkg/drain/workload_runner.go:147-156 | the run returns nil exactly when every restart did, whatever its saves did, and then every worker is recorded; otherwise some restart failed |
| Runner.RunnerWrites | pkg/drain/workload_runner.go:72-156 | only listed workloads are patched, each at most once; a restarted worker's restart returned nil and all its writes are in the trace; a dry run writes nothing |
| Runner.RunnerProgress | pkg/drain/workload_runner.go:116-155 | no reachable unfinished state is stuck |
| Runner.EveryRunEnds | pkg/drain/workload_runner.go:116-155 | in any interleaving N workloads take at most 13 N + 1 steps, and a run that cannot go on is one that is decided |
| Runner.EveryRunCanEnd | pkg/drain/workload_runner.go:116-155 | a run can be carried to its end from wherever it is |
| Resume.RunKeepsInv | pkg/drain/workload_runner.go:37-86 | one run, cut off anywhere, leaves a file whose every key has a nil restart behind it or was there at the start |
| Resume.SkipsAreSound | pkg/drain/checkpoint_resume.go:10-47 | over any chain of runs, resume drops a workload only on an earlier nil restart for this node with matching identity, or on an entry the chain began with; with no initial file only the former |
| Resume.RunObeysLimit | pkg/drain/workload_runner.go:88-150 | in every state of every run, with MaxConcurrency itself as the bound: at most that many restarts at once, lower batches restarted first, and no waiting within a batch; zero or less is one batch of everything |
| Resume.RunRecordsWorkers | pkg/drain/workload_runner.go:66-86 | without a path, or in a dry run, the file is left alone; otherwise a run that ends well has recorded every dispatched worker under its node and context |
| Resume.RunObeysFlags | pkg/drain/workload_runner.go:74-77 | events only if asked for, file writes only with a path, nothing in a dry run |
| Resume.LoadedExactly | pkg/drain/checkpoint_resume.go:10-18 | which checkpoint a run starts from, on the file's own fields |
| Resume.BumpedWorkloadIsDispatchedAgain | pkg/drain/workload_runner.go:37-65 | a workload recorded by a run and found again at another generation is dispatched again exactly when both generations are known and differ |
| Resume.UnknownContextLaundersEntries | pkg/drain/checkpoint_resume.go:14-16 | an entry made under one context counts under a later one, across a run in between, exactly when that run knew no context or all contexts agree |
| Finder.ControllerOwnerRef | pkg/workload/workload.go:174-188 | the first reference that qualifies as controller, none exactly if none does |
| Finder.Finder.ResolveDeployment | pkg/workload/workload.go:224-256 | with caches, the answer of a fresh lookup, or a workload already found under that key |
| Finder.Finder.ResolveStatefulSet | pkg/workload/workload.go:260-292 | likewise for StatefulSets |
| Finder.Finder.ResolveReplicaSet | pkg/workload/workload.go:193-219 | likewise through ReplicaSets and their cache |
| Finder.Finder.ResolveOwner | pkg/workload/workload.go:156-172 | likewise for a pod's controller of any kind |
| Finder.Finder.FindForNode | pkg/workload/workload.go:107-150 | the same list or failure as the resolver without caches; on the pods' references and the API's answers: a workload is listed exactly when it owns a live pod of the node, every UID given being the object's |
| Finder.FindFreshUnique | pkg/workload/workload.go:141-146 | no key is listed twice |
| Finder.OwnerResolves | pkg/workload/workload.go:156-292 | a live pod resolves to a workload exactly when its first controller reference names that StatefulSet, or a ReplicaSet whose own first controller names that Deployment, each found and under the UID given |
| Finder.DiscoveryReportsOwners | pkg/workload/workload.go:107-150 | listed exactly when some live pod of the node is owned so, each once |
| Finder.FailsExactly | pkg/workload/workload.go:133-136 | discovery fails exactly when some live pod's owner cannot be read |
| Finder.FailureIsFinal | pkg/workload/workload.go:133-136 | the first pod that fails to resolve decides, later pods change nothing |
| Workloads.KeyInjective | pkg/drain/checkpoint.go:160-162 | kind, namespace and name are determined by the key |
| Labels.SelectsMeaning | pkg/drain/eviction.go:112-126 | a valid selector selects exactly the label sets its labels and expressions describe |
| Labels.SelectsExactly | pkg/drain/rollout.go:556-564 | the same for every selector, validity included, operator by operator |
| Labels.NewRevisionSelectorSelects | pkg/drain/rollout.go:445-462 | the narrowed selector selects exactly the base's pods that carry the revision hash |
| Labels.NewRevisionSelectorExactlyWhen | pkg/drain/rollout.go:445-462 | for every base that holds if and only if the base does not pin the hash label to another revision, or the result selects nothing anyway |
| Labels.SatisfiableKeyByKey | pkg/drain/preflight.go:315-327 | a valid selector selects some pod exactly when each key it reads is open: absence, a mentioned value or a fresh one suits all its requirements |
| Preflight.NoMissedBudget | pkg/drain/preflight.go:315-327 | budgets that share a selectable pod with the workload are always reported |
| Preflight.MayMatchIffEachRequirementMeetable | pkg/drain/preflight.go:315-327 | what a report means, for all inputs: each requirement alone can be met by a pod with the workload's labels |
| Preflight.MayMatchExact | pkg/drain/preflight.go:315-327 | with one requirement per key and no workload expressions, a report is true if and only if a common pod exists |
| Preflight.CommonPodExactly | pkg/drain/preflight.go:315-327 | for all selectors: a common pod exists exactly when the workload's is valid and every key is open to both, which is when a report is true |
| Preflight.FalseReports | pkg/drain/preflight.go:315-327 | two inputs beyond those conditions on which a report is false |
| Preflight.PodSelectedByBlockingBudget | pkg/drain/preflight.go:296-313 | a listed budget with no disruptions left that selects a pod of a drained workload is one of the findings that RunPreflight reports |
| Preflight.BlockingExactly | pkg/drain/preflight.go:296-313 | a budget blocks exactly when it allows no disruption and its selector is invalid, empty, or has each requirement meetable under the labels of a workload of its namespace |
| Preflight.UniqueNamespaces | pkg/drain/preflight.go:274-284 | each namespace of the workloads once |
| Preflight.InNamespaceMembers | pkg/drain/preflight.go:286-294 | exactly the workloads of the namespace |
| Preflight.RunPreflight | pkg/drain/preflight.go:69-159 | aborts exactly in strict mode with a risk or a failed inspection; otherwise reports exactly the inspections' findings, the stateful names and the blocking budgets |
| Rollout.FindBadPodState | pkg/drain/rollout.go:471-497 | clean exactly without a selector or with a usable one whose listed pods show no stuck container; otherwise the first stuck pod or the failed check |
| Rollout.StuckExactly | pkg/drain/rollout.go:483-523 | a pod is stuck exactly when a container, init or not, waits on an image that cannot be pulled, or crash-loops after an exit |
| Rollout.FirstCurrentDecides | pkg/drain/rollout.go:402-433 | the selector is that of the first ReplicaSet owned by the Deployment's UID at its revision, else the Deployment's own |
| Rollout.WaitForDeploymentRollout | pkg/drain/rollout.go:144-236 | acts on the first decisive observation, and times out only if none is; nil shows every replica updated, ready and available, none unavailable, at or past both generations |
| Rollout.CompleteExactly | pkg/drain/rollout.go:167-234 | nil exactly on those counts and generations, written out, without an exceeded progress deadline and with a clean pod check |
| Rollout.FailureExactly | pkg/drain/rollout.go:168-191 | a stall is exactly an exceeded progress deadline on a recent status, and a GET fails the wait exactly on an error that is none of the four that may pass |
| Rollout.StaleStatusDecidesNothing | pkg/drain/rollout.go:168-182 | a status older than the target, or an absorbed error, changes neither verdict nor cache |
| Rollout.StaleStatusLeavesNoTrace | pkg/drain/rollout.go:166-234 | a poll decides as if no stale status and no failed GET had been observed before it |
| Rollout.BadPodMeansStuckPod | pkg/drain/rollout.go:209-227 | a pod-state failure names a stuck pod of the listing, on a status that is not stale |
| Rollout.CachedSelectorExactly | pkg/drain/rollout.go:162-219 | for every sequence of observations, and from them alone, which selector is cached and when none is |
| Rollout.SelectorOfCurrentRevision | pkg/drain/rollout.go:162-219 | if revisions never recur, the cached selector is the one resolved when the current revision appeared |
| Rollout.CompletionChecksCurrentRevision | pkg/drain/rollout.go:162-234 | a nil return, if revisions never recur, means rolled out with no stuck pod under that selector |
| Rollout.RecurrenceCanHideStuckPods | pkg/drain/rollout.go:209-219 | a run of three observations in which a returning revision completes with a stuck pod |
| Rollout.WaitForStatefulSetRollout | pkg/drain/rollout.go:259-333 | acts on the first decisive observation, and times out only if none is; nil shows equal non-empty revisions and every replica updated, current and ready at or past the target |
| Rollout.StsCompleteExactly | pkg/drain/rollout.go:277-331 | nil exactly on those revisions, counts and generation, written out, with a clean pod check |
| Rollout.StsStaleStatusDecidesNothing | pkg/drain/rollout.go:278-291 | a status older than the target, or an absorbed error, changes neither verdict nor cache |
| Rollout.StsSelectorIsFresh | pkg/drain/rollout.go:272-314 | from the first non-empty revision on, the cached selector is a fresh one for the latest revision; before it there is none |
| Rollout.StsCheckSelectsRevision | pkg/drain/rollout.go:272-314 | the check then looks at exactly the base's pods of the revision being rolled out |
| Rollout.StsStaleStatusLeavesNoTrace | pkg/drain/rollout.go:276-331 | a poll decides as if no stale status and no failed GET had been observed before it |
| Rollout.StsBadPodMeansStuckPod | pkg/drain/rollout.go:305-322 | a pod-state failure names a stuck pod of the listing, on a status that is not stale |
| Rollout.StsCompletionChecksRevision | pkg/drain/rollout.go:272-331 | a nil return means rolled out with no stuck pod of the base under the hash of the revision rolled out |
| Rollout.CountLive | pkg/drain/rollout.go:370-392 | the number of listed pods that are not terminal |
| Rollout.NoneLive | pkg/drain/rollout.go:370-392 | the count is zero exactly when every listed pod is terminal |
| Rollout.VacatesExactly | pkg/drain/rollout.go:338-360 | the wait succeeds exactly when, before any fatal answer, a listing shows only succeeded or failed pods |
| Rollout.WaitForPodsOffNode | pkg/drain/rollout.go:338-360 | nil exactly when some listing without live pods comes before any fatal answer |
| Rollout.RetryTransient | pkg/drain/rollout.go:537-552 | the answer of the first attempt that is not a transient error, of the third, or of the one during which the context ended |
| WorkloadRestart.RollingRestart | pkg/drain/rollout.go:24-72 | nil exactly when the call is admitted, the body (if it runs) patches and rolls out and the node is vacated; its writes in order; nothing in a dry run |
| WorkloadRestart.OnePatch | pkg/drain/rollout.go:24-72 | a restart patches its own workload, once, and exactly if its body runs; with events on, one comes before the patch and one after success |
| WorkloadRestart.NilRestartExactly | pkg/drain/rollout.go:24-72 | a restart returns nil exactly when it is not refused, the node is vacated and, if its body runs, the patch is accepted and the first decisive poll of the workload's own kind completes |
| WorkloadRestart.NilRestartShows | pkg/drain/rollout.go:24-72 | what a nil restart was shown, on the observed objects: a node free of live pods and, if its body ran, every replica of the patched generation |
| Backoff.ScheduleExactlyWithoutOverflow | pkg/drain/eviction.go:138-158 | waits are b, then min(b 2^(k-1), 60 s), for every k, if and only if b is at most half the 64-bit maximum |
| Backoff.FollowsSchedule | pkg/drain/eviction.go:138-158 | every single wait follows the schedule and stays clear of overflow |
| Backoff.TotalWhileDoubling | pkg/drain/eviction.go:138-158 | while doubling, m waits take b (2^m - 1) |
| Backoff.TotalOnceCapped | pkg/drain/eviction.go:138-158 | from the cap on, every wait adds 60 s |
| Backoff.AttemptsBounded | pkg/drain/eviction.go:134-158 | an attempt begun before the deadline bounds the waits before it, and so their number |
| Backoff.TotalClosed | pkg/drain/eviction.go:138-158 | the first m waits in closed form: geometric up to the cap, 60 s each from there |
| Backoff.AttemptsBoundedByCap | pkg/drain/eviction.go:134-158 | that closed form is below the timeout for every attempt begun before the deadline, which bounds their number |
| Backoff.RetriesEnd | pkg/drain/eviction.go:134-158 | all attempts but the last begin before the deadline; given enough attempts the loop ends, and if all are blocked it ends in a timeout |
| Backoff.EvictWithPDBRetry | pkg/drain/eviction.go:134-173 | with defaults of 5 s and 300 s: every attempt starts when the one before and its wait are over; the loop goes on exactly while blocked with the context live; the last answer is the outcome |
| Backoff.AttemptsExplained | pkg/drain/eviction.go:134-173 | on the answers: only 429 and 503 are retried, the last answer decides, and each wait is the documented one, 60 s at most beyond the base |
| Backoff.AttemptsDetermined | pkg/drain/eviction.go:134-173 | that contract leaves no choice: the environment fixes outcome, attempts and times |
| Backoff.AttemptsExist | pkg/drain/eviction.go:134-173 | and every environment has such an outcome |
| Eviction.ClassExactly | pkg/drain/eviction.go:183-317 | each class on the pod's fields and the flags: what may be removed, what blocks, what is on its way out, what is no concern |
| Eviction.FilterEvictable | pkg/drain/eviction.go:183-220 | exactly the pods that may be removed, by their fields and the flags, in order and multiplicity |
| Eviction.PodsPendingDeletion | pkg/drain/eviction.go:222-235 | exactly the live pods already being deleted, in order and multiplicity |
| Eviction.BlockedEvictionPods | pkg/drain/eviction.go:292-317 | exactly the pods that need a flag not given, in order and multiplicity, each with the first reason that applies |
| Eviction.ClassesPartition | pkg/drain/eviction.go:183-317 | under all flags, evictable, blocked, pending and ignored pods partition every list with multiplicity |
| Eviction.ProtectedWorkloadForPod | pkg/drain/eviction.go:112-126 | names a workload exactly when a filtered workload of the pod's namespace has a valid selector that selects it |
| Eviction.ExcludeProtectedPods | pkg/drain/eviction.go:96-110 | the unprotected pods, in order |
| Eviction.AwaitedAsItself | pkg/drain/eviction.go:245-253 | with UIDs that identify pods, every awaited pod is tracked under its own UID |
| Eviction.ResolvesExactly | pkg/drain/eviction.go:257-275 | which answers count as gone: not found, another UID when both are known, succeeded or failed |
| Eviction.TakenForGoneExactly | pkg/drain/eviction.go:248-271 | a pod still there is taken for gone exactly when it was listed without a UID |
| Eviction.PollOnce | pkg/drain/eviction.go:254-283 | one poll drops exactly the pods it saw gone, asks for every pod unless a transient error cuts it short, and keeps what it dropped |
| Eviction.WaitForPodsDeleted | pkg/drain/eviction.go:237-285 | nil means every awaited pod was seen gone, replaced or terminal; the deadline is reported only after polls that passed over no pod; the awaited map only shrinks |
| Eviction.WorksOrFails | pkg/drain/eviction.go:71-87 | a removal works or fails, never both, and the environment alone decides which |
| Eviction.RemovePods | pkg/drain/eviction.go:60-88 | succeeds exactly when every removal works, removing in order and stopping at the first that does not |
| Eviction.Plan | pkg/drain/eviction.go:31-49 | what blocks, what is evicted and what is awaited, over the unprotected pods |
| Eviction.EvictRemaining | pkg/drain/eviction.go:22-94 | one pod that needs a flag not given stops the step before any write; only unprotected pods are removed that are live, not deleting, not mirrors, no skipped DaemonSet's and allowed by the flags; nil means every listed pod is settled; a failure has one of its causes |
| Drain.FilterWorkloads | pkg/drain/workload_filter.go:11-33 | keeps, in order, exactly the workloads that --only-workload, if given, names and --skip-workload does not, by kind/namespace/name; the others are protected, in order |
| Drain.FilterSplits | pkg/drain/workload_filter.go:11-33 | nothing is lost and no key is on both sides |
| Drain.ResumeFrom | pkg/drain/workload_runner.go:37-65 | refuses exactly an unusable checkpoint or an unverified legacy entry; otherwise the loaded checkpoint and the workloads left |
| Drain.RefusedExactly | pkg/drain/workload_runner.go:37-54 | a run is refused exactly on an unreadable or corrupt checkpoint, another node's, another known context's, or one with a legacy entry whose pods cannot be counted |
| Drain.RunWorkloads | pkg/drain/workload_runner.go:26-156 | sorts in place, applies the checkpoint, and refuses, finishes or runs the workers on exactly the workloads left |
| Drain.WorkersObeyOptions | pkg/drain/workload_runner.go:88-150 | every state the workers come to keeps to --max-concurrency, the path, the node and the context as the options give them |
| Drain.Cordon | pkg/drain/node.go:21-51 | patches only a schedulable node outside dry run, and owns the cordon only if the patch was accepted |
| Drain.PrepareBeforeCordon | pkg/drain/drain_phases.go:53-73 | goes on exactly if neither strict pre-flight nor the early checkpoint check stops it |
| Drain.StoppedExactly | pkg/drain/drain_phases.go:14-73 | which runs end before the cordon, on the node, the discovery, the inspections and the checkpoint file |
| Drain.Run | pkg/drain/drain.go:150-218 | every run, at every failure point, has one of the outcomes below with the writes of its phases in order |
| Drain.FairSchedulesExist | pkg/drain/workload_runner.go:116-155 | the schedules assumed of an environment exist for every environment |
| Promises.DryRunWritesNothing | pkg/drain/drain.go:124-218 | a dry run writes nothing, whatever the cluster, the options and the failures |
| Promises.NothingBeforeCordon | pkg/drain/drain.go:158-181 | no write comes before the cordon, which is sent exactly outside dry run to a node that was schedulable when nothing stopped the run, and once |
| Promises.UncordonExactlyOnFailure | pkg/drain/drain.go:182-199 | one uncordon exactly when the run fails after its own cordon with the option set, none otherwise, followed by the failure event only |
| Promises.UnschedulableNodeUntouched | pkg/drain/node.go:24-29 | a node unschedulable at the start is never patched |
| Promises.CheckpointRemovedExactlyOnSuccess | pkg/drain/drain.go:209-214 | the checkpoint is removed in exactly the successful runs that have one |
| Promises.FilteredWorkloadsUntouched | pkg/drain/workload_filter.go:11-33 | no filtered workload is patched, and every removal is that of a listed pod its selector does not select |
| Promises.SelectedPodStays | pkg/drain/eviction.go:96-126 | a listed pod that a filtered workload selects is never evicted and never deleted |
| Promises.PatchedAtMostOnce | pkg/drain/workload_runner.go:116-155 | a run patches no workload twice |
| Promises.PatchesAreAskedFor | pkg/drain/workload_filter.go:11-33 | every patch is for a discovered workload that the options do not filter |
| Promises.RemovalsAreAllowed | pkg/drain/eviction.go:22-94 | over whole runs, every removal is of a listed pod that is live, not deleting, no mirror, no skipped DaemonSet's and allowed by the flags |
| Promises.EventsAreAskedFor | pkg/drain/drain.go:124-137 | events are created only if asked for and never in a dry run |
| Promises.EvictionsFollowRestarts | pkg/drain/drain.go:199-207 | pods are removed only after every dispatched workload was restarted |
| Promises.FailuresHaveCauses | pkg/drain/drain.go:199-207 | past the cordon a run fails only for a refused checkpoint, a restart that does not work, a failed listing or a cause of the eviction step |
| Promises.SuccessMeansDrained | pkg/drain/drain.go:150-218 | after a successful run every workload not filtered was patched if its body ran, rolled out and seen off the node, or skipped by the checkpoint rule; and every listed pod is settled |
| Promises.SkippedExactly | pkg/drain/checkpoint_resume.go:10-47 | a workload is skipped in a run exactly when, on the file's own fields, the checkpoint is this node's and not another known context's and vouches for it |
| Sessions.ChainOf | pkg/drain/workload_runner.go:37-86 | drains that succeed, fail or crash one after another are a chain of runs over the file |
| Sessions.SuccessRestsOnRestarts | pkg/drain/drain.go:150-218 | over any such sequence, when a drain succeeds each of its workloads was restarted and seen off this node, in this drain or an earlier one with agreeing identity, or rests on an entry of the initial file |
| App.RunResolved | internal/drainapp/app.go:99-184 | nil exactly when all drains are; otherwise the nodes started end with the batch of the first failure, batches being of NodeConcurrency nodes or all; the coordinator is shared exactly with several nodes |
| App.DrainInBatches | internal/drainapp/app.go:165-182 | the batch loop returns nil exactly when all drains do, and stops where the specification stops |
| App.ReachedMeaning | internal/drainapp/app.go:147-182 | where the batches stop: the batch of the first failure is started in full, nothing after it |
| App.FirstFailureStops | internal/drainapp/app.go:165-182 | by batch number: the last drain started is in the failure's batch and ends it |
| App.InterleavingsAgree | internal/drainapp/app.go:157-182 | every interleaving of the concurrent drains gives that result and starts exactly those nodes |
| App.FilesApart | internal/drainapp/app.go:187-192 | validated targets share a checkpoint file only if they are the same node |
| App.RefusedTargetsShare | internal/drainapp/app.go:187-192 | targets are refused only when two of them would be given one file |

## Left out

- The Kubernetes client, real clocks and real contexts: their answers are parameters, time is an integer and a cancelled context is a flag or the end of the list of answers.
- Go's own sort and errgroup: a verified in-place insertion sort and a step machine with a join stand in for them; cancellation of siblings shows only in what their restarts learn.
- The interleaving of whole drains with each other in one trace: drains meet in `Restarts` through the coordinator and in `App` through their results; the trace of `Promises` is that of one drain.
- Restarts that influence each other's observations: what each restart learns is fixed per workload, for every possible answer; cancellation by a sibling is an answer list that ends early.
- Encoding of checkpoints and patches, file permissions, home-directory paths and completion times: a file holds a whole checkpoint or bytes that do not parse.
- Changes of the cluster during discovery: `Finder` resolves against one snapshot, and namespaces hold no slash.
- Parsing of the drain-priority annotation, label syntax validation (one flag on a selector) and API list paging.
- Event contents, logging, printers and the warnings of pre-flight about replicas and strategies: single branches; only an abstract risk flag and the fact that an event was created remain.
- Configuration, profiles, flags and option validation, and the resolution of node names: field-by-field branches.
- Promises.PatchedAtMostOnce: speaks of one drain; with several, a failed restart body leaves the key undone and another drain may patch again, so across drains only successes are unique (`Restarts.RestartOnceClearEverywhere`).
- Preflight.MayMatchExact: the heuristic is exact under its two conditions; beyond them `Preflight.CommonPodExactly` says exactly when a report is true.
- Liveness across nodes: a drain whose workload was restarted for another node may still time out waiting for its own pods to leave.
