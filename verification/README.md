# InsertAny3D batch scheduler

InsertAny3D runs every insertion task of a batch through a chain of fifteen stages: Unity views, image edits
with a review gate, a remote reconstruction pipeline over SSH, and evaluation. One controller process keeps
the whole batch in SQLite tables and hands stages to workers under leases. This project models the
controller's tables and every call that rewrites them, the protocol of one remote attempt (the wrapper that
starts it, the shell scripts on the server, and the only exits from a fenced attempt), publication of files
across crashes, and the loops around them, and proves what holds after every run.

Check everything with `dafny verify dfyconfig.toml`.

## How it is built

| files | what they hold |
|---|---|
| `Tables`, `Transitions`, `Batch`, `Protocol` | the rows; what each call does to one task; the calls on the whole batch; `Step` and `Run` |
| `Controller` | `BatchController`, the calls as methods that rewrite the rows in place, each proved to make the step that `Protocol.Step` describes |
| `ChainShape`, `TaskInvariant`, `TaskSteps`, `RecoverySteps`, `OperatorSteps`, `RunInvariant` | the invariant of a task, kept by every call |
| `Evolution`, `Resources`, `Runs` | what a call may do to a row it does not own; the theorems over whole runs |
| `Dispatching`, `LeaseCalls`, `Reports`, `Decisions`, `Statuses` | what each call does, column by column and in the terms of its caller: who is handed out and with which rows, the lease's own calls, reports and successes, decisions, statuses |
| `OneBatch`, `LatePublish` | one planned batch taken step by step to its first remote stage; a run after which a fenced token still publishes |
| `RemoteHost`, `RemoteWorker`, `RemoteReleases`, `RemoteFencing`, `RemoteAftermath`, `RemoteRefusals`, `RemoteLateStarts`, `RemoteRecovery` | scripts and process table of the server, the wrapper, the end-to-end fencing theorem, when a release is safe for good, the runs in which it is not, and the recovery commands |
| `Publishing`, `Candidates`, `CandidatesOnRuns`, `Closing`, `ClosingRuns`, `Completion`, `Fairness`, `Budgets`, `Idempotency`, `InputRows`, `KeysOnRuns` | crash-safe publication, candidate confluence, progress and closing, bounded waiting, lease bounds, keys |
| `Submissions`, `LateCommits`, `Workers`, `ManualRetry` | what a submission and a recovery after it leave; a refused success that is committed after all; the wave runner and the batch worker; what `retry` does and when it keeps the chain |
| `ImageQueue`, `AliasAssignment`, `BalancedSelection` | the three self-contained algorithms |

The rows of all tables are grouped by task, stage and attempt, because every SQL statement selects them that
way and `attempt_id` is unique in the lease and commit tables. A query whose order or choice SQL leaves open
is a relation (`IsQueue`, `IsUnsettledList`, `IsExpiredList`, the two lookups by stage of the expiry), so the
theorems hold for every answer. Tokens are serial numbers, as the source's random tokens never repeat. Time
is a real number chosen by the caller; no theorem but `BoundedWaiting` needs it to increase. SHA-256 is an
uninterpreted function, injective where a lemma says so. Numbers of tasks, candidates, GPUs, crashes and
steps are unbounded.

`Runs` quantifies over all sequences of calls by workers, operators and the recovery, including calls with
stale, made-up or expired tokens. A call must name the attempt whose lease carries its token; the source only
compares stage and token, which is the same for every item that a dispatch handed out
(`Runs.TokenNamesItsAttempt`). `retry` is not among the calls; `ManualRetry` says exactly when it keeps the chain.

The remote theorems speak of behaviors in which controller calls, wrappers, recovery commands and the steps
of the server interleave. A call about a remote stage enters with what its program has seen (`Basis`): a whole
wrapper run, the failed checks before any wrapper, a raised executor, a recovery's probe and download, whose
answers are the server's. Nothing else is asked of it. A wrapper may start its attempt as long as it runs,
whatever has become of the lease, and a start call goes on by itself on the server. What is assumed of the
environment: an answer that was read is one the server gave to a script of that attempt; only the wrapper of
an attempt starts it; a remote result that reports its cleanup completed is the last act of the last live
member of its process group; the launching shell has not waited for the child before it reads the child's
start time; process ids in use are not given out again.

## What the code does not keep

* Three calls release the lease and the GPU of a remote attempt on less than fencing needs. The report of a
  refused download says that its cleanup is completed (`insertany3d/remote_worker.py:774-784`, `847-864`),
  whatever the result said. A raised executor is reported as a clean failure (`insertany3d/worker.py:311-319`),
  though its wrapper goes on, as after a database error in a heartbeat (`insertany3d/executors.py:204-247`). A
  resolution is allowed on MISSING (`insertany3d/remote_recovery.py:177-189`), which only says that nothing had
  been launched when the server was asked; a start call that lost its wrapper
  (`insertany3d/remote_worker.py:293-311`) or a wrapper that is still running can launch afterwards.
  `RemoteAftermath.ReleaseSafeExactlyIf` gives the exact condition, with `RefusalSafeExactlyIf` and
  `ResolutionSafeExactlyIf`; `RemoteRefusals.RefusalBreaksFencing`, `RemoteLateStarts.RaisedExecutorBreaksFencing`
  and `LateStartBreaksFencing` are runs from a planned batch in which it goes wrong.
* Publishing looks at no lease (`insertany3d/scheduler.py:495-506`, `1910-1935`): with a fenced token it still
  moves the files and marks the recorded intent published, even one that reconciliation failed for good. Only
  finalizing refuses. `Runs.FencedForever` says exactly when, `LatePublish.FencedTokenPublishes` is such a run.
* A stored API bucket keeps its own limits (`insertany3d/apiyi.py:163-168`), so a fixed queue runs above the
  limit it was asked for if the row says so (`ImageQueue.FixedLimitExactlyIf`).
* A submission that raises something else than a StoreError ends the batch worker without a report
  (`insertany3d/worker.py:172-181`): a success without artifacts or with a staged file that does not check out
  is a ContractError (`insertany3d/scheduler.py:424-430`, `1882-1908`), and publishing can fail with an OSError
  (`insertany3d/scheduler.py:1910-1935`). `Workers.BatchWorker.Run` says exactly when, and what stays leased.
* A success that the batch worker counts as failed can be committed all the same: if the submission is refused
  after its intent was recorded, because the directories clash or the lease ran out while files were moved
  (`insertany3d/worker.py:171-182`, `insertany3d/scheduler.py:495-506`), the recovery that follows the wave's
  refusal finalizes the intent without looking at a lease (`insertany3d/scheduler.py:508-526`).
  `Workers.BatchWorker.Run` counts exactly: succeeded equals the committed attempts of its log exactly if no
  refused one is rescued so; `LateCommits.RefusedIsCommitted` is a run in which one is.
* Expiry of an image-edit lease makes the stage ready again but leaves the generation row running
  (`insertany3d/scheduler.py:1334-1349`), so that candidate is never leased again
  (`Candidates.ExpiryStrandsCandidate`).
* The terminate script never prints `CLEANED` (`insertany3d/remote_worker.py:522-542`), the only answer with
  which `cancel_running` releases a lease (`RemoteRecovery.TerminateAnswer`, `CancelRunning`).
* `retry` of two rows of one task keeps the chain only if the query happens to return the smallest one last,
  and its SELECT has no ORDER BY (`insertany3d/scheduler.py:993-996`); `retry` of the transfer of a diverted
  task leaves the chain (`ManualRetry.RetryKeepsChainExactlyIf`, `RetryMakesTwoReady`).

## Model

| member | source | states |
|---|---|---|
| Runs.ChainShapeOnRuns | insertany3d/scheduler.py:1679-1743 | after every run each task is a succeeded prefix, one frontier and an inactive tail, or such a chain diverted to the debug bundle after one lost remote stage, and at most one of its stages is live |
| ChainShape.LinkedIsNormalOrDiverted | insertany3d/scheduler.py:2064-2097 | the local link between neighbours that every call keeps is enough for the global shape |
| ChainShape.PrefixSucceeded | insertany3d/scheduler.py:1684-1700 | an active stage has only succeeded stages before it, on its side of the debug bundle |
| ChainShape.OneLiveStage | insertany3d/scheduler.py:2064-2097 | two live stages of one task are the same stage, diverted or not |
| RunInvariant.StepInv | insertany3d/scheduler.py:177-2186 | every call keeps the invariant of every task, with any arguments that name the attempt of their token |
| RunInvariant.RunInv | insertany3d/scheduler.py:177-2186 | the invariant holds after every run of a planned batch |
| Runs.LeasesMatchStateOnRuns | insertany3d/scheduler.py:203-371 | a leased, running or committing stage has exactly one lease, unrevoked and on its newest attempt; a recovering one exactly that lease revoked; an idle one none |
| Runs.CandidateLeasesOnRuns | insertany3d/scheduler.py:242-302 | an unrevoked image-edit lease always runs a candidate of the current group whose row names that attempt |
| Runs.TokensUniqueOnRuns | insertany3d/scheduler.py:308-350 | two lease rows never carry the same token |
| Runs.RunKeepsFenced | insertany3d/scheduler.py:1873-1880 | a fenced token stays fenced on every run that does not reactivate its attempt |
| Runs.FencedForever | insertany3d/scheduler.py:419-422 | from then on, whatever else happens, no worker call with that token changes any row but a publish, which changes the tables exactly if the attempt has a recorded intent that is neither committed nor marked, and then that mark alone |
| LatePublish.FencedTokenPublishes | insertany3d/scheduler.py:1922-1935 | a run of a planned batch: prepared, canceled with its process left, and the fenced token still marks the intent published |
| Runs.SupersededIsFenced | insertany3d/scheduler.py:1873-1880 | an attempt that has a successor, or whose stage is not being worked on, is fenced |
| Runs.TokenNamesItsAttempt | insertany3d/scheduler.py:1873-1880 | at any time after a dispatch handed an item out, the stage has a live lease with its token exactly if the item's own attempt does, so comparing stage and token is enough |
| Runs.ArtifactsIffCommitted | insertany3d/scheduler.py:1937-2031 | artifact rows of an attempt are exactly the recorded ones if its intent is committed and none otherwise; an attempt given up by expiry has no intent |
| Runs.CommittedForever | insertany3d/scheduler.py:1937-2031 | nothing that follows changes a committed attempt or its artifacts |
| Runs.GateGuardsEveryRun | insertany3d/scheduler.py:1694-1738 | no stage behind the gate has an attempt unless the latest review accepted the edit, and a manual acceptance names a selectable succeeded candidate of the reviewed group |
| Runs.AttemptBudgetOnRuns | insertany3d/scheduler.py:239-308 | attempts never exceed max_attempts, per stage and per candidate of the image stage |
| Resources.RunKeepsResources | insertany3d/scheduler.py:1835-1871 | with fixed capacities, counting revoked leases, exclusive labels differ, counted resources stay within capacity and GPUs come from the pool prefix, on every run |
| Resources.LeasesNameTheirResources | insertany3d/dag.py:17-33 | on every run a lease of stage 4, 5, 6, 7 or 9 names one GPU of the pool, one of stage 0, 12 or 13 a Unity slot and its project's lock, and every other stage one slot of its own resource or, at the gate, nothing |
| Resources.ExclusiveResources | insertany3d/scheduler.py:1835-1871 | two lease rows never name the same GPU, and two of the Unity stages 0, 12 and 13 are never leased in one project |
| Resources.GpuLeasesBounded | insertany3d/scheduler.py:1858-1865 | GPU leases never outnumber the prefix of the pool that the capacity opens |
| RunInvariant.ReconcileSettlesAll | insertany3d/scheduler.py:508-526 | after a reconciliation no intent is prepared or published, so expiry never meets one |
| Publishing.CrashSafePublish | insertany3d/scheduler.py:424-526 | from a prepared intent with intact files and no output directory, any number of crashes at any point followed by a reconciliation ends in the files and rows of an uninterrupted commit_success |
| Publishing.CrashesChangeNothing | insertany3d/scheduler.py:1910-1935 | cut-off publications and reconciliations before a reconciliation leave no trace in its outcome, whatever the directories hold |
| Publishing.RecoveryDecides | insertany3d/scheduler.py:2033-2062 | recovery commits a prepared intent exactly if one of the two directories exists and holds every recorded file, and then leaves them as the output; otherwise it fails the intent for good, releases its lease and touches no file |
| Publishing.ReconciliationRestarts | insertany3d/scheduler.py:508-526 | a reconciliation that dies inside a row and is run again from that row ends where the uninterrupted one does |
| CandidatesOnRuns.ConfluenceOnRuns | insertany3d/scheduler.py:583-625 | from any point of a run at which a group starts, with refreshes, heartbeats, other tasks' calls and other stages' calls between its leases and results in any order: open and unreviewed while a candidate is unfinished, then succeeded with exactly one review of the group if some candidate was delivered, else failed for good |
| Candidates.OpenGroupMoves | insertany3d/scheduler.py:242-302 | an open group can be leased from, or a running candidate still holds its lease |
| Candidates.GroupTerminates | insertany3d/scheduler.py:242-302 | a group takes and settles candidates at most twice its attempt budget |
| Candidates.ExpiryStrandsCandidate | insertany3d/scheduler.py:1334-1349 | expiry leaves the candidate's row running without a lease; the stage can be leased again exactly if another candidate waits |
| Completion.RefreshReachesFixpoint | insertany3d/scheduler.py:1679-1743 | two rounds of the refresh loop reach a state that no round changes, from any state |
| Completion.NoWedgedTask | insertany3d/scheduler.py:2101-2132 | on scoped runs, after a refresh every running task has a ready stage or a stage with a lease |
| Completion.BatchCloses | insertany3d/scheduler.py:2144-2186 | on scoped runs, once every finalizer is ready, succeeded or canceled and a stage is lost, one aggregate update leaves no finalizer ready and makes the batch failed |
| Completion.SuccessMeansEverything | insertany3d/scheduler.py:2099-2142 | on scoped runs, a batch that becomes succeeded has every stage of every task succeeded |
| Fairness.CallServesEarlier | insertany3d/scheduler.py:225-238 | an unfiltered call that dispatches another task than one that could be served dispatches one whose last dispatch was not later |
| Fairness.BoundedWaiting | insertany3d/scheduler.py:225-345 | with an increasing clock, at most n - 1 dispatches pass by a task that has an allocatable stage at every call |
| Dispatching.AllocatedExactlyIf | insertany3d/scheduler.py:1835-1871 | a stage gets its resources exactly if each is there: a free GPU of the opened pool prefix, a slot below the capacity, the project lock |
| Dispatching.HandedOutIsDue | insertany3d/scheduler.py:203-303 | what is handed out is due, of a running batch, within the filter, ready or an image stage already at work, with its resources free |
| Dispatching.HandedOutRows | insertany3d/scheduler.py:304-371 | the rows of a dispatch: a fresh attempt under a fresh lease with its token and expiry, the lowest waiting candidate running it, the stage's state, the task's last dispatch; earlier attempts and candidates as they were |
| Dispatching.ServesInOrder | insertany3d/scheduler.py:225-238 | no stage that could have been leased comes before the one that is, by last dispatch of its task, then later stages first, then creation |
| Budgets.RunCounted | insertany3d/scheduler.py:239-308 | on runs without operator grants the attempts of a batch grow by exactly one per dispatch and its budget never grows |
| Budgets.LeasesBounded | insertany3d/scheduler.py:239-308 | such a run hands out at most as many leases as the budgets add up to |
| Budgets.TaskWithinBudget | insertany3d/scheduler.py:279-302 | a task's attempts, with one budget per image candidate, never exceed its summed budgets |
| Budgets.DeclaredAttemptsOnRuns | insertany3d/dag.py:17-33 | without operator grants no stage gets more attempts than its declared 1, 3, 1, 3, 2, 2, 2, 2, 1, 2, 2, 3, 1, 2, 3, counted per candidate at the image stage |
| Budgets.PlannedLeasesBounded | insertany3d/dag.py:17-33 | a planned batch hands out at most 27 leases per task and 3 per candidate without operator grants |
| Idempotency.CollectInputs | insertany3d/scheduler.py:1812-1823 | the loop over the query's rows collects the digests of the upstream inputs, with only the accepted candidate's file standing for the image stage |
| Idempotency.InputsIgnoreRowOrder | insertany3d/scheduler.py:1769-1833 | the same rows in any stored order give the same inputs |
| InputRows.ArtifactRowsAreUpstream | insertany3d/scheduler.py:1781-1790 | an artifact is among the rows of stage s, and then once, exactly if its stage is before s and its attempt succeeded and is the newest such one or of the image stage |
| InputRows.KeptAreIngredients | insertany3d/scheduler.py:1812-1823 | a digest goes into a key as often as such artifacts have it, the image stage counting with the accepted file alone |
| KeysOnRuns.EqualKeysOnRuns | insertany3d/scheduler.py:1769-1833 | with injective hashes, the keys of any two stages in any two states of the runs of a batch are equal exactly if the same configuration, accepted file, multiset of upstream artifacts and, down the chain, upstream keys went in |
| KeysOnRuns.RefreshKeepsKeyExactlyIf | insertany3d/scheduler.py:1679-1743 | two refreshes of one stage in any two states of the runs compute the same key exactly if both have the same accepted file, every digest is on as many upstream artifacts in both, and every stage before it succeeded in both with the same key or in neither |
| KeysOnRuns.ChoicesSeparateKeys | insertany3d/scheduler.py:1791-1830 | accepting another picture of the same rows changes the key of every stage behind the gate |
| KeysOnRuns.OnePromotion | insertany3d/scheduler.py:1679-1711 | a round of the refresh promotes at most one stage of a task, so its order of updates does not matter |
| RemoteHost.SingleLaunch | insertany3d/remote_worker.py:471-520 | any number of concurrent or crashed start and probe calls launch at most one process |
| RemoteHost.MissingIsSound | insertany3d/remote_worker.py:455-520 | MISSING means that nothing had been launched when the lock was looked at |
| RemoteHost.ExitedIsSound | insertany3d/remote_worker.py:339-371 | EXITED means that the identity record names the one launch, which a reboot ended or whose leader and group are gone, for good |
| RemoteHost.RunningIsSound | insertany3d/remote_worker.py:339-371 | RUNNING, GROUP_RUNNING, STARTED and RESULT each mean what they say about that launch |
| RemoteHost.ProbeAnswers | insertany3d/remote_worker.py:339-371 | the answer of a probe that nothing interrupts follows from result, record, lock and process table, and it writes nothing |
| RemoteHost.LaterStartsOnlyReport | insertany3d/remote_worker.py:471-520 | a start call that finds a result or a record launches nothing and answers as a probe |
| RemoteHost.FirstStartLaunches | insertany3d/remote_worker.py:471-520 | a start call that finds neither launches the attempt as leader of its own group, records it and says STARTED exactly if the lock was free and the preparations are there |
| RemoteWorker.Wait | insertany3d/remote_worker.py:599-638 | the polling loop ends at the first lost contact or settled state, or is stopped while every answer keeps it waiting |
| RemoteWorker.WaitEndUnique | insertany3d/remote_worker.py:599-638 | the answers determine how the wait ends |
| RemoteWorker.WaitEndsWithFirstIdle | insertany3d/remote_worker.py:599-638 | the wait ends with the first answer other than STARTED and RUNNING, in that state or as lost contact |
| RemoteWorker.BusyStageIsAwaited | insertany3d/remote_worker.py:611-632 | as long as every answer is STARTED or RUNNING the wait goes on |
| RemoteWorker.RemoteStageRunner.Run | insertany3d/remote_worker.py:562-638 | the start is issued exactly if everything before it succeeded; before it every end is clean, after it the end follows from the wait and the download |
| RemoteWorker.FinishedStageIsReported | insertany3d/remote_worker.py:562-638 | a stage 4 to 10 whose first other answer is RESULT is downloaded and reported as its result, a refused download as REFUSED; any other answer and lost contact are an unknown delivery |
| RemoteWorker.ReportedResultReachesWorker | insertany3d/executors.py:252-294 | a written result reaches the worker unchanged, but a crash, a stall and a success without cleanup become an unknown delivery |
| RemoteWorker.SucceedsExactlyIf | insertany3d/executors.py:238-294 | a stage succeeds exactly if its wrapper exits with 0 and leaves its own result that says succeeded and cleaned up; an exit with 0 and any other file is compile_or_contract |
| RemoteWorker.LostWrapperIsUnknown | insertany3d/runtime_workers.py:222-235 | a wrapper that is killed or fails without a result is an unknown delivery, not cleaned up |
| RemoteWorker.CleanReportsHaveEvidence | insertany3d/runtime_workers.py:222-235 | a report that nothing is left running rests on a start that was never issued, a remote result that says so, or a refused download |
| RemoteWorker.SuccessHasCleanResult | insertany3d/executors.py:252-294 | a success report rests on a valid remote result that reports its cleanup |
| RemoteFencing.JustifiedIsPermitted | insertany3d/runtime_workers.py:187-235 | what the wrapper, its worker and the recovery commands have seen of the server means that nothing of the attempt runs or will whenever they release its lease, but for a refused download, a raised executor and a resolution on MISSING |
| RemoteFencing.WorkerCallsJustified | insertany3d/executors.py:252-294 | every call the worker makes for an ended wrapper run is one the fencing theorems admit |
| RemoteFencing.WitnessedStays | insertany3d/remote_worker.py:562-638 | what an ended wrapper has seen stays true through whatever happens later, crashes and reboots included |
| RemoteReleases.OnlySettlementReleases | insertany3d/scheduler.py:1307-1333 | only a settled report, a publication, a resolution or the recovery of a recorded intent deletes the lease of a remote process stage; expiry and cancellation never do |
| RemoteFencing.LiveGroupsAreLeased | insertany3d/remote_worker.py:562-638 | in every behavior of lease, start, lost contact, expiry, probe, recovery, resolution and cancellation, with start calls in flight and wrappers that outlive their lease, a live process group's attempt still has its lease row, if those three calls are only made when nothing is ahead |
| RemoteFencing.LiveGroupsNeverShareGpu | insertany3d/scheduler.py:1858-1865 | in the same behaviors two live process groups of stages 4, 5, 6, 7 and 9 never use the same GPU |
| RemoteFencing.CheckedRefusalsAreCautious | insertany3d/remote_worker.py:774-784 | with the other two calls made only when nothing is ahead, looking at whether the remote result reports its cleanup before reporting a refused download is enough for the two theorems above |
| RemoteRefusals.RefusalsSafeExactlyIf | insertany3d/remote_worker.py:847-864 | over all behaviors of planned batches: a refused download keeps its attempt leased or its group dead wherever it can be reported exactly if the remote result reports its cleanup completed |
| RemoteRefusals.RefusalBreaksFencing | insertany3d/remote_worker.py:758-785 | a behavior of a planned batch, through three finished stages, launch, result and download, at whose end the refused report has released the GPU of a live group |
| RemoteAftermath.ReleaseTakesLease | insertany3d/remote_worker.py:774-784 | wherever one of the three calls may be made, it deletes the lease row and leaves the server as it was |
| RemoteAftermath.ReleaseSafeExactlyIf | insertany3d/remote_recovery.py:177-189 | for each of the three calls, in any behavior: whatever happens afterwards, no live group is ever without a lease row exactly if nothing of the attempt is ahead when the call is made |
| RemoteAftermath.RefusalSafeExactlyIf | insertany3d/remote_worker.py:847-864 | for a refused download that is exactly if its group is dead |
| RemoteAftermath.ResolutionSafeExactlyIf | insertany3d/remote_worker.py:471-520 | for a resolution: exactly if nothing lives, no launch is pending, and, unless the lock is taken, the wrapper is over and no start call heads for the lock; after EXITED always |
| RemoteLateStarts.LateStartBreaksFencing | insertany3d/remote_worker.py:293-311 | a behavior of a planned batch: a start call loses its wrapper before the lock, the attempt is fenced, the server says MISSING, the attempt is retried, and the late start launches a live group without a lease row |
| RemoteLateStarts.RaisedExecutorBreaksFencing | insertany3d/worker.py:311-319 | a behavior of a planned batch in which the executor raises while its group lives, and the report releases the lease |
| RemoteRecovery.RemoteRecoveryManager.RecoverResult | insertany3d/remote_recovery.py:100-160 | acts exactly on a fenced attempt whose probe said RESULT; reactivates it and hands the result over as its worker would: a success is stored exactly if the attempt is then committed with these artifacts, a failure exactly if its report was accepted; the calls made are a prefix of that submission, and the lease is only released for a valid result that reports its cleanup |
| RemoteRecovery.TargetedExactlyIf | insertany3d/remote_recovery.py:239-268 | the commands accept exactly a recovering attempt of stages 3 to 11 whose revoked lease has the token and whose stage was given up as delivery_unknown |
| RemoteRecovery.RemoteRecoveryManager.ResolveStopped | insertany3d/remote_recovery.py:162-194 | acts exactly if the attempt is fenced and the server said EXITED or MISSING; then that lease row and no other is gone and the stage is ready with an attempt left, or failed for good |
| RemoteRecovery.RemoteRecoveryManager.CancelRunning | insertany3d/remote_recovery.py:196-237 | with any answer the script can give it changes no row; a CLEANED answer would settle the attempt as asked |
| RemoteRecovery.RecoveryStaysJustified | insertany3d/remote_recovery.py:100-160 | once the server has answered RESULT and the download is its result, every call of RecoverResult is one the fencing theorems admit, at that moment and after any further events |
| RemoteRecovery.ResolutionStaysJustified | insertany3d/remote_recovery.py:162-194 | once the recovery's own probe was answered EXITED or MISSING its call stays admitted; after EXITED nothing of the attempt is ahead at any later time, and after MISSING the call keeps the fencing exactly if nothing is |
| RemoteRecovery.TerminateAnswer | insertany3d/remote_worker.py:522-542 | the terminate script never answers CLEANED, answers RESULT exactly if a result is there before or after, and says that the group remains exactly if it survives the signals |
| Controller.BatchController.RefreshReady | insertany3d/scheduler.py:1679-1743 | the loop terminates within three rounds and leaves every task at the fixpoint |
| Controller.BatchController.AllocateResources | insertany3d/scheduler.py:1835-1871 | all resources of a stage or none |
| Controller.BatchController.SelectQueue | insertany3d/scheduler.py:215-238 | exactly the eligible rows, each once, in dispatch order |
| Controller.BatchController.LeaseNext | insertany3d/scheduler.py:203-371 | refreshes, then leases the first row of the queue that can be leased, and returns its item |
| Controller.BatchController.RequireLease | insertany3d/scheduler.py:1873-1880 | accepts exactly if the stage has an unrevoked, unexpired lease with that token |
| Controller.BatchController.MarkRunning | insertany3d/scheduler.py:373-391 | makes the protocol's step, refused exactly without the lease |
| Controller.BatchController.Heartbeat | insertany3d/scheduler.py:393-417 | makes the protocol's step, refused exactly without the lease |
| LeaseCalls.RefusedWithoutLease | insertany3d/scheduler.py:373-424 | without a current lease, or for the exits without a fenced attempt, no call changes a row |
| LeaseCalls.HeartbeatRenews | insertany3d/scheduler.py:393-417 | the new expiry is now plus the lease time, and no other column changes |
| LeaseCalls.MarkRunningStarts | insertany3d/scheduler.py:373-391 | renews the lease, notes the boot, and puts attempt and stage to work |
| LeaseCalls.PrepareRecords | insertany3d/scheduler.py:424-493 | the intent is recorded with its artifacts exactly if there is one and none was recorded |
| Controller.BatchController.PrepareArtifactCommit | insertany3d/scheduler.py:424-493 | records the intent exactly for a held lease without one, a nonempty list and staged files that check out; an empty list or a bad file escapes as another error than a refusal |
| Controller.BatchController.PublishCommitFiles | insertany3d/scheduler.py:1910-1935 | marks the intent published unless it is committed; refuses clashing directories and a missing intent, and lets unusable files escape |
| Controller.BatchController.FinalizeArtifactCommit | insertany3d/scheduler.py:1937-2031 | settles the attempt, its candidate and its review, or changes nothing |
| Reports.SuccessEffect | insertany3d/scheduler.py:1937-2031 | every row after a finalized success: artifacts, commit, candidate, stage, review, and the lease gone |
| Reports.SuccessOpensNext | insertany3d/scheduler.py:1679-1700 | after a success of a plain stage the next pending stage is ready |
| Controller.BatchController.Fail | insertany3d/scheduler.py:528-656 | makes the protocol's step: verdict, candidate, partial success, diversion, release |
| Reports.ReportEffect | insertany3d/scheduler.py:528-656 | every row after a report of a stage without candidates: the verdict by declared status, code and attempts left, the pause, the lease, and the diversion of a lost remote stage |
| Reports.CleanReportSettles | insertany3d/scheduler.py:553-576 | after a clean report the attempt is ready exactly if attempts are left and it was declared retryable or undeclared with one of six passing codes, never for an unknown delivery; waiting_manual, rejected, canceled and failed_terminal in exactly the remaining cases; a retry waits now + max(0, retry_after) |
| Reports.UncleanReportFences | insertany3d/scheduler.py:553-576 | a report without completed cleanup leaves attempt and stage recovering with the revoked lease row |
| Reports.RetryWaits | insertany3d/scheduler.py:576-656 | no dispatch hands the retried stage out before the reported pause is over |
| Reports.CandidateReportEffect | insertany3d/scheduler.py:583-625 | a candidate's report: its row is retryable or lost, and the stage stays open, fails, or succeeds with a review of the newest delivered attempt exactly as the whole group stands |
| Controller.BatchController.RouteDebugBundle | insertany3d/scheduler.py:2064-2097 | cancels what can no longer run and makes the debug bundle ready |
| Controller.BatchController.ReconcileArtifactCommits | insertany3d/scheduler.py:508-526 | settles every open intent in turn, from rows read at the start |
| Controller.BatchController.RecoverExpired | insertany3d/scheduler.py:1269-1361 | reconciles, then revokes and settles or fences every expired lease; what is cleaned up is what the environment answered for that process |
| LeaseCalls.ExpiryFinds | insertany3d/scheduler.py:1269-1306 | the recovery takes up, each once, exactly the leases that are not revoked and are over or started under another boot |
| LeaseCalls.ExpirySettles | insertany3d/scheduler.py:1307-1361 | an expired remote stage is fenced; any other is ready exactly if its process is gone and attempts are left, and keeps its revoked lease exactly if it is not gone |
| Controller.BatchController.ReactivateRecoveringItem | insertany3d/scheduler.py:1067-1120 | gives exactly the fenced attempt its own lease back |
| LeaseCalls.ReactivationRestores | insertany3d/scheduler.py:1067-1120 | the same lease, unrevoked, for a full lease time |
| Controller.BatchController.ResolveRecoveringItem | insertany3d/scheduler.py:1122-1197 | retries or terminates exactly the fenced attempt |
| LeaseCalls.ResolutionEnds | insertany3d/scheduler.py:1122-1197 | a retried stage is ready with room for one more attempt, a terminated one failed for good; the lease row is gone and every other task is as before |
| Controller.BatchController.Cancel | insertany3d/scheduler.py:1199-1267 | refuses while a remote process stage has a lease row, otherwise cancels in two passes |
| LeaseCalls.CancellationEffect | insertany3d/scheduler.py:1199-1267 | refused exactly if a remote process stage holds a lease row; otherwise every open stage is canceled or, with a process left, failed with its lease revoked |
| Controller.BatchController.DecideEdit | insertany3d/scheduler.py:835-973 | accepts, rejects, cancels or regenerates exactly an undecided review with a selectable choice |
| Decisions.DecisionEffect | insertany3d/scheduler.py:789-973 | a decision is made exactly if the review waits and the choice, or some candidate, succeeded with an image; then reviews, candidate, groups and stages are as the verdict says |
| Decisions.AcceptanceHolds | insertany3d/scheduler.py:887-905 | after an acceptance the accepted candidate is the chosen one, or without a choice the lowest selectable, and the gate is open |
| Decisions.PolicyAccepts | insertany3d/scheduler.py:1694-1738 | the policy of an automatic batch accepts exactly if its latest review has a selectable candidate, and takes the lowest |
| Controller.BatchController.UpdateAggregateStatus | insertany3d/scheduler.py:2099-2142 | restates every task and the batch after the finalizers are settled |
| Statuses.StatusMeans | insertany3d/scheduler.py:2101-2132 | a task fails with any failed stage, is rejected with a rejected one otherwise, and is canceled or succeeded only once nothing is left to come |
| Statuses.BatchStatusMeans | insertany3d/scheduler.py:2133-2142 | the batch succeeds or is canceled only with all its tasks and fails only once none is open |
| Statuses.SkipsExactlyIf | insertany3d/scheduler.py:2144-2186 | ready finalizers are skipped exactly if every finalizer is ready, succeeded or canceled and some stage of some task is lost |
| Controller.BatchController.SkipIncompleteEvaluation | insertany3d/scheduler.py:2144-2186 | cancels the ready finalizers exactly if all tasks are at the boundary and something is lost |
| Workers.FakeRunner.RunUntilBlocked | insertany3d/executors.py:124-153 | unless it raises, every lease it took is in its log, and exactly the logged attempts whose outcome was a success are committed at the end; with a wave limit above the budget that is left it never ends as a retry storm |
| Workers.FakeRunner.RecordPeaks | insertany3d/executors.py:131-142 | the recorded peaks cover the wave and never exceed the capacity of a counted resource |
| Submissions.CommitMeans | insertany3d/scheduler.py:424-506 | a submitted success is committed with exactly its artifacts exactly if the lease is held at both ends, no intent was recorded, and the files check out and are published; otherwise a recorded intent stays open under its lease |
| Submissions.RecoverySettles | insertany3d/scheduler.py:508-526 | a recovery leaves no intent open, and an only open one is committed exactly if its files agree |
| Workers.CommitSuccess | insertany3d/scheduler.py:419-506 | stored exactly if the attempt is committed with exactly these artifacts afterwards and was not before; the tables are those of the recorded, published and finalized intent as far as it gets |
| Workers.Submit | insertany3d/worker.py:171-208 | a success goes through commit_success, a failure is one fail with its report, accepted exactly with the lease held |
| Workers.BatchWorker.Run | insertany3d/worker.py:113-208 | returns a report exactly if the batch runs and no submission escapes; then processed = succeeded + failed, one lease each, within max_steps and the budgets; every logged attempt is committed with its artifacts exactly if its submission landed or a recovery rescued it, so succeeded is at most the committed ones, and equal exactly if none was rescued; after an escape the recorded intent stays prepared, and its item and the rest of its wave stay leased unless a recovery of the same wave came between |
| LateCommits.RefusedIsCommitted | insertany3d/worker.py:171-182 | from a planned batch: a success recorded in time and published after its lease ran out is refused, counted as failed, and committed by the recovery |
| ManualRetry.RetryKeepsChainExactlyIf | insertany3d/scheduler.py:975-1013 | for rows in any order: retry keeps the chain exactly if no row of the task is selected, or the one processed last is the smallest, sits behind a succeeded stage, and is not the download of a diverted task |
| ManualRetry.Retry | insertany3d/scheduler.py:993-1009 | the nested loop makes each selected row ready and everything behind it pending, in the order the query returned |
| ManualRetry.RetriedColumns | insertany3d/scheduler.py:1000-1009 | the last processed row at or before a stage makes it ready or pending with delay and error cleared; attempts stay, and a retried row has room for one more |
| ManualRetry.RetryMakesTwoReady | insertany3d/scheduler.py:1000-1009 | a diverted task whose two lost rows are retried has two ready stages if the smaller row comes first, and keeps its chain if it comes last |
| ImageQueue.AdaptiveImageQueue.TryAcquire | insertany3d/apiyi.py:198-210 | admits exactly outside the pause and below the limit, and then takes one place, as the traces have it |
| ImageQueue.AdaptiveImageQueue.Release | insertany3d/apiyi.py:212-244 | the whole new bucket after any outcome |
| ImageQueue.ReleaseMeans | insertany3d/apiyi.py:212-244 | a 429 halves the limit down to one at least and pauses as asked or by the table, a 503 pauses, a full window of successes of an adaptive queue raises the limit by one below the maximum, and every end frees a place |
| ImageQueue.TraceBounds | insertany3d/apiyi.py:198-244 | over any matched trace from any sound bucket, new or stored: 1 <= limit <= maximum, in_flight grows by acquires minus releases and stays within the maximum, growth is paid for by successes, and a fixed queue never raises the limit it found |
| ImageQueue.FixedLimitExactlyIf | insertany3d/apiyi.py:163-168 | a fixed queue keeps to the limit it was asked for over all traces exactly if the bucket it found does |
| ImageQueue.Monotone | insertany3d/apiyi.py:212-244 | the cooldown never moves back, and no event raises a fixed limit |
| ImageQueue.NoAdmissionDuringPause | insertany3d/apiyi.py:198-210 | after a 429 or 503 nothing is admitted before the announced pause is over |
| AliasAssignment.FreeAlias | insertany3d/stage_wiring.py:262-270 | the suffix loop terminates with the preferred alias or its first free suffix |
| AliasAssignment.AssignAliases | insertany3d/stage_wiring.py:258-342 | one alias per record in order, and a dictionary that maps every alias to its record |
| AliasAssignment.AliasesDistinct | insertany3d/stage_wiring.py:258-342 | no two records share an alias |
| AliasAssignment.FirstClaimantKeeps | insertany3d/stage_wiring.py:262-270 | a record keeps its preferred alias exactly if no earlier record was given it |
| AliasAssignment.SameAliasCounts | insertany3d/stage_wiring.py:262-270 | records that all prefer one alias are called by it, by it with _2, with _3 and so on |
| AliasAssignment.AssignmentUnique | insertany3d/stage_wiring.py:258-342 | the preferences determine the assignment |
| BalancedSelection.RoundRobin | tools/estimate_similarity_pose.py:171-182 | terminates with exactly limit indices, round by round and within a round in the order of the cells, the top of every cell, and counts that differ by at most one unless the smaller cell is exhausted |
| BalancedSelection.BalancedIndices | tools/estimate_similarity_pose.py:146-183 | all indices if they are few enough, the best ones without a grid, otherwise exactly limit distinct members chosen fairly over the cells |
| BalancedSelection.CellsPartition | tools/estimate_similarity_pose.py:160-166 | every index falls into exactly one cell of the grid |
| BalancedSelection.MatchLiesInItsCell | tools/estimate_similarity_pose.py:160-166 | a match inside the image lies in the cell it is counted to, rows from the top and columns from the left |
| BalancedSelection.CellsMean | tools/estimate_similarity_pose.py:160-170 | the cells that are used come in the order of their numbers, each with exactly its members, best first |

## Left out

- CandidatesOnRuns.ConfluenceOnRuns: a commit_success of the group's candidates is not interrupted, and expiry of their leases, unknown deliveries, rejections, cancellation and regeneration of the group are not among the calls, because each of them changes the whole stage (insertany3d/scheduler.py:560-625, 1955).
- Completion.NoWedgedTask: leaves out reports with stage_status canceled, rejected image candidates, workers that use the controller's own skip code, and decisions on a canceled gate, because with them it does not hold (insertany3d/scheduler.py:560-561, 835-973); BatchCloses and SuccessMeansEverything have the same scope.
- Runs.LeasesMatchStateOnRuns: says nothing of the image stage, where several candidates hold leases at once; CandidateLeasesOnRuns takes its place.
- RemoteFencing.LiveGroupsAreLeased: leaves out the three calls of "What the code does not keep" when something of the attempt is still ahead, because there it is false; RemoteAftermath.ReleaseSafeExactlyIf is the exact condition.
- Resources.ExclusiveResources: slot labels are not claimed to differ, because the source only bounds their number (insertany3d/scheduler.py:1867-1870).
- BalancedSelection.BalancedIndices: ties of equal confidence without a grid are ordered by index, where the source's argsort leaves them open; coordinates and confidences are real numbers.
- Workers.BatchWorker.Run: the executor's own mark_running and heartbeat calls, the thread pool, errors of the database itself, and the audit columns of a refused submission (insertany3d/worker.py:226-290) are not part of this model.
- Workers.FakeRunner.RunUntilBlocked: the fake artifacts of the Unity evaluation are one recorded artifact.
- ImageQueue.AdaptiveImageQueue.TryAcquire: one look of acquire's loop; the waiting loop of acquire, its timeout, and the ownership of a bucket by one process are not modeled.
- AliasAssignment.AssignAliases: takes each record's safe preferred alias as given; the patterns that derive it and the pure reference helpers are not modeled.
- RemoteRecovery.RemoteRecoveryManager.RecoverResult: path checks and the moving of transport evidence are one answer of the environment; a crash between its two controller calls is a run of those calls and covered there.
- RemoteWorker.RemoteStageRunner.Run: request parsing, plan construction, hashes of local inputs and the retry of a command by ssh itself are one answer each.
- Controller.BatchController.PrepareArtifactCommit: the checks of the staged files (insertany3d/scheduler.py:1882-1908) are one answer of the environment.
- Controller.BatchController.PublishCommitFiles: how the directories are moved is one answer of the environment; `Publishing` models it.
- Controller.BatchController.ReactivateRecoveringItem: refuses the image-edit stage, which the source method does not, because its only caller refuses stages outside the remote plan (insertany3d/remote_recovery.py:271-293); ResolveRecoveringItem likewise.
- RunInvariant.StepInv: a made-up item that carries the token of another attempt of its stage is refused in the model and accepted by the source (insertany3d/scheduler.py:1873-1880).
- Controller.BatchController.RecoverExpired: each lease is revoked in one transaction and settled in another, with the local process cleanup between them; a controller that dies in between leaves a stage leased under a revoked lease, which is not a step of `Run`. The same holds between the passes of Cancel.
- ManualRetry.RetryKeepsChainExactlyIf: speaks of stage states only; that retry resets stages which hold leases, can reopen a rejected gate, and sets the batch running again is not part of it.
- Idempotency keys are a history beside the modeled rows (`KeysOnRuns.RunKeys`), because nothing the controller does depends on them; paths of files, contract versions and planned configurations are parameters, and the query's choice among several image files of one candidate is one of them.
- Runs.FencedForever: the worker's own audit write after a refused submission, which is no controller call and only sets error and message columns (insertany3d/worker.py:226-290), is not part of it; the moved files are in `Publishing`.
- One batch; SQL, JSON, migrations, events, messages, previews, directories, hashing, subprocess and SSH mechanics, credentials, the command line, doctor, gc and GPTEval.
- The artifact-id suffix of a finalized duplicate, review pages, stage requests and command building.
- Rendering, segmentation, matching, reconstruction and the numeric pose fit.
