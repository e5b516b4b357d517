# The gq scheduler kernel, verified

gq queues jobs for the GPUs of one machine. A daemon keeps jobs and their GPU reservations in a
SQLite file, looks at the devices through NVML and at processes through /proc, and starts each job
in a process group of its own. Its stated invariant is that a GPU assigned to a managed job is
never at the same time allocatable. No constraint of the schema enforces this: it rests on every
step the scheduler takes, including crashes between two transactions and restarts. This project
models those steps and proves the invariant and what gq promises around it.

`dafny verify dfyconfig.toml` checks the whole project.

## How the model is layered

- `Models`, `Sorting`, `Allocator`, `Tables`: records, classification and selection of GPUs, and the
  durable tables as a value with one function for each transaction and query.
- `Processes`: a process table in which processes fork, exit, lead new groups and join others, under
  the pid reuse rule of section 4.14 of the POSIX.1-2017 Base Definitions, and the identity test.
- `Protocol`: the whole system (tables, machine, daemon memory) as a state machine. A history is a
  list of events: each transaction, each change of the daemon's memory, process activity, passing
  time, crash, restart, reboot. `Legal` says which events are possible when.
- `Invariants`, `Safety`, `Moments`, `Pass`, `FailFast`, `Streaks`, `Reasons`, `Lineage`, `Recovery`,
  `Answers`, `Calls`, `Timestamps`: theorems about all legal histories, all tables or all timestamps.
- `Witnesses`: legal histories that reach the cases the theorems warn of.
- `DatabaseModel`, `KernelModel`, `SchedulerModel`: the objects as classes with fields that are
  updated in place. `Scheduler` keeps a ghost history; every method proves that it extends a legal
  history by legal events, so the theorems hold of any use of it and of a crash at any point. Each
  method also promises which holds it may release, and whether it may resume a paused queue.
  `SchedulerFacts` holds the lemmas its loops rest on.
- `DaemonModel`: requests and the coroutines that follow a job, served in any order, over restarts.

The environment is adversarial: before every read of /proc and around every launch any possible
process activity may happen, a scan may return any devices or fail, a launch may end in any way. A
lock hold of the daemon is one method; nothing else of the daemon happens during it.

## Assumptions

- One scan reports no UUID twice, and no compute PID twice on one device. A scan of /proc is exact at
  one moment.
- Every `utc_now` is later than all before. The database commits a transaction whole or not at all.
- Two processes that have the same pid in one boot have different start times, and a pid is not
  given out while a process or a process group has that number.
- A start time read for a launched child is the child's own. A readable boot id is that of the
  running machine; it may also be unreadable.
- The daemon's requests, monitors and its loop take the lock one at a time.

## Where the code differs from what its texts say

- The docstring of `managed_process_group_alive` says that a recycled group necessarily has a leader
  with another start time. If that leader has exited, the code answers "alive"
  (`Processes.LeaderlessSuccessorFoolsTheTest`). The exact condition is in `Processes.AliveExactly`.
- `docs/architecture.md:66-67` calls the memory a mirror of the hold table. Its groups are; the
  reason of a group held again is updated in memory only (`Witnesses.ReasonsMayDiffer`). Which reason
  each of the two has in any state is in `Reasons.ReasonsAgreeExactly`.
- `docs/architecture.md:38-39` has a failed launch release its GPUs. It does so even when other
  processes of the child's group live, and so does a launcher that exits with code 0 before its start
  time is read: then two living groups share a GPU (`Witnesses.AWorkerOutlivesItsLaunch`). A recovery
  after a crash between the spawn and `mark_running` does the same. The guarantee for living groups
  therefore starts when a job reaches RUNNING.
- `docs/architecture.md:83-85` has a signal not go by the numeric id alone. Between the test and
  `killpg` the group may end and its number go to another; then the other group gets the signal, and
  so does a leaderless successor. When it is the job's own is `Processes.SignalReachesExactly`.
- The guarantee for living groups ends when an ORPHANED row is deleted (`Witnesses.AnOrphanLosesItsGpuAlive`).
- "In a row" means in a row among the rows that exist: deleting a success can put a group on hold at
  the next failure (`Witnesses.DeletionPutsAGroupOnHold`). A deletion changes what the check looks at
  exactly if it deletes one of the outcomes in the window
  (`Streaks.DeletionChangesTheWindowExactly`). Failures found by recovery or reaping count as
  outcomes, but are never checked themselves.

## Model

| member | source | states |
|---|---|---|
| `Invariants.InvariantHolds` | src/gq/database.py:39-44 | After any legal history (any number of daemon lifetimes, a crash after any transaction, any process activity) no GPU UUID is in the rows of two jobs that are STARTING, RUNNING, CANCELLING or ORPHANED, at most one job per key is neither FAILED nor CANCELLED, and the lineage, row, process and memory facts hold; the schema enforces none of it |
| `Invariants.StepKeepsInv` | src/gq/scheduler.py:485-707 | Every single step of the protocol (each transaction, memory change, environment step, crash, restart, reboot) keeps the whole invariant |
| `Invariants.ReserveKeeps` | src/gq/database.py:250-262 | A reservation of unreserved devices keeps every table invariant, exclusivity first |
| `Invariants.FinishKeeps` | src/gq/database.py:297-312 | `finish` has no guard on the state, yet as the scheduler calls it no terminal job becomes live again and nothing else breaks |
| `Safety.NoGpuIsHeldTwice` | docs/architecture.md:30-39 | In every reachable state two different jobs that are STARTING, RUNNING, CANCELLING or ORPHANED have no GPU UUID in common |
| `Safety.AssignmentsAreAFunction` | src/gq/database.py:314-325 | `assignments` maps a UUID to a job exactly if that job is the one that holds it, in both directions |
| `Safety.AssignedIsNeverAllocatable` | docs/architecture.md:30-32 | The documented invariant: a GPU a job holds is never among the selected devices, whatever NVML reports, whatever the process table answers and however many GPUs are asked for |
| `Safety.LivingJobsNeverShareAGpu` | docs/architecture.md:30-39 | Two jobs with a recorded process whose groups both have a living process have disjoint GPU sets |
| `Safety.ReservationsAreConserved` | src/gq/database.py:314-325 | The number of reserved UUIDs is the sum of the GPUs requested by the jobs holding some, and waiting jobs have no GPU rows |
| `Safety.KeptWhileTheGroupLives` | src/gq/scheduler.py:590-707 | A job that reached RUNNING keeps exactly its GPUs, reserved for it, while any process of its original group lives, over monitor, reaping, recovery, cancellation and restarts; only deleting its row ends that, and if it is terminal by then it is ORPHANED |
| `Safety.GoneStaysGone` | src/gq/scheduler.py:596-600 | What an unlocked poll saw (the group is gone) is still true whenever the lock is taken later, also if the row was deleted meanwhile |
| `Safety.DeadForEver` | src/gq/processes.py:55-61 | A process group once gone never comes back, over process activity, launches and reboots, although its number may |
| `Safety.LifecycleIsKept` | src/gq/models.py:13-30 | At any later time a job's state lies further along the lifecycle graph, terminal rows are unchanged, ids are not reused and identity, GPU rows and process record never change |
| `Safety.StepIsAnEdge` | src/gq/models.py:13-30 | Every single step takes a job along one edge of the lifecycle graph or leaves its row as it is; only terminal rows are deleted, and new rows are WAITING |
| `Safety.EndsAreEarned` | src/gq/scheduler.py:601-615 | Whenever a job becomes DONE, a child was started for it and exited with code 0, and its group is gone if it had reached RUNNING; whenever it becomes ORPHANED, it had reached RUNNING and the daemon misses one of its devices |
| `Safety.DoneMeansExitZero` | src/gq/scheduler.py:545-615 | In every reachable state a DONE job was started and has exit code 0 |
| `Safety.NeverStartedTwice` | src/gq/database.py:250-262 | A job that has left the queue, by cancellation or otherwise, is never reserved again on any continuation |
| `Safety.StatesMean` | src/gq/allocator.py:19-46 | What FREE, EXTERNAL, RESERVED, RUNNING and UNKNOWN mean on reachable tables, each as an if-and-only-if about who holds the device and what runs on it, with the precedence of the branches worked out |
| `Safety.NoReservationIsStale` | src/gq/allocator.py:26-28 | The stale-reservation branch never fires, on any tables: assignments are read from the jobs themselves |
| `Safety.PatchedStatusesAreRight` | src/gq/scheduler.py:500-514 | Between reservation and launch the patched statuses equal a classification of the new tables from scratch, for every field of every device |
| `Safety.ReservationIsEntitled` | src/gq/scheduler.py:485-507 | Whenever a job is reserved the queue runs, the scan succeeded, its group is not held in the table, every older waiting job must wait, and the devices are the requested number of readable, idle, unreserved ones, none of a higher index than one left out |
| `Safety.WhoMustWait` | src/gq/scheduler.py:489-499 | On reachable states, who must wait: a job of a group held in memory, or one that asks for more GPUs than are readable, idle and in no row of a STARTING, RUNNING, CANCELLING or ORPHANED job |
| `Safety.AvailableIsAllocatable` | src/gq/allocator.py:19-46 | A device is allocatable exactly if it is readable and idle and no job in one of those four states has its UUID |
| `Safety.HoldsAreMirrored` | src/gq/scheduler.py:325-336 | The held groups in memory are exactly the held groups of the table, in every state with a daemon |
| `Safety.HeldUntilReleased` | docs/architecture.md:66-70 | From a hold to its release the group stays held in the table and in every daemon's memory, restarts included, and none of its jobs starts: not those that waited, and not those submitted or retried since |
| `Calls.HoldLasts` | docs/architecture.md:66-70 | The same for any stretch of use that may not release the group: every job of it waits or was cancelled, or had started before |
| `Calls.ShutStartsNothing` | src/gq/scheduler.py:485-487 | While the daemon is stopping, or its queue is paused and not resumed, every job waits or was cancelled, or had started before |
| `Safety.ClosedQueueStartsNothing` | src/gq/scheduler.py:103-113 | While the queue is paused, stopping or without a successful scan, every active job was active before |
| `Safety.KeysAreUnique` | docs/architecture.md:72-73 | Of two jobs with one key at least one is FAILED or CANCELLED, over every interleaving of submission, retry, end, recovery and deletion; a DONE job keeps its key |
| `Safety.LineagesAreSound` | src/gq/scheduler.py:246-295 | Two attempts with the same first attempt (the recorded one, or the job itself) run the same thing, the older of the two is FAILED or CANCELLED, and roots are flat and older than their retries |
| `Reasons.ReasonsAgreeExactly` | src/gq/scheduler.py:326-328 | In every reachable state the daemon shows the reason a hold was given last, and the table keeps the one it began with; the two agree exactly if these are the same |
| `Witnesses.ReasonsMayDiffer` | src/gq/database.py:413-414 | A legal run that failures hold a group in and a client holds it once more: the daemon shows the manual reason and the table the automatic one |
| `Safety.DeletingAnOrphanFreesItsGpus` | src/gq/database.py:346-365 | The limit of the guarantee: deleting an ORPHANED job is possible and frees all its GPUs, with the machine as it was |
| `Safety.UnrecordedLaunchMayEnd` | src/gq/scheduler.py:545-588 | A launch that never reached RUNNING may be ended as FAILED at any time, and as DONE exactly if its child was started and exited with code 0 |
| `Safety.UnrecordedLaunchFreesItsGpus` | src/gq/scheduler.py:545-565 | The other limit: ending such a launch, either way, frees its GPUs with the machine as it was, without waiting for what it started |
| `Witnesses.AnOrphanLosesItsGpuAlive` | src/gq/database.py:346-365 | A legal run to an ORPHANED job whose group lives: the daemon dies, and the next one does not see the device; deleting the job leaves its GPU unassigned while the group lives on |
| `Witnesses.AWorkerOutlivesItsLaunch` | src/gq/scheduler.py:545-565 | A legal run in which an ultrashort launcher exits with code 0, its job is DONE, and the next job is launched on the same GPU while a worker of the first lives |
| `Processes.NeverReportsDeadWhileAlive` | src/gq/processes.py:52-72 | For every history of forks, exits, new groups and pid reuse after the spawn, and with the machine running on between the three reads, the group test says "alive" if any process of the original group lives at the end |
| `Processes.AliveExactly` | src/gq/processes.py:52-72 | On one snapshot the test says "alive" exactly if the original group lives or its number belongs to a successor without a leader; the docstring excludes the second case, the code does not |
| `Processes.AliveMeansOriginalOrLeaderless` | src/gq/processes.py:52-72 | With the machine running on between the reads, "alive" means that the original group lived when the test began or that a leaderless successor was there at the scan |
| `Processes.LeaderlessSuccessorFoolsTheTest` | src/gq/processes.py:66-72 | A concrete run in which the original group is gone and the test says "alive" |
| `Processes.SignalReachesExactly` | src/gq/processes.py:84-97 | A signal to a recorded group number in the job's boot goes to the job's own group, all of it and nobody else, exactly if that group still lives at delivery; otherwise to nobody of it |
| `KernelModel.ScanGroup` | src/gq/processes.py:34-49 | The scan of /proc collects exactly the pids whose process group is the given one |
| `KernelModel.Kernel.ManagedProcessGroupAlive` | src/gq/processes.py:52-72 | "Dead" is right about every group the record may stand for, and "alive" means the group was there when the test began or a leaderless successor came by during it |
| `KernelModel.Kernel.SignalManagedGroup` | src/gq/processes.py:84-97 | A signal is delivered only if the test said "alive" and the number still has a group, and then it goes to the job's own group exactly if that lives at delivery; without delivery the job's group is gone |
| `Allocator.ClassifyGpus` | src/gq/allocator.py:8-63 | The loop produces the specified status, in index order, for every observation |
| `KernelModel.Kernel.AskGroups` | src/gq/processes.py:75-81 | Each compute process is asked about by itself, the machine running on in between; the answer is "yes" exactly if the job has a group and the pid is one of a living process of that group at the moment it was asked |
| `KernelModel.Kernel.BootId` | src/gq/processes.py:8-12 | The answer is the boot id of the running machine exactly if the file could be read at that turn |
| `Allocator.FreeMeansAllocatable` | src/gq/allocator.py:19-46 | FREE is exactly: no error, no process, no reservation; the process table does not matter |
| `Allocator.OwnersSuffice` | src/gq/scheduler.py:470-483 | Classifying with the owning jobs only gives what classifying with all jobs gives |
| `Allocator.AnswersSuffice` | src/gq/allocator.py:29-38 | Only the answers about processes on devices with an owner matter for a classification |
| `Allocator.SelectionIsPrefix` | src/gq/allocator.py:66-71 | Selection takes the first devices of the allocatable ones in index order, all requested or none |
| `Allocator.SelectionIsLowest` | src/gq/allocator.py:66-71 | For any statuses: nothing if too few are FREE, otherwise exactly the requested number of FREE devices, none of higher index than a FREE one left out |
| `Allocator.OverlayIsReclassification` | src/gq/scheduler.py:500-514 | For observations with distinct UUIDs, patching the selected statuses equals reclassifying once the reservation is in the tables |
| `Tables.WaitingListIsExact` | src/gq/database.py:235-240 | The waiting list is exactly the WAITING jobs in (submit_time, id) order |
| `Tables.DeletionIsAllOrNothing` | src/gq/database.py:346-365 | Deletion succeeds exactly for distinct ids of terminal jobs and then removes exactly their rows; otherwise nothing changes |
| `Safety.RecordIsTheSpawnedProcess` | src/gq/database.py:264-282 | In every reachable state the process on record for a job is the one it was spawned with: pid, group and start time, and the boot if that could be read |
| `Safety.CancellationIsIrrevocable` | src/gq/database.py:284-295 | Once `set_cancelling` succeeded the job keeps its GPU rows for good; it is CANCELLING or ORPHANED, or it is CANCELLED or FAILED and its group is gone; never RUNNING or DONE again |
| `Safety.EndIsFinal` | src/gq/database.py:297-312 | What `finish` wrote on a legal step (state, exit code, reason, end time) and the GPU rows stay as they are on every continuation, as long as the row exists |
| `Tables.HoldsAreReadBack` | src/gq/database.py:403-431 | Setting a hold is read back by the queries: held with the reason it was held with first, or free and counting from its release; other groups and jobs are as before; a second setting changes nothing |
| `DatabaseModel.Database.CreateJob` | src/gq/database.py:143-194 | Key check and insertion in one transaction: created exactly if every job with the key is FAILED or CANCELLED, as one new WAITING row with the time of the call as its submit time; otherwise a job that has the key is named and nothing changes |
| `DatabaseModel.Database.Reserve` | src/gq/database.py:250-262 | WAITING to STARTING with the complete assignment, or no change |
| `DatabaseModel.Database.DeleteJobs` | src/gq/database.py:346-365 | Row by row with rollback: the specification's all-or-nothing result |
| `Pass.FreeNeverGrows` | src/gq/scheduler.py:485-517 | From a quiet moment on, whatever a pass does, launch failures included, every device that is FREE later was FREE before, and a job that must wait still must |
| `Pass.PassKeepsRow` | src/gq/scheduler.py:485-517 | A pass leaves every job alone that is not waiting |
| `FailFast.RecentAreNewest` | src/gq/database.py:433-444 | The query returns distinct outcomes of the group since its release, up to the limit, none left out being newer, and fewer than the limit only if there are no more |
| `FailFast.PassStopsAtTheThreshold` | src/gq/scheduler.py:371-396 | For a positive threshold one pass never launches more jobs of a group in a row that each fail quickly than the threshold, whatever came before and however many jobs wait; once that many have failed the group is held |
| `Streaks.EndTimesDiffer` | src/gq/database.py:307-312 | No two jobs of a reachable table have the same end time |
| `Moments.TimesAreMoments` | src/gq/database.py:250-312 | In every reachable state a job's submit time is the moment of the event that created its row, its start time that of its reservation and its end time that of its end |
| `Moments.QueueOrderIsCreationOrder` | src/gq/database.py:235-240 | The (submit_time, id) order of the waiting list is the order of creation, for retries as for first submissions |
| `Moments.WaitingRowIsBlank` | src/gq/database.py:170-194 | A waiting job, retried or not, carries no start, end, process, GPUs, exit code or reason of any run |
| `Streaks.HeldExactlyForAStreak` | src/gq/scheduler.py:371-396 | The check after a failure holds a group exactly if the failed job is in it, the threshold is set, and that many FAILED jobs of the group ended since its release, each less than the limit after its own reservation, such that every other DONE or FAILED one ended before them |
| `Streaks.OutcomesLeft` | src/gq/database.py:346-365 | A deletion takes the deleted jobs out of the list of outcomes and leaves the others in their order |
| `Streaks.DeletionChangesTheWindowExactly` | src/gq/database.py:433-444 | A deletion changes the outcomes that the next check looks at exactly if one of them is deleted |
| `Streaks.CheckAfterDeletion` | src/gq/scheduler.py:371-396 | If none of the outcomes it looks at is deleted, the check comes out the same |
| `Witnesses.DeletionPutsAGroupOnHold` | src/gq/scheduler.py:371-396 | A legal run with threshold three: after a failure, a success (a child started and exited with 0) and a failure, one more failure does not hold the group; with the success deleted before, it does |
| `Streaks.ReleaseStartsAnew` | src/gq/database.py:427-444 | After a release of the group no job that had ended before it is an outcome in any later check |
| `Lineage.SupersededIds` | src/gq/cli.py:341-347 | The client's loop finds exactly the listed jobs with a newer listed job of the same root |
| `Lineage.QueryAgreesWithSql` | src/gq/database.py:367-378 | On every reachable table the lineage query and the SQL clause call the same attempts replaced |
| `Lineage.ListingAgreesWithSql` | src/gq/cli.py:341-347 | Given a complete group listing the client agrees with the SQL clause |
| `Lineage.OneLatestPerLineage` | src/gq/database.py:375-378 | Every lineage has exactly one attempt that is not replaced |
| `Lineage.GroupCountsAddUp` | src/gq/database.py:380-401 | Per group the state counts sum to the number of lineages, and with the retried count to all its jobs |
| `Recovery.RecoveryIsExact` | src/gq/scheduler.py:665-692 | The decision table of recovery for every job, spelled out: untouched if it was not active; FAILED for a reboot shown by two known boot ids that differ, one under cancellation too; without one, CANCELLED (if that was under way) or FAILED if the answer is "dead", ORPHANED with its GPU rows if it is "alive" and a GPU is missing or there is none, and otherwise the row as it was |
| `Recovery.RecoveryAddsNoReservation` | docs/architecture.md:103-107 | Recovery reserves nothing that was not reserved |
| `Recovery.RecoveryIsIdempotent` | src/gq/scheduler.py:665-692 | Recovering again with the same answers changes nothing at all |
| `Timestamps.TextOrderIsTimeOrder` | src/gq/database.py:13-14 | For all years 1 to 9999, with or without a fraction, one printed timestamp is less than another as text exactly if the moment is earlier |
| `Timestamps.CleanupIsExact` | src/gq/database.py:327-344 | The text comparison finds exactly the terminal jobs of the wanted states that ended before the cutoff, and deleting them succeeds and removes nothing else |
| `Answers.AnswerStands` | src/gq/scheduler.py:665-707 | An "alive" answer given in part of a run is one for the whole of it: the group lived at its beginning or a leaderless successor came by |
| `SchedulerModel.Scheduler.SetHold` | src/gq/scheduler.py:325-336 | Table and memory change together; tells whether the table changed |
| `SchedulerModel.Scheduler.NoteFailure` | src/gq/scheduler.py:371-396 | The check after a failure is exactly the protocol's step and changes no job: the failed job's group is held afterwards exactly if it was, or if the threshold is set and its newest outcomes since its release are that many quick failures |
| `SchedulerModel.Scheduler.FinishWatched` | src/gq/scheduler.py:601-622 | A job this daemon waited for gets state, exit code and reason, and a failure is noted at once, with the hold as above |
| `SchedulerModel.Scheduler.RefreshObservations` | src/gq/scheduler.py:447-468 | A scan replaces the observations; after a failed one every known device stays listed, with an error and without processes |
| `SchedulerModel.Scheduler.GpuStatus` | src/gq/scheduler.py:470-483 | The statuses are those of a classification against all jobs, each process of an owned device judged at a moment within the call: a readable device of a job that is not ORPHANED is RUNNING or RESERVED exactly if each compute pid on it was a living member of the job's group then, and otherwise UNKNOWN with exactly the other pids as conflicts; for selection they offer exactly the devices allocatable then |
| `SchedulerFacts.OwnedDevicesAreJudged` | src/gq/allocator.py:29-42 | The same for any table and any moments of asking, with the three owned states and the conflicts spelled out |
| `SchedulerFacts.MembersAreOwn` | src/gq/processes.py:75-81 | While a job's own group lives in the boot it was started in, the members of the group number on its record are exactly the processes of its own group lifetime |
| `SchedulerModel.Scheduler.ReserveSelected` | src/gq/scheduler.py:502-507 | The guard of `reserve` never fires here, and the stored devices are the selected ones |
| `SchedulerModel.Scheduler.EndLaunch` | src/gq/scheduler.py:545-588 | A launch that ended at once gives its job the state and exit code asked for, changes no other, and a failure is noted before anything else starts |
| `SchedulerModel.Scheduler.BecomeRunning` | src/gq/scheduler.py:566-577 | The guard of `mark_running` never fires: the job is RUNNING with the pid, group and start time of the child, and with the boot id of the machine exactly if that could be read then; from then on it is watched |
| `SchedulerModel.Scheduler.Launch` | src/gq/scheduler.py:519-588 | Only this job's row changes: RUNNING with the child's identity (and the boot id, if readable) exactly if that could be read, DONE exactly for a clean exit, FAILED in every other case, with the exit code if there is one and the reason of that case; the child sees the reserved devices in order |
| `SchedulerModel.Scheduler.StartJob` | src/gq/scheduler.py:499-517 | Reserve, launch and reclassify: afterwards the statuses fit the tables again |
| `SchedulerModel.Scheduler.TrySchedule` | src/gq/scheduler.py:485-517 | When a pass that is neither paused nor stopping ends, every job still WAITING is in a held group or asks for more GPUs than are FREE then; otherwise nothing happens; and no group has more quick failures in a row in it than the threshold |
| `SchedulerModel.Scheduler.VisitWaiting` | src/gq/scheduler.py:489-517 | The loop over the waiting list read at its start: afterwards every job still WAITING must wait, although launches in the loop may fail and give GPUs back |
| `SchedulerModel.Scheduler.ConsiderJob` | src/gq/scheduler.py:489-499 | One turn keeps all that was settled settled, settles this job, and reserves only what the protocol lets it reserve |
| `SchedulerModel.Scheduler.SetPaused` | src/gq/scheduler.py:103-113 | Pausing, or no change, leaves the tables alone; resuming ends with a complete pass; no hold is released |
| `SchedulerModel.Scheduler.SetGroupHeld` | src/gq/scheduler.py:297-303 | Refused exactly for what is no label; tells exactly whether the hold changed; holding changes no job and keeps the reason given, "paused by user" for none; a release that changed something ends with a complete pass; no other group is released and no paused queue resumed |
| `SchedulerModel.Scheduler.Submit` | src/gq/scheduler.py:122-169 | Rejected exactly if malformed (labels included) or too large; accepted exactly if besides every job with the key is FAILED or CANCELLED; the new row has the asked command, environment, GPUs, group and key, the resolved directory, and the asked name or else the last part of the program's path; a duplicate names a job that has the key and changes no job; acceptance ends with a complete pass |
| `SchedulerModel.Scheduler.QueueAsked` | src/gq/scheduler.py:150-169 | The last part of a submission: the row to be created, its key check and the answer, with every field of the row as above |
| `SchedulerFacts.CheckAsked` | src/gq/scheduler.py:122-148 | The checks of a submission accept exactly what is well-formed: labels, a command with a program, at least one GPU, and no null character in an argument |
| `SchedulerFacts.ValidateLabel` | src/gq/scheduler.py:41-50 | Accepts exactly the labels: not blank, not too long, without control characters |
| `SchedulerFacts.ProgramNameIsLastPart` | src/gq/scheduler.py:150-158 | The name of a nameless job is the last part of its program's path that is neither empty nor `.`, or empty if there is none |
| `SchedulerModel.Scheduler.WhyNotRetried` | src/gq/scheduler.py:258-271 | No refusal exactly if the job is FAILED or CANCELLED, no later job has the same first attempt, its directory exists and it asks for no more GPUs than the daemon shows; "missing" exactly if there is no such row |
| `SchedulerModel.Scheduler.RetryOne` | src/gq/scheduler.py:258-293 | Retried exactly if that holds and every job with its key is FAILED or CANCELLED, as one new WAITING copy of the lineage; the hold of its group is given up and reported exactly then |
| `SchedulerModel.Scheduler.QueueAttempt` | src/gq/scheduler.py:272-293 | The key check of a retry and the new row, which carries what the job ran and the first attempt of its lineage |
| `SchedulerFacts.LineageQueryIsExact` | src/gq/database.py:367-373 | The lineage query finds a newer attempt exactly if there is a later job with the same first attempt |
| `SchedulerFacts.KeyIsFree` | src/gq/database.py:158-168 | The key query finds nobody exactly if every job with the key is FAILED or CANCELLED |
| `SchedulerModel.Scheduler.RetryEach` | src/gq/scheduler.py:246-295 | Every id, repeats included, is in exactly one of the two lists; no lineage gets two attempts; old rows are untouched; the released groups are exactly the held ones of retried jobs, once each; and none of the ids could be retried again right after |
| `SchedulerModel.Scheduler.Retry` | src/gq/scheduler.py:246-295 | The same lists, released groups and one attempt per lineage at the end of the call, which ends with a complete pass; no other hold is released |
| `SchedulerModel.Scheduler.CancelOne` | src/gq/scheduler.py:231-244 | The resulting state for every state, the GPUs kept, no other job touched; a signal only if the group test said "alive", and without one the group is gone; the guard of `set_cancelling` never fires |
| `SchedulerModel.Scheduler.Cancel` | src/gq/scheduler.py:202-211 | Refused exactly for missing and terminal jobs, changing nothing; otherwise the outcome tells which state the job was in, and the job is in its new state with its GPUs after the trailing pass too |
| `SchedulerModel.Scheduler.CancelMany` | src/gq/scheduler.py:213-229 | Each occurrence of an id is in exactly one list: an active job always under `cancelling`, a waiting one once under `cancelled`, the rest under `skipped`; after the trailing pass none of the jobs has started and the GPUs of those being cancelled are still assigned to them |
| `SchedulerModel.Scheduler.MonitorLooks` | src/gq/scheduler.py:593-600 | The monitor goes on exactly if no process of the recorded group is found, and then the job's group is gone |
| `SchedulerModel.Scheduler.MonitorEnds` | src/gq/scheduler.py:601-624 | A missing or terminal job is left alone; otherwise state, exit code and reason are the ones that the old state and the exit code ask for; a failure that completes a streak has its group held; then a scan and a complete pass follow, and the job is no longer watched |
| `SchedulerModel.Scheduler.CancellationLooks` | src/gq/scheduler.py:626-655 | The wait ends only when the group is gone, and goes on only if it was alive or a leaderless successor came by |
| `SchedulerModel.Scheduler.CancellationEnds` | src/gq/scheduler.py:643-663 | A job that is still CANCELLING once its group is gone is CANCELLED, any other left alone; ends with a complete pass |
| `SchedulerModel.Scheduler.JobAlive` | src/gq/scheduler.py:665-707 | "Dead" means the job's own group is gone, "alive" that it lived or that a leaderless successor came by |
| `SchedulerModel.Scheduler.SignalJob` | src/gq/processes.py:84-97 | For a job: without a signal its group is gone; with one the group lived when the test began or a leaderless successor came by, and the signal reaches the job's own group exactly if that still lives |
| `SchedulerModel.Scheduler.RecoverOne` | src/gq/scheduler.py:668-687 | One unfinished job gets the verdict that its boot, its answer and its devices ask for, as a legal step (a living group keeps its GPUs); an "alive" answer is justified |
| `SchedulerModel.Scheduler.Recover` | src/gq/scheduler.py:665-692 | The tables afterwards are those of the specification for the boot id of the machine if it could be read at that point, and none otherwise, and for answers each justified by the machine; no job is left STARTING |
| `SchedulerModel.Scheduler.ReapRecoveredJobs` | src/gq/scheduler.py:694-707 | Unfinished jobs without a monitor get their verdict and all other rows stay; the boot id is the machine's exactly if readable, and each "alive" answer is justified |
| `SchedulerModel.Scheduler.StartUp` | src/gq/scheduler.py:115-119 | A new daemon has the table's holds and the recovered tables, for the boot id that was readable |
| `SchedulerModel.Scheduler.Initialize` | src/gq/scheduler.py:115-120 | What was unfinished is either as before with devices that were all seen and answered "alive", or ORPHANED with its GPUs, alive and with one missing, or ended: FAILED, also one under cancellation, exactly with the reason "reboot" if its record and the machine show different boot ids, CANCELLED only if it was under cancellation and shows no reboot; every waiting job must wait |
| `SchedulerModel.Scheduler.Tick` | src/gq/scheduler.py:171-175 | Unfinished jobs that nobody watches answered "alive" and are as before, or are ended without an exit code, CANCELLED if that was under way and FAILED otherwise, exactly with the reason "reboot" if their boot id differs from the one read; the pass is complete, or nothing starts if the queue is paused or stopping; no hold is released |
| `SchedulerModel.Scheduler.DeleteJobs` | src/gq/scheduler.py:398-405 | Succeeds exactly for distinct ids of terminal jobs and then removes exactly those |
| `SchedulerModel.Scheduler.CleanJobs` | src/gq/scheduler.py:407-412 | Removes exactly the terminal jobs of the wanted states whose printed end time is less than the cutoff as text, and cannot fail; if the cutoff is a printed time, these are the jobs that ended before it |
| `SchedulerModel.Scheduler.Close` | src/gq/scheduler.py:436-445 | Sets `stopping`, which is the step Stop and nothing else; that nothing starts from then on is `DaemonModel.CloseForGood` |
| `DaemonModel.ServeAll` | src/gq/daemon.py:222-341 | Any requests, reconciliation turns and turns of the coroutines of any jobs, shutdown included, in any order, extend the legal history by legal steps and do not release a hold or resume a queue unless one of them is for that |
| `DaemonModel.Monitor` | src/gq/scheduler.py:590-624 | The coroutine as a whole, other requests served between its looks and its lock hold: when it ends the group is gone, and the job is terminal or its row deleted |
| `DaemonModel.FinishCancellation` | src/gq/scheduler.py:626-663 | The coroutine as a whole, with grace period, SIGKILL and the check for a monitor: when it ends the job itself the group is gone and the job is no longer CANCELLING |
| `DaemonModel.RestartDaemon` | src/gq/scheduler.py:115-120 | A daemon that dies between lock holds is followed by one whose history extends the old one |
| `DaemonModel.CancelForGood` | src/gq/scheduler.py:213-229 | After a bulk cancel, any further requests, a restart and any requests after it: no job named in it is started again, and a job that held GPUs keeps them until its group is gone |
| `DaemonModel.HoldForGood` | docs/architecture.md:66-70 | After a manual hold, any requests that neither release the group nor retry jobs, a restart, and more such requests: the group is still held and no job of it has started, those submitted meanwhile included |
| `DaemonModel.PauseForGood` | src/gq/scheduler.py:103-113 | After a pause, any requests but a resume: no job has started |
| `DaemonModel.CloseForGood` | src/gq/scheduler.py:436-445 | After the stop flag is set, any requests, a resume included: no job has started |

## Left out

- SchedulerModel.Scheduler.Recover: a job of an earlier boot whose boot id or the machine's could not
  be read is judged by the identity test alone, and an "alive" answer for it is not justified.
- SchedulerModel.Scheduler.Submit: the resolved directory is a parameter; the types of arguments and
  environment are fixed by the model's types.
- SchedulerModel.Scheduler.Close: sets the flag; cancelling the daemon's own coroutines and closing
  NVML change neither tables nor machine.
- DaemonModel.RestartDaemon: restarts between two lock holds; a crash in the middle of one is an event
  of the histories the theorems are about, not of this method.
- DaemonModel.HoldForGood: excludes every retry, although a retry of jobs of other groups releases
  nothing of this one (`SchedulerModel.Scheduler.Retry` says which groups it releases).
- DaemonModel.Monitor: other requests are served between its looks and its lock hold, but not while
  a pass awaits a launch; that a look made then stays true is `Safety.GoneStaysGone`.
- DaemonModel.FinishCancellation: the same holds of its looks.
- Witnesses.DeletionPutsAGroupOnHold: the runs of this module leave out events that change nothing,
  such as a second scan with the same devices.
- Hold reason texts of automatic holds, log paths, log files and their deletion.
- What a signal does: some exits, which the environment may make at any time. The grace period and
  polling intervals become repeated looks.
- SQLite errors, schema migration, listing and filtering of jobs, the JSON of the protocol, the
  socket, the instance lock, NVML calls, configuration, the update command, and the client apart
  from `_superseded_ids`.
- Rows of `job_gpus` are kept in the job's record, since they are created and deleted with it.
- Liveness: nothing says that a waiting job starts in the end; gq deliberately lets small jobs pass
  large ones.
