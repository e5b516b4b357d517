/** The Scheduler object (src/gq/scheduler.py). Each public method is one lock hold. The ghost
    history records every transaction, memory change and machine step in order; that it stays
    legal means the theorems about legal histories hold of every use of this class, and of every
    crash between two of its transactions. */
module SchedulerModel {
  import opened Models
  import opened Allocator
  import opened Tables
  import opened Processes
  import opened Protocol
  import opened Invariants
  import opened Safety
  import opened FailFast
  import opened Pass
  import opened Recovery
  import opened Answers
  import opened Calls
  import opened Timestamps
  import opened SchedulerFacts
  import opened DatabaseModel
  import opened KernelModel

  class Scheduler {
    const db: Database
    const kernel: Kernel
    const failFastCount: int
    const failFastTime: int
    var held: map<string, string>
    var paused: bool
    var stopping: bool
    var observations: seq<GPUObservation>
    var snapshotError: Option<string>
    /** Jobs whose process this daemon started and waits for. */
    var processes: set<nat>

    ghost var up: bool
    ghost var pending: Option<nat>
    ghost var spawned: map<nat, Ident>
    ghost var history: History

    ghost function Mem(): Memory
      reads this
    {
      Memory(failFastCount, failFastTime, held, paused, stopping, observations, snapshotError, pending)
    }

    ghost function Sys(): System
      reads this, db, kernel
    {
      System(db.View(), kernel.world, if up then Some(Mem()) else None, spawned)
    }

    /** What the next reading of the boot id gives. */
    ghost function BootSeen(): Option<nat>
      reads kernel
    {
      if FirstReadable(kernel.turns) then Some(kernel.world.boot) else None
    }

    ghost predicate Valid()
      reads this, db, kernel
    {
      Legal(history) && State(history) == Sys() && forall id :: id in processes ==> id in spawned
    }

    /** A lock hold begins and ends like this: no launch or failure check is half done. */
    ghost predicate Ready()
      reads this, db, kernel
    {
      Valid() && up && Quiet(Sys())
    }

    /** A new daemon process over tables and a machine with any legal past. */
    constructor (db: Database, kernel: Kernel, failFastCount: int, failFastTime: int,
                 ghost past: History, ghost spawned: map<nat, Ident>)
      requires Legal(past) && State(past) == System(db.View(), kernel.world, None, spawned)
      ensures Valid() && Fresh() && history == past
      ensures this.db == db && this.kernel == kernel
    {
      this.db, this.kernel, this.failFastCount, this.failFastTime := db, kernel, failFastCount, failFastTime;
      held, paused, stopping, observations, snapshotError, processes := map[], false, false, [], None, {};
      up, pending, this.spawned, history := false, None, spawned, past;
    }

    // ---- Recording ----

    ghost method Record(e: Event, before: System)
      requires Legal(history) && State(history) == before && Enabled(before, e) && Next(before, e) == Sys()
      requires forall id :: id in processes ==> id in spawned
      modifies this`history
      ensures Valid() && history == Then(old(history), e) && Within(old(history), history, Least(e))
    {
      OneEvent(history, e);
      history := Then(history, e);
    }

    // ---- Single transactions ----

    method MarkFinished(id: nat, to: JobState, exitCode: Option<int>, reason: Option<Reason>, ghost watched: bool)
      requires Valid() && up && Enabled(Sys(), Event.Finish(id, to, exitCode, reason, watched))
      modifies this`history, this`pending, db
      ensures Valid() && history == Then(old(history), Event.Finish(id, to, exitCode, reason, watched))
      ensures db.View() == Tables.Finish(old(db.View()), id, to, exitCode, reason)
      ensures pending == if watched && to.Failed? then Some(id) else None
      ensures Within(old(history), history, PLAIN)
    {
      ghost var s := Sys();
      var ok := db.Finish(id, to, exitCode, reason);
      pending := if watched && to.Failed? then Some(id) else None;
      Record(Event.Finish(id, to, exitCode, reason, watched), s);
    }

    /** `_set_hold_locked`: the table and the daemon's copy of it. */
    method ChangeHold(group: string, hold: bool, reason: Option<string>) returns (changed: bool)
      modifies this`held, db
      ensures (db.View(), changed) == old(Tables.SetGroupHold(db.View(), group, hold, if hold then reason else None))
      ensures Mem() == old(HeldInMemory(Mem(), group, hold, reason))
    {
      changed := db.SetGroupHold(group, hold, if hold then reason else None);
      if hold {
        held := held[group := if reason.Some? then reason.value else ""];
      } else {
        held := held - {group};
      }
    }

    method SetHold(group: string, hold: bool, reason: Option<string>) returns (changed: bool)
      requires Valid() && up && pending.None?
      modifies this`history, this`held, db
      ensures Valid() && history == Then(old(history), Hold(group, hold, reason))
      ensures changed <==> hold != (group in old(HeldGroups(db.View())))
      ensures db.jobs == old(db.jobs) && db.nextId == old(db.nextId)
      ensures held.Keys == if hold then old(held).Keys + {group} else old(held).Keys - {group}
      ensures hold && reason.Some? ==> group in held && held[group] == reason.value
      ensures Within(old(history), history, if hold then PLAIN else Releasing({group}))
    {
      ghost var s := Sys();
      changed := ChangeHold(group, hold, reason);
      Record(Hold(group, hold, reason), s);
    }

    /** Whether the newest outcomes of the failed job's group were all quick failures. */
    method FailedInARow(id: nat) returns (hold: bool)
      requires Valid() && up
      ensures hold <==> ShouldHold(db.View(), Mem(), id)
    {
      hold := false;
      if failFastCount > 0 && id in db.jobs && db.jobs[id].spec.group.Some?
         && db.jobs[id].spec.group.value !in held
      {
        var group := db.jobs[id].spec.group.value;
        var since := ReleasedAt(db.View(), group);
        var recent := RecentOutcomes(db.View(), group, since, failFastCount);
        hold := && |recent| >= failFastCount
                && forall k :: 0 <= k < |recent| ==>
                     recent[k] in db.jobs && QuickFailure(db.jobs[recent[k]], failFastTime);
      }
    }

    method NoteFailure(id: nat)
      requires Valid() && up && pending == Some(id)
      modifies this`history, this`held, this`pending, db
      ensures Valid() && history == Then(old(history), Note)
      ensures db.jobs == old(db.jobs) && pending == None
      ensures id in db.jobs && db.jobs[id].spec.group.Some? ==>
                HeldAsItMust(db.jobs, old(db.holds), db.jobs[id].spec.group.value,
                             old(held).Keys, held.Keys, failFastCount, failFastTime)
      ensures Within(old(history), history, PLAIN)
    {
      ghost var h := history;
      CheckFailure(id);
      if id in db.jobs && db.jobs[id].spec.group.Some? {
        FailureIsNoted(h, db.jobs[id].spec.group.value);
      }
    }

    /** The check and what it changes. */
    method CheckFailure(id: nat)
      requires Valid() && up && pending == Some(id)
      modifies this`history, this`held, this`pending, db
      ensures Valid() && history == Then(old(history), Note)
      ensures db.jobs == old(db.jobs) && pending == None
      ensures Within(old(history), history, PLAIN)
    {
      ghost var s := Sys();
      var hold := FailedInARow(id);
      if hold {
        var group := db.jobs[id].spec.group.value;
        var changed := ChangeHold(group, true, Some(FAIL_FAST_REASON));
      }
      pending := None;
      assert Sys() == Checked(s, id, hold);
      Record(Note, s);
    }

    method RefreshObservations(snapshot: Snapshot)
      requires Valid() && up && pending.None? && (snapshot.Devices? ==> DistinctUuids(snapshot.observations))
      modifies this`history, this`observations, this`snapshotError
      ensures Valid() && history == Then(old(history), Scan(snapshot))
      ensures Within(old(history), history, PLAIN)
      ensures Scanned(old(observations), snapshot, observations, snapshotError)
    {
      ghost var s := Sys();
      match snapshot {
        case Devices(found) =>
          observations := found;
          snapshotError := None;
        case ScanFailed(text) =>
          snapshotError := Some(text);
          var marked: seq<GPUObservation> := [];
          for i := 0 to |observations|
            invariant |marked| == i
            invariant forall k :: 0 <= k < i ==>
                        marked[k] == observations[k].(processes := [], error := Some("NVML unavailable: " + text))
          {
            marked := marked + [observations[i].(processes := [], error := Some("NVML unavailable: " + text))];
          }
          assert marked == MarkedFaulty(observations, text);
          observations := marked;
      }
      Record(Scan(snapshot), s);
    }

    /** Something was read from the machine, which ran on before. */
    ghost method Observed(path: seq<ProcEvent>, before: System)
      requires Legal(history) && State(history) == before && PathPossible(before.world, path)
      requires Sys() == before.(world := Follow(before.world, path))
      requires forall id :: id in processes ==> id in spawned
      modifies this`history
      ensures Valid() && history == Then(old(history), Environment(path))
      ensures Within(old(history), history, PLAIN)
    {
      Record(Environment(path), before);
    }

    // ---- The scheduling pass ----

    /** Reads the assignments and the owning jobs, asks the machine about each compute process on
        their devices, and classifies. */
    method GpuStatus() returns (statuses: seq<GPUStatus>, ghost seen: map<(string, int), World>)
      requires Valid() && up
      modifies this`history, kernel`world, kernel`turns
      ensures Valid() && history.Then? && history.past == old(history) && history.event.Environment?
      ensures StatusesFit(statuses, Sys())
      ensures statuses == Classified(observations, Assignments(db.View()), db.jobs, ManagedWhenAsked(seen))
      ensures PathPossible(old(kernel.world), history.event.path)
      ensures forall key :: key in seen ==> OnPath(old(kernel.world), history.event.path, seen[key])
      ensures forall o, k :: o in observations && o.uuid in Assignments(db.View()) && 0 <= k < |o.processes| ==>
                (o.uuid, o.processes[k].pid) in seen
      ensures AllJudged(db.View(), observations, statuses, seen)
    {
      ghost var s := Sys();
      var assignments := Assignments(db.View());
      var owners := assignments.Values;
      var active := map id | id in owners && id in db.jobs :: db.jobs[id];
      var answers;
      ghost var path;
      answers, seen, path := kernel.AskGroups(QueriesOf(observations, assignments, active));
      Observed(path, s);
      var managed := (uuid: string, pid: int, job: Job) => (uuid, pid) in answers && answers[(uuid, pid)];
      statuses := ClassifyGpus(observations, assignments, active, managed);
      StatusesAreFit(statuses, assignments, active, managed);
      AnsweredAlike(observations, assignments, active, answers, seen, managed);
      OwnersSuffice(observations, assignments, active, db.jobs, ManagedWhenAsked(seen));
      OwnedDevicesAreJudged(history, observations, seen);
    }

    lemma StatusesAreFit(statuses: seq<GPUStatus>, assignments: map<string, nat>, active: map<nat, Job>,
                         managed: Membership)
      requires up && assignments == Assignments(db.View())
      requires statuses == Classified(observations, assignments, active, managed)
      ensures StatusesFit(statuses, Sys())
    {
      var free := ObservedSlots(FreeNow(Sys()));
      forall count | count >= 0
        ensures SlotsOf(SelectGpus(statuses, count)) == if |free| >= count then free[..count] else []
      {
        SelectionIsPrefix(observations, assignments, active, managed, count);
      }
    }

    /** The durable reservation of the selected devices. */
    method ReserveSelected(id: nat, selected: seq<GPUStatus>)
      requires Valid() && up && MayReserve(Sys(), id, SlotsOf(selected))
      modifies this`history, db
      ensures Valid() && history == Then(old(history), Event.Reserve(id, SlotsOf(selected)))
    {
      ghost var s := Sys();
      ghost var slots := SlotsOf(selected);
      assert MemoryOk(s) by { InvariantHolds(history); }
      SelectedAreObserved(s, id, selected);
      var chosen := LookUp(observations, selected);
      assert slots == ObservedSlots(chosen);
      var ok := db.Reserve(id, chosen);
      assert (db.View(), ok) == Tables.Reserve(s.store, id, slots);
      assert ok;
      Record(Event.Reserve(id, slots), s);
    }

    /** `create_subprocess_exec` in a new session; time passes meanwhile. */
    method SpawnChild(id: nat) returns (started: bool, turn: LaunchTurn)
      requires Valid() && up && pending.None?
      requires id in db.jobs && db.jobs[id].state.Starting? && id !in spawned
      modifies this`history, this`spawned, kernel`world, kernel`launches, db
      ensures Valid() && up && PassSince(old(history), history)
      ensures Sys().memory == old(Sys()).memory
      ensures db.View() == old(db.View()).(clock := db.clock) && db.clock >= old(db.clock)
      ensures started ==> id in spawned && spawned[id].boot == kernel.world.boot
                          && spawned[id].pid == turn.pid && spawned[id].start == turn.start
      ensures started ==> old(kernel.launches) != [] && turn == old(kernel.launches)[0]
      ensures kernel.world.boot == old(kernel.world.boot)
    {
      ghost var s := Sys();
      ghost var base := history;
      ghost var path;
      started, turn, path := kernel.Spawn();
      assert Follow(s.world, path).boot == s.world.boot by {
        InvariantHolds(base);
        PathKeeps(s.world, path, Ident(0, 0, 0, 0));
      }
      ghost var s1 := s.(world := Follow(s.world, path));
      ghost var h1 := Then(base, Environment(path));
      PassGrows(base, base, Environment(path));
      history := h1;
      if started {
        spawned := spawned[id := Ident(turn.pid, turn.start, s1.world.nextLifetime, s1.world.boot)];
        PassGrows(base, h1, Spawn(id, turn.pid, turn.start));
        Record(Spawn(id, turn.pid, turn.start), s1);
      }
      ghost var h2 := history;
      LetTimePass(turn.micros);
      PassGrows(base, h2, Advance(turn.micros));
    }

    method LetTimePass(micros: nat)
      requires Valid()
      modifies this`history, db
      ensures Valid() && history == Then(old(history), Advance(micros))
      ensures db.View() == old(db.View()).(clock := db.clock) && db.clock >= old(db.clock)
    {
      ghost var s := Sys();
      db.Wait(micros);
      Record(Advance(micros), s);
    }

    /** A launch that ended at once: the job is finished, and a failure is noted. */
    method EndLaunch(id: nat, to: JobState, exitCode: Option<int>, reason: Option<Reason>)
      requires Valid() && up && pending.None? && id in db.jobs && db.jobs[id].state.Starting?
      requires (to.Done? && exitCode == Some(0) && id in spawned) || to.Failed?
      modifies this`history, this`held, this`pending, db
      ensures Ready() && PassSince(old(history), history)
      ensures LaunchedOnly(old(db.jobs), db.jobs, id)
      ensures db.jobs[id].state == to && db.jobs[id].exitCode == exitCode && db.jobs[id].reason == reason
    {
      ghost var base := history;
      ghost var s := Sys();
      StartingFacts(history, id);
      LaunchEndMayFinish(s, id, to, exitCode);
      MarkFinished(id, to, exitCode, reason, true);
      PassGrows(base, base, Event.Finish(id, to, exitCode, reason, true));
      LaunchEndRows(s.store, id, to, exitCode, reason);
      if to.Failed? {
        NoteLaunchFailure(id, base);
      }
    }

    method NoteLaunchFailure(id: nat, ghost base: History)
      requires Valid() && up && pending == Some(id) && NoneStarting(db.View()) && PassSince(base, history)
      modifies this`history, this`held, this`pending, db
      ensures Ready() && PassSince(base, history) && db.jobs == old(db.jobs)
    {
      ghost var h := history;
      NoteFailure(id);
      PassGrows(base, h, Note);
    }

    /** The boot id is read after the child was started, in the same boot. */
    method ReadBootOf(id: nat) returns (boot: Option<nat>)
      requires Valid() && up && pending.None? && id in spawned && spawned[id].boot == kernel.world.boot
      requires WorldOk(kernel.world)
      modifies this`history, kernel`world, kernel`turns
      ensures Valid() && Sys() == old(Sys()).(world := kernel.world)
      ensures history.Then? && history.past == old(history) && history.event.Environment?
      ensures kernel.world.boot == spawned[id].boot && boot == old(BootSeen())
      ensures PassSince(old(history), history)
    {
      ghost var s, base := Sys(), history;
      ghost var path;
      boot, path := kernel.BootId();
      PathKeeps(s.world, path, spawned[id]);
      Observed(path, s);
      PassGrows(base, base, Environment(path));
    }

    /** The child runs: its identity is recorded and it is waited for. */
    method BecomeRunning(id: nat, pid: int, start: int)
      requires Valid() && up && pending.None?
      requires id in db.jobs && db.jobs[id].state.Starting? && id in spawned && spawned[id].boot == kernel.world.boot
      requires spawned[id].pid == pid && spawned[id].start == start
      modifies this`history, this`processes, kernel`world, kernel`turns, db
      ensures Ready() && PassSince(old(history), history)
      ensures LaunchedOnly(old(db.jobs), db.jobs, id)
      ensures db.jobs[id].state.Running? && db.jobs[id].process.Some?
      ensures db.jobs[id].process == Some(ProcessRecord(pid, pid, Some(start), old(BootSeen())))
      ensures processes == old(processes) + {id}
    {
      ghost var base := history;
      StartingFacts(history, id);
      var boot := ReadBootOf(id);
      ghost var mid := history;
      RecordRunning(id, pid, start, boot);
      PassesCompose(base, mid, history);
      processes := processes + {id};
    }

    method RecordRunning(id: nat, pid: int, start: int, boot: Option<nat>)
      requires Valid() && up && pending.None? && id in spawned && OneStarting(db.View())
      requires id in db.jobs && db.jobs[id].state.Starting?
      requires spawned[id].pid == pid && spawned[id].start == start
      requires spawned[id].boot == kernel.world.boot && (boot.Some? ==> boot.value == kernel.world.boot)
      modifies this`history, db
      ensures Ready() && PassSince(old(history), history)
      ensures LaunchedOnly(old(db.jobs), db.jobs, id)
      ensures db.jobs[id].state.Running? && db.jobs[id].process == Some(ProcessRecord(pid, pid, Some(start), boot))
    {
      ghost var s := Sys();
      var record := ProcessRecord(pid, pid, Some(start), boot);
      var ok := db.MarkRunning(id, record);
      assert ok;
      RunningRows(s.store, id, record);
      ghost var h := history;
      Record(Event.MarkRunning(id, boot), s);
      PassGrows(h, h, Event.MarkRunning(id, boot));
    }

    /** The child sees the reserved devices and no others; how it went is on record afterwards. */
    method Launch(id: nat, selected: seq<GPUStatus>)
      returns (visible: seq<int>, ghost started: bool, ghost turn: LaunchTurn)
      requires Valid() && up && pending.None?
      requires id in db.jobs && db.jobs[id].state.Starting? && id !in spawned && db.jobs[id].gpus == SlotsOf(selected)
      modifies this`history, this`spawned, this`held, this`pending, this`processes, kernel, db
      ensures Ready() && PassSince(old(history), history)
      ensures LaunchedOnly(old(db.jobs), db.jobs, id)
      ensures LaunchRecorded(db.jobs[id], started, turn, old(BootSeen()))
      ensures started ==> old(kernel.launches) != [] && turn == old(kernel.launches)[0]
      ensures |visible| == |old(db.jobs)[id].gpus| && forall k :: 0 <= k < |visible| ==>
              visible[k] == old(db.jobs)[id].gpus[k].index
    {
      ghost var base := history;
      visible := seq(|selected|, k requires 0 <= k < |selected| => selected[k].index);
      var went, how := SpawnChild(id);
      started, turn := went, how;
      ghost var mid := history;
      if !went {
        EndLaunch(id, JobState.Failed, None, Some(LaunchError));
      } else {
        match how.ending {
          case None => BecomeRunning(id, how.pid, how.start);
          case Some(Exited(code)) =>
            if code == 0 {
              EndLaunch(id, JobState.Done, Some(code), None);
            } else {
              EndLaunch(id, JobState.Failed, Some(code), Some(ExitStatus(code)));
            }
          case Some(Killed(code)) => EndLaunch(id, JobState.Failed, Some(code), Some(NoIdentity));
          case Some(Broken) => EndLaunch(id, JobState.Failed, None, Some(LaunchError));
        }
      }
      PassesCompose(base, mid, history);
    }

    /** Reserve, launch, and classify anew: a launch failure gives GPUs back. */
    method StartJob(id: nat, selected: seq<GPUStatus>, before: seq<GPUStatus>) returns (statuses: seq<GPUStatus>)
      requires Ready() && MayReserve(Sys(), id, SlotsOf(selected))
      modifies this`history, this`spawned, this`held, this`pending, this`processes, kernel, db
      ensures Ready() && PassSince(old(history), history)
      ensures LaunchedOnly(old(db.jobs), db.jobs, id)
      ensures StatusesFit(statuses, Sys())
    {
      ghost var base := history;
      statuses := ReserveAndLaunch(id, selected, before);
      ghost var h := history;
      ghost var seen;
      statuses, seen := GpuStatus();
      PassGrows(base, h, history.event);
    }

    /** The statuses are patched between the reservation and the launch. */
    method ReserveAndLaunch(id: nat, selected: seq<GPUStatus>, before: seq<GPUStatus>) returns (patched: seq<GPUStatus>)
      requires Ready() && MayReserve(Sys(), id, SlotsOf(selected))
      modifies this`history, this`spawned, this`held, this`pending, this`processes, kernel, db
      ensures Ready() && PassSince(old(history), history)
      ensures LaunchedOnly(old(db.jobs), db.jobs, id)
      ensures patched == Overlay(before, Uuids(selected), id)
    {
      ghost var base := history;
      ReservationFacts(history, id, SlotsOf(selected));
      ReserveSelected(id, selected);
      ghost var mid := history;
      PassGrows(base, base, Event.Reserve(id, SlotsOf(selected)));
      patched := Overlay(before, Uuids(selected), id);
      ghost var started, turn;
      var visible;
      visible, started, turn := Launch(id, selected);
      PassesCompose(base, mid, history);
    }

    /** One pass over the waiting jobs, oldest first, younger ones backfilling. When it ends, every
        job still waiting is in a held group or asks for more GPUs than are FREE. */
    method TrySchedule()
      requires Ready()
      modifies this`history, this`spawned, this`held, this`pending, this`processes, kernel, db
      ensures Ready() && PassSince(old(history), history) && Within(old(history), history, PLAIN)
      ensures !stopping && !paused ==>
                forall id :: id in db.jobs && db.jobs[id].state.Waiting? ==> MustWait(Sys(), id)
      ensures stopping || paused ==> history == old(history)
      ensures failFastCount > 0 ==>
                forall group :: |QuickFailuresInARow(old(history), history, group)| <= failFastCount
    {
      if stopping || paused {
        return;
      }
      ghost var base := history;
      var statuses;
      ghost var seen;
      statuses, seen := GpuStatus();
      ghost var mid := history;
      PassGrows(base, base, mid.event);
      VisitWaiting(statuses);
      PassesCompose(base, mid, history);
      PassIsPlain(base, history);
      if failFastCount > 0 {
        NoGroupExceedsTheThreshold(base, history);
      }
    }

    /** The loop of the pass. */
    method VisitWaiting(initial: seq<GPUStatus>)
      requires Ready() && !paused && !stopping && StatusesFit(initial, Sys())
      modifies this`history, this`spawned, this`held, this`pending, this`processes, kernel, db
      ensures Ready() && PassSince(old(history), history)
      ensures forall id :: id in db.jobs && db.jobs[id].state.Waiting? ==> MustWait(Sys(), id)
    {
      ghost var base, first := history, db.View();
      var waiting := WaitingIds(db.View());
      var statuses := initial;
      QueueStarts(history, waiting);
      for i := 0 to |waiting|
        invariant Ready() && PassSince(base, history)
        invariant InLine(first, db.View(), waiting, i) && Settled(Sys(), waiting, i)
        invariant StatusesFit(statuses, Sys())
      {
        ghost var h := history;
        statuses := ConsiderJob(waiting, i, statuses, first);
        PassesCompose(base, h, history);
      }
      LineIsDone(Sys(), first, waiting);
    }

    /** One turn of the loop: pass the job over, or start it. */
    method ConsiderJob(waiting: seq<nat>, i: nat, statuses: seq<GPUStatus>, ghost first: Store)
      returns (after: seq<GPUStatus>)
      requires Ready() && !paused && !stopping && i < |waiting|
      requires InLine(first, db.View(), waiting, i) && Settled(Sys(), waiting, i) && StatusesFit(statuses, Sys())
      modifies this`history, this`spawned, this`held, this`pending, this`processes, kernel, db
      ensures Ready() && PassSince(old(history), history)
      ensures InLine(first, db.View(), waiting, i + 1) && Settled(Sys(), waiting, i + 1) && StatusesFit(after, Sys())
    {
      var id := waiting[i];
      var job := db.jobs[id];
      after := statuses;
      if job.spec.group.Some? && job.spec.group.value in held {
        return;
      }
      assert job.spec.requestedGpus >= 1 by { InvariantHolds(history); }
      var selected := SelectGpus(statuses, job.spec.requestedGpus);
      SelectionFits(statuses, Sys(), job.spec.requestedGpus);
      if selected == [] {
        return;
      }
      ghost var h := history;
      NextInLine(Sys(), first, waiting, i, SlotsOf(selected));
      after := StartJob(id, selected, statuses);
      TurnIsOver(h, history, first, waiting, i);
    }

    // ---- Pausing, holding, submitting ----

    /** Running jobs are never affected; resuming runs a pass. */
    method SetPaused(pause: bool)
      requires Ready()
      modifies this`paused, this`history, this`spawned, this`held, this`pending, this`processes, kernel, db
      ensures Ready() && paused == pause && Within(old(history), history, if pause then PLAIN else RESUMING)
      ensures pause || pause == old(paused) ==> db.View() == old(db.View())
      ensures old(paused) && !pause && !stopping ==>
                forall id :: id in db.jobs && db.jobs[id].state.Waiting? ==> MustWait(Sys(), id)
    {
      if pause == paused {
        return;
      }
      ghost var s, base := Sys(), history;
      paused := pause;
      Record(Pause(pause), s);
      if !pause {
        ghost var mid := history;
        TrySchedule();
        WithinWider(mid, history, PLAIN, RESUMING);
        WithinJoins(base, mid, history, RESUMING);
      }
    }

    /** Holds or releases a group by hand; tells whether that changed anything. Refuses what is no
        label. */
    method SetGroupHeld(group: string, hold: bool, reason: Option<string>) returns (changed: Option<bool>)
      requires Ready()
      modifies this`history, this`spawned, this`held, this`pending, this`processes, kernel, db
      ensures Ready() && Within(old(history), history, if hold then PLAIN else Releasing({group}))
      ensures changed.Some? <==> Label(group)
      ensures changed.None? ==> db.View() == old(db.View())
      ensures changed.Some? ==> (changed.value <==> hold != (group in old(HeldGroups(db.View()))))
      ensures changed.Some? && hold ==>
                && group in held && db.jobs == old(db.jobs)
                && held[group] == if reason.Some? && reason.value != "" then reason.value else "paused by user"
      ensures changed == Some(false) && !hold ==> group !in held && db.View() == old(db.View())
      ensures changed == Some(true) && !hold && !stopping && !paused ==>
                forall id :: id in db.jobs && db.jobs[id].state.Waiting? ==> MustWait(Sys(), id)
    {
      var valid := ValidateLabel(group);
      if !valid {
        return None;
      }
      ghost var base := history;
      var given := if reason.Some? && reason.value != "" then reason else Some(MANUAL_HOLD_REASON);
      var changes := SetHold(group, hold, given);
      if changes && !hold {
        ghost var mid := history;
        TrySchedule();
        WithinWider(mid, history, PLAIN, Releasing({group}));
        WithinJoins(base, mid, history, Releasing({group}));
      }
      changed := Some(changes);
    }

    method CreateLocked(spec: JobSpec, retryOf: Option<nat>) returns (r: Creation)
      requires Valid() && up && pending.None? && spec.requestedGpus >= 1
      requires retryOf.Some? ==> MayRetry(db.View(), spec, retryOf.value)
      modifies this`history, db
      ensures Valid() && (db.View(), r) == Tables.CreateJob(old(db.View()), spec, retryOf)
      ensures history == Then(old(history), if r.Created? then Create(spec, retryOf) else Advance(1))
      ensures Within(old(history), history, PLAIN)
    {
      ghost var s := Sys();
      r := db.CreateJob(spec, retryOf);
      if r.Created? {
        Record(Create(spec, retryOf), s);
      } else {
        Record(Advance(1), s);
      }
    }

    /** A row for what was asked, unless its key is taken. */
    method QueueAsked(asked: JobSpec, resolved: string) returns (r: Creation)
      requires Ready() && asked.argv != [] && asked.requestedGpus >= 1
      modifies this`history, db
      ensures Ready() && Within(old(history), history, PLAIN)
      ensures r.Created?
         <==> (asked.key.Some? ==> forall id :: id in old(db.jobs) ==> !Takes(old(db.jobs)[id], asked.key.value))
      ensures r.Created? ==>
                && r.id == old(db.nextId) && r.id !in old(db.jobs) && r.id in db.jobs
                && db.jobs == old(db.jobs)[r.id := db.jobs[r.id]]
                && SubmittedAs(db.jobs[r.id].spec, asked, resolved) && db.jobs[r.id].retryOf.None?
      ensures r.KeyInUse? ==>
                && db.jobs == old(db.jobs) && asked.key.Some?
                && r.holder in db.jobs && Takes(db.jobs[r.holder], asked.key.value)
    {
      ghost var s := db.View();
      var name := if asked.name != "" then asked.name else ProgramName(asked.argv[0]);
      ProgramNameIsLastPart(asked.argv[0]);
      var spec := JobSpec(asked.argv, resolved, asked.env, asked.requestedGpus, name, asked.group, asked.key);
      assert IdsOk(s) by { InvariantHolds(history); }
      if spec.key.Some? {
        KeyIsFree(s, spec.key.value);
      }
      r := CreateLocked(spec, None);
      if r.KeyInUse? {
        KeyHolderHolds(s, spec.key.value);
      } else {
        CreatedFacts(s, spec, None);
      }
    }

    /** Refuses what cannot run on this machine, skips a taken key, and otherwise queues the job
        and runs a pass. */
    method Submit(asked: JobSpec, cwdExists: bool, resolved: string, snapshot: Snapshot) returns (r: Submission)
      requires Ready() && (snapshot.Devices? ==> DistinctUuids(snapshot.observations))
      modifies this`observations, this`snapshotError, this`history, this`spawned, this`held,
               this`pending, this`processes, kernel, db
      ensures Ready() && Within(old(history), history, PLAIN)
      ensures r.Rejected? <==> !Submittable(asked, cwdExists, |observations|)
      ensures r.Accepted? <==>
                && Submittable(asked, cwdExists, |observations|)
                && (asked.key.Some? ==> forall id :: id in old(db.jobs) ==> !Takes(old(db.jobs)[id], asked.key.value))
      ensures r.Accepted? ==>
                && r.id == old(db.nextId) && r.id !in old(db.jobs) && r.id in db.jobs
                && SubmittedAs(db.jobs[r.id].spec, asked, resolved) && db.jobs[r.id].retryOf.None?
      ensures r.Accepted? && !stopping && !paused ==>
                forall id :: id in db.jobs && db.jobs[id].state.Waiting? ==> MustWait(Sys(), id)
      ensures r.Duplicate? ==>
                && db.jobs == old(db.jobs) && asked.key.Some?
                && r.existing in db.jobs && Takes(db.jobs[r.existing], asked.key.value)
      ensures r.Rejected? ==> db.View() == old(db.View())
      ensures WellFormed(asked) && cwdExists ==> Scanned(old(observations), snapshot, observations, snapshotError)
    {
      var wellFormed := CheckAsked(asked);
      if !wellFormed || !cwdExists {
        return Rejected;
      }
      ghost var base := history;
      RefreshObservations(snapshot);
      if snapshotError.Some? && snapshotError.value != "" && observations == [] {
        return Rejected;
      }
      if asked.requestedGpus > |observations| {
        return Rejected;
      }
      ghost var scanned := history;
      var creation := QueueAsked(asked, resolved);
      ghost var h := history;
      WithinJoins(base, scanned, h, PLAIN);
      if creation.KeyInUse? {
        return Duplicate(creation.holder);
      }
      TrySchedule();
      WithinJoins(base, h, history, PLAIN);
      PassIsMonotone(h, history);
      r := Accepted(creation.id);
    }

    // ---- Retrying ----

    /** Why a job is not retried, apart from its key. */
    method WhyNotRetried(id: nat, cwdExists: bool) returns (why: Option<RetryRefusal>)
      requires Ready()
      ensures why.None?
             <==> NewestIsDone(db.View(), id) && cwdExists && db.jobs[id].spec.requestedGpus <= |observations|
      ensures why == Some(Missing) <==> id !in db.jobs
    {
      if id !in db.jobs {
        return Some(Missing);
      }
      var job := db.jobs[id];
      if !job.state.Failed? && !job.state.Cancelled? {
        return Some(NotFailed(job.state));
      }
      assert job.id == id && IdsOk(db.View()) && LineageOk(db.jobs) by { InvariantHolds(history); }
      LineageQueryIsExact(db.View(), id);
      var newer := NewerAttempt(db.View(), job.Root(), job.id);
      if newer.Some? {
        return Some(AlreadyRetried(newer.value));
      }
      if !cwdExists {
        return Some(NoWorkingDirectory);
      }
      if job.spec.requestedGpus > |observations| {
        return Some(TooFewGpus);
      }
      return None;
    }

    /** Only the newest attempt of a lineage, failed or cancelled, is retried, as a copy; a hold on
        its group is released. */
    method RetryOne(id: nat, cwdExists: bool) returns (r: RetryResult, released: seq<string>)
      requires Ready()
      modifies this`history, this`held, db
      ensures Ready() && Within(old(history), history, Releasing(Groups(released)))
      ensures r.Retried? <==> MayBeRetried(old(db.View()), id, cwdExists, |observations|)
      ensures r.Retried? ==> AttemptMade(old(db.View()), db.View(), id, r.id)
      ensures released == if r.Retried? then HeldGroupOf(old(db.jobs)[id], old(held).Keys) else []
      ensures held.Keys == old(held).Keys - Groups(released)
      ensures r.Refused? ==> db.jobs == old(db.jobs) && db.nextId == old(db.nextId)
    {
      released := [];
      var why := WhyNotRetried(id, cwdExists);
      if why.Some? {
        return Refused(why.value), [];
      }
      ghost var base := history;
      var job := db.jobs[id];
      var creation := QueueAttempt(id);
      assert Groups([]) == {} && Releasing(Groups([])) == PLAIN;
      if creation.KeyInUse? {
        return Refused(KeyTaken(creation.holder)), [];
      }
      r := Retried(creation.id);
      if job.spec.group.Some? && job.spec.group.value in held {
        ghost var mid := history;
        released := Unhold(job.spec.group.value);
        WithinWider(base, mid, PLAIN, Releasing(Groups(released)));
        WithinJoins(base, mid, history, Releasing(Groups(released)));
      }
    }

    /** Another row for the newest attempt of a lineage, unless its key is taken. */
    method QueueAttempt(id: nat) returns (r: Creation)
      requires Ready() && NewestIsDone(db.View(), id)
      modifies this`history, db
      ensures Ready() && Within(old(history), history, PLAIN)
      ensures var job := old(db.jobs)[id];
              r.Created? <==> (job.spec.key.Some? ==>
                                 forall j :: j in old(db.jobs) ==> !Takes(old(db.jobs)[j], job.spec.key.value))
      ensures r.Created? ==> AttemptMade(old(db.View()), db.View(), id, r.id)
      ensures r.KeyInUse? ==> db.jobs == old(db.jobs) && db.nextId == old(db.nextId)
    {
      ghost var s := db.View();
      var job := db.jobs[id];
      RetryIsGrounded(history, id);
      r := CreateLocked(job.spec, Some(job.Root()));
      if r.Created? {
        CreatedFacts(s, job.spec, Some(job.Root()));
      }
    }

    /** The hold of a group is given up. */
    method Unhold(group: string) returns (released: seq<string>)
      requires Ready() && group in held
      modifies this`history, this`held, db
      ensures Ready() && released == [group] && held.Keys == old(held).Keys - {group}
      ensures Within(old(history), history, Releasing(Groups(released)))
      ensures db.jobs == old(db.jobs) && db.nextId == old(db.nextId)
    {
      assert group in HeldGroups(db.View()) by { InvariantHolds(history); }
      var changed := SetHold(group, false, None);
      released := if changed then [group] else [];
      assert Groups([group]) == {group};
    }

    /** One job of a retry request. */
    method RetryTurn(id: nat, cwdExists: nat -> bool, ghost before: Store, ghost first: set<string>,
                     ghost done: seq<nat>, created: seq<(nat, nat)>, skipped: seq<nat>, released: seq<string>)
      returns (created': seq<(nat, nat)>, skipped': seq<nat>, released': seq<string>, ghost more: seq<string>)
      requires Ready() && RetriedSoFar(before, db.View(), done, created, skipped, cwdExists, |observations|)
      requires HeldSoFar(before.jobs, first, held.Keys, created, released)
      modifies this`history, this`held, db
      ensures Ready() && Within(old(history), history, Releasing(Groups(more))) && released' == released + more
      ensures RetriedSoFar(before, db.View(), done + [id], created', skipped', cwdExists, |observations|)
      ensures HeldSoFar(before.jobs, first, held.Keys, created', released')
    {
      ghost var h, prior := history, held.Keys;
      var r, given := RetryOne(id, cwdExists(id));
      RetryAnswered(h, before, db.View(), done, id, r, created, skipped, cwdExists, |observations|);
      HoldsAnswered(State(h).store, before, created, skipped, done, id, r,
                    first, prior, held.Keys, released, given, cwdExists, |observations|);
      more := given;
      released' := released + given;
      if r.Retried? {
        created', skipped' := created + [(id, r.id)], skipped;
      } else {
        created', skipped' := created, skipped + [id];
      }
    }

    /** The jobs of a retry request, one after another. Every id is answered once, and asking again
        would retry none of them. */
    method RetryEach(ids: seq<nat>, cwdExists: nat -> bool)
      returns (created: seq<(nat, nat)>, skipped: seq<nat>, released: seq<string>)
      requires Ready()
      modifies this`history, this`held, db
      ensures Ready() && RetryLists(ids, created, skipped) && Within(old(history), history, Releasing(Groups(released)))
      ensures RetryProgress(old(db.View()), db.View(), created)
      ensures ReleasedExactly(old(db.jobs), old(held).Keys, created, released)
      ensures NothingToRetry(db.View(), ids, cwdExists, |observations|)
    {
      created, skipped, released := [], [], [];
      ghost var before, base, first := db.View(), history, held.Keys;
      assert forall j :: j in before.jobs ==> j < before.nextId by { InvariantHolds(history); }
      for i := 0 to |ids|
        invariant Ready() && Within(base, history, Releasing(Groups(released)))
        invariant RetriedSoFar(before, db.View(), ids[..i], created, skipped, cwdExists, |observations|)
        invariant HeldSoFar(before.jobs, first, held.Keys, created, released)
      {
        ghost var h := history;
        assert ids[..i + 1] == ids[..i] + [ids[i]];
        ghost var more;
        created, skipped, released, more :=
          RetryTurn(ids[i], cwdExists, before, first, ids[..i], created, skipped, released);
        OneMoreRelease(base, h, history, released[..|released| - |more|], more);
        assert released[..|released| - |more|] + more == released;
      }
      assert ids[..|ids|] == ids;
    }

    /** One lock hold retries a list of jobs and then runs a pass. Each id is answered once, and no
        lineage gets more than one new attempt. */
    method Retry(ids: seq<nat>, cwdExists: nat -> bool, snapshot: Snapshot)
      returns (created: seq<(nat, nat)>, skipped: seq<nat>, released: seq<string>)
      requires Ready() && (snapshot.Devices? ==> DistinctUuids(snapshot.observations))
      modifies this`observations, this`snapshotError, this`history, this`spawned, this`held,
               this`pending, this`processes, kernel, db
      ensures Ready() && RetryLists(ids, created, skipped) && Within(old(history), history, Releasing(Groups(released)))
      ensures ReleasedExactly(old(db.jobs), old(held).Keys, created, released)
      ensures OneAttemptEach(old(db.View()), db.jobs, created)
      ensures Scanned(old(observations), snapshot, observations, snapshotError)
      ensures !stopping && !paused ==> forall id :: id in db.jobs && db.jobs[id].state.Waiting? ==> MustWait(Sys(), id)
    {
      ghost var base := history;
      RefreshObservations(snapshot);
      ghost var scanned := history;
      created, skipped, released := RetryEach(ids, cwdExists);
      ghost var h := history;
      WithinWider(base, scanned, PLAIN, Releasing(Groups(released)));
      WithinJoins(base, scanned, h, Releasing(Groups(released)));
      TrySchedule();
      WithinWider(h, history, PLAIN, Releasing(Groups(released)));
      WithinJoins(base, h, history, Releasing(Groups(released)));
      PassIsMonotone(h, history);
    }

    // ---- Cancelling ----

    /** A signal goes out only if the group test says "alive"; without one, the group is gone. */
    method CancelOne(id: nat) returns (outcome: CancelOutcome)
      requires Ready() && id in db.jobs && !db.jobs[id].state.Terminal()
      modifies this`history, this`pending, kernel`world, kernel`turns, db
      ensures Ready() && Within(old(history), history, PLAIN)
      ensures db.jobs.Keys == old(db.jobs).Keys && db.nextId == old(db.nextId)
      ensures forall j :: j in old(db.jobs) && j != id ==> db.jobs[j] == old(db.jobs)[j]
      ensures outcome == CancelledWaiting <==> old(db.jobs)[id].state.Waiting?
      ensures outcome == InProgress <==> old(db.jobs)[id].state.Cancelling?
      ensures outcome.Requested? ==> if outcome.sent then WasAlive(old(history), history, id) else Gone(Sys(), id)
      ensures db.jobs[id].state == CancelledState(old(db.jobs)[id].state) && db.jobs[id].gpus == old(db.jobs)[id].gpus
    {
      if db.jobs[id].state.Waiting? {
        assert db.jobs[id].process.None? by {
          InvariantHolds(history);
          assert RowOk(db.jobs[id], db.clock);
        }
        MarkFinished(id, JobState.Cancelled, None, Some(CancelledBeforeLaunch), false);
        return CancelledWaiting;
      }
      if db.jobs[id].state.Cancelling? {
        return InProgress;
      }
      outcome := BeginCancellation(id);
    }

    /** RUNNING -> CANCELLING, and SIGTERM to the group. */
    method BeginCancellation(id: nat) returns (outcome: CancelOutcome)
      requires Ready() && id in db.jobs && !db.jobs[id].state.Terminal()
      requires !db.jobs[id].state.Waiting? && !db.jobs[id].state.Cancelling?
      modifies this`history, kernel`world, kernel`turns, db
      ensures Ready() && Within(old(history), history, PLAIN)
      ensures outcome.Requested? && if outcome.sent then WasAlive(old(history), history, id) else Gone(Sys(), id)
      ensures db.nextId == old(db.nextId)
      ensures db.jobs == old(db.jobs)[id := old(db.jobs)[id].(state := JobState.Cancelling)]
    {
      ghost var s, base := Sys(), history;
      var ok := db.SetCancelling(id);
      assert ok;
      Record(BeginCancel(id), s);
      ghost var mid := history;
      var sent := SignalJob(id);
      WithinJoins(base, mid, history, PLAIN);
      if sent {
        AnswerStands(base, mid, history, history, id);
      }
      outcome := Requested(sent);
    }

    method Cancel(id: nat) returns (outcome: Option<CancelOutcome>)
      requires Ready()
      modifies this`history, this`spawned, this`held, this`pending, this`processes, kernel, db
      ensures Ready() && Within(old(history), history, PLAIN)
      ensures outcome.Some? <==> id in old(db.jobs) && !HasEnded(old(db.jobs)[id].state)
      ensures outcome.None? ==> db.View() == old(db.View())
      ensures outcome.Some? ==>
                && id in db.jobs && db.jobs[id].state == CancelledState(old(db.jobs)[id].state)
                && db.jobs[id].gpus == old(db.jobs)[id].gpus
      ensures outcome == Some(CancelledWaiting) <==> id in old(db.jobs) && old(db.jobs)[id].state.Waiting?
      ensures outcome == Some(InProgress) <==> id in old(db.jobs) && old(db.jobs)[id].state.Cancelling?
      ensures outcome.Some? && outcome.value.Requested? && outcome.value.sent ==> WasAlive(old(history), history, id)
      ensures !stopping && !paused && outcome.Some? ==>
                forall j :: j in db.jobs && db.jobs[j].state.Waiting? ==> MustWait(Sys(), j)
    {
      if id !in db.jobs || db.jobs[id].state.Terminal() {
        return None;
      }
      ghost var base := history;
      var done := CancelOne(id);
      ghost var h := history;
      TrySchedule();
      PassKeepsRow(h, history, id);
      WithinJoins(base, h, history, PLAIN);
      if done.Requested? && done.sent {
        AnswerStands(base, base, h, history, id);
      }
      outcome := Some(done);
    }

    method CancelEach(ids: seq<nat>) returns (cancelled: seq<nat>, cancelling: seq<nat>, skipped: seq<nat>)
      requires Ready()
      modifies this`history, this`pending, kernel`world, kernel`turns, db
      ensures Ready() && Within(old(history), history, PLAIN) && CancelRows(old(db.jobs), db.jobs, ids)
      ensures CancelLists(old(db.jobs), ids, cancelled, cancelling, skipped)
    {
      cancelled, cancelling, skipped := [], [], [];
      ghost var before, base := db.jobs, history;
      for i := 0 to |ids|
        invariant Ready() && Within(base, history, PLAIN) && CancelRows(before, db.jobs, ids[..i])
        invariant CancelLists(before, ids[..i], cancelled, cancelling, skipped)
      {
        var id := ids[i];
        ghost var jobs, h := db.jobs, history;
        assert ids[..i + 1] == ids[..i] + [id];
        StateWhenReached(before, jobs, ids[..i], id);
        CancelListsGrow(before, ids[..i], id, cancelled, cancelling, skipped);
        if id !in db.jobs || db.jobs[id].state.Terminal() {
          CancelRowsStay(before, jobs, ids[..i], id);
          skipped := skipped + [id];
        } else {
          var outcome := CancelOne(id);
          WithinJoins(base, h, history, PLAIN);
          CancelRowsGrow(before, jobs, db.jobs, ids[..i], id);
          if outcome == CancelledWaiting {
            cancelled := cancelled + [id];
          } else {
            cancelling := cancelling + [id];
          }
        }
      }
      assert ids[..|ids|] == ids;
    }

    /** Sorts every requested id, repeats included, into exactly one list, and never fails midway.
        The pass that follows starts none of them and hands out no GPU of a job being cancelled. */
    method CancelMany(ids: seq<nat>) returns (cancelled: seq<nat>, cancelling: seq<nat>, skipped: seq<nat>)
      requires Ready()
      modifies this`history, this`spawned, this`held, this`pending, this`processes, kernel, db
      ensures Ready() && Within(old(history), history, PLAIN)
      ensures CancelLists(old(db.jobs), ids, cancelled, cancelling, skipped)
      ensures CancelsStand(old(db.jobs), db.View(), ids)
      ensures !stopping && !paused ==> forall id :: id in db.jobs && db.jobs[id].state.Waiting? ==> MustWait(Sys(), id)
    {
      ghost var before, base := db.jobs, history;
      cancelled, cancelling, skipped := CancelEach(ids);
      ghost var h := history;
      TrySchedule();
      CancelsSurviveThePass(h, history, before, ids);
      WithinJoins(base, h, history, PLAIN);
    }

    // ---- The end of a job ----

    /** One look of the monitor, without the lock, after the process it waits for has exited: is the
        whole process group gone? gq looks again every quarter of a second. */
    method MonitorLooks(id: nat) returns (gone: bool)
      requires Valid() && up
      modifies this`history, kernel`world, kernel`turns
      ensures Valid() && Within(old(history), history, PLAIN) && (gone ==> Gone(Sys(), id))
      ensures gone
             <==> (id in db.jobs && db.jobs[id].process.Some? ==>
                     MembersOf(kernel.world, db.jobs[id].process.value.pgid) == {})
    {
      if id !in db.jobs || db.jobs[id].process.None? {
        return true;
      }
      ghost var s := Sys();
      assert Inv(s) by { InvariantHolds(history); }
      assert RecordOk(s, id);
      var pgid := db.jobs[id].process.value.pgid;
      var members, path := kernel.ProcessGroupMembers(pgid);
      PathKeeps(s.world, path, spawned[id]);
      NoMembersMeansGone(kernel.world, spawned[id]);
      Observed(path, s);
      gone := members == {};
    }

    /** The terminal transition of a job this daemon waited for; a failure is noted. */
    method FinishWatched(id: nat, to: JobState, exitCode: int, reason: Option<Reason>)
      requires Ready() && MayFinish(Sys(), id, to, Some(exitCode))
      modifies this`history, this`held, this`pending, db
      ensures Ready() && Within(old(history), history, PLAIN)
      ensures id in db.jobs && db.jobs[id].state == to
      ensures db.jobs[id].exitCode == Some(exitCode) && db.jobs[id].reason == reason
      ensures db.jobs == old(db.jobs)[id := db.jobs[id]]
      ensures to.Failed? && db.jobs[id].spec.group.Some? ==>
                HeldAsItMust(db.jobs, old(db.holds), db.jobs[id].spec.group.value,
                             old(held).Keys, held.Keys, failFastCount, failFastTime)
    {
      ghost var base := history;
      MarkFinished(id, to, Some(exitCode), reason, true);
      assert NoneStarting(db.View());
      ghost var mid := history;
      if to.Failed? {
        NoteFailure(id);
        WithinJoins(base, mid, history, PLAIN);
      }
    }

    /** The monitor's lock hold, some time after it saw the group gone. */
    method MonitorEnds(id: nat, exitCode: int, snapshot: Snapshot)
      requires Ready() && Gone(Sys(), id) && (snapshot.Devices? ==> DistinctUuids(snapshot.observations))
      requires id in spawned
      modifies this`observations, this`snapshotError, this`history, this`spawned, this`held,
               this`pending, this`processes, kernel, db
      ensures Ready() && Within(old(history), history, PLAIN)
      ensures id !in old(db.jobs) || old(db.jobs)[id].state.Terminal() ==> db.View() == old(db.View())
      ensures id in old(db.jobs) && !old(db.jobs)[id].state.Terminal() ==>
                && id in db.jobs && db.jobs[id].exitCode == Some(exitCode)
                && db.jobs[id].state == if old(db.jobs)[id].state.Cancelling? then JobState.Cancelled
                                        else if exitCode == 0 then JobState.Done else JobState.Failed
      ensures id in old(db.jobs) && !old(db.jobs)[id].state.Terminal() ==>
                db.jobs[id].reason == if old(db.jobs)[id].state.Cancelling? then Some(CancelledByUser)
                                      else if exitCode == 0 then None else Some(ExitStatus(exitCode))
      ensures id in old(db.jobs) && !old(db.jobs)[id].state.Terminal() ==>
                Scanned(old(observations), snapshot, observations, snapshotError)
      ensures id in old(db.jobs) && !old(db.jobs)[id].state.Terminal() && db.jobs[id].state.Failed?
              && db.jobs[id].spec.group.Some?
              && MustBeHeld(old(db.jobs)[id := db.jobs[id]], old(db.holds), db.jobs[id].spec.group.value,
                            old(held).Keys, failFastCount, failFastTime) ==>
                db.jobs[id].spec.group.value in held
      ensures id !in processes
      ensures !stopping && !paused && id in old(db.jobs) && !old(db.jobs)[id].state.Terminal() ==>
                forall j :: j in db.jobs && db.jobs[j].state.Waiting? ==> MustWait(Sys(), j)
    {
      if id !in db.jobs || db.jobs[id].state.Terminal() {
        processes := processes - {id};
        return;
      }
      assert !db.jobs[id].state.Waiting? by { InvariantHolds(history); }
      var (to, reason) := EndingOf(db.jobs[id].state, exitCode);
      ghost var base := history;
      FinishWatched(id, to, exitCode, reason);
      ghost var mid := history;
      ScanAndSchedule(id, snapshot);
      WithinJoins(base, mid, history, PLAIN);
      processes := processes - {id};
    }

    /** `managed_process_group_alive` for a job: "dead" means its group is gone, "alive" that it was
        there or that a leaderless successor came by. */
    method JobAlive(id: nat) returns (alive: bool)
      requires Valid() && up && id in db.jobs
      modifies this`history, kernel`world, kernel`turns
      ensures Valid() && (!alive ==> Gone(Sys(), id)) && (alive ==> db.jobs[id].process.Some?)
      ensures history.Then? && history.past == old(history) && history.event.Environment?
      ensures alive ==> WasAlive(old(history), history, id)
      ensures kernel.world.boot == old(kernel.world.boot)
      ensures Within(old(history), history, PLAIN)
    {
      ghost var s := Sys();
      assert WorldOk(s.world) && RecordOk(s, id) && (id in spawned ==> Known(s.world, spawned[id])) by {
        InvariantHolds(history);
      }
      ghost var path;
      alive, path := kernel.ManagedProcessGroupAlive(db.jobs[id].process);
      PathKeeps(s.world, path, Ident(0, 0, 0, 0));
      if alive {
        AnswerIsGiven(history, path, id);
      }
      Observed(path, s);
    }

    /** `signal_managed_group` for a job: without a signal its group is gone. */
    method SignalJob(id: nat) returns (sent: bool)
      requires Valid() && up && id in db.jobs
      modifies this`history, kernel`world, kernel`turns
      ensures Valid() && (!sent ==> Gone(Sys(), id))
      ensures history.Then? && history.past == old(history) && history.event.Environment?
      ensures sent ==> WasAlive(old(history), history, id)
      ensures sent ==> db.jobs[id].process.Some? && MembersOf(kernel.world, db.jobs[id].process.value.pgid) != {}
      ensures sent && id in spawned && spawned[id].boot == kernel.world.boot ==>
                (OwnGroup(kernel.world, spawned[id]) <==> GroupAlive(kernel.world, spawned[id].lifetime))
      ensures Within(old(history), history, PLAIN)
    {
      ghost var s := Sys();
      assert WorldOk(s.world) && RecordOk(s, id) && (id in spawned ==> Known(s.world, spawned[id])) by {
        InvariantHolds(history);
      }
      ghost var path;
      sent, path := kernel.SignalManagedGroup(db.jobs[id].process);
      if sent {
        AnswerIsGiven(history, path, id);
      }
      PathKeeps(s.world, path, Ident(0, 0, 0, 0));
      Observed(path, s);
    }

    /** One look of the coroutine that follows a cancellation, without the lock. */
    method CancellationLooks(id: nat) returns (gone: bool)
      requires Valid() && up
      modifies this`history, kernel`world, kernel`turns
      ensures Valid() && Within(old(history), history, PLAIN)
      ensures (gone ==> Gone(Sys(), id)) && (!gone ==> WasAlive(old(history), history, id))
    {
      gone := true;
      if id in db.jobs {
        var alive := JobAlive(id);
        gone := !alive;
      }
    }

    /** The lock hold that ends the cancellation of a job without a monitor of this daemon. */
    method CancellationEnds(id: nat, snapshot: Snapshot)
      requires Ready() && Gone(Sys(), id) && (snapshot.Devices? ==> DistinctUuids(snapshot.observations))
      modifies this`observations, this`snapshotError, this`history, this`spawned, this`held,
               this`pending, this`processes, kernel, db
      ensures Ready() && Within(old(history), history, PLAIN)
      ensures id !in old(db.jobs) || !old(db.jobs)[id].state.Cancelling? ==> db.View() == old(db.View())
      ensures id in old(db.jobs) && old(db.jobs)[id].state.Cancelling? ==>
                && id in db.jobs && db.jobs[id].state.Cancelled?
                && Scanned(old(observations), snapshot, observations, snapshotError)
      ensures !stopping && !paused && id in old(db.jobs) && old(db.jobs)[id].state.Cancelling? ==>
                forall j :: j in db.jobs && db.jobs[j].state.Waiting? ==> MustWait(Sys(), j)
    {
      if id !in db.jobs || !db.jobs[id].state.Cancelling? {
        return;
      }
      ghost var base := history;
      MarkFinished(id, JobState.Cancelled, None, Some(CancelledByUser), false);
      ghost var mid := history;
      ScanAndSchedule(id, snapshot);
      WithinJoins(base, mid, history, PLAIN);
    }

    /** After a job has ended, the devices are scanned and others may start. */
    method ScanAndSchedule(ghost ended: nat, snapshot: Snapshot)
      requires Ready() && ended in db.jobs && db.jobs[ended].state.Terminal()
      requires snapshot.Devices? ==> DistinctUuids(snapshot.observations)
      modifies this`observations, this`snapshotError, this`history, this`spawned, this`held,
               this`pending, this`processes, kernel, db
      ensures Ready() && Within(old(history), history, PLAIN)
      ensures ended in db.jobs && db.jobs[ended] == old(db.jobs)[ended]
      ensures old(held).Keys <= held.Keys && Scanned(old(observations), snapshot, observations, snapshotError)
      ensures !stopping && !paused ==> forall id :: id in db.jobs && db.jobs[id].state.Waiting? ==> MustWait(Sys(), id)
    {
      ghost var base := history;
      RefreshObservations(snapshot);
      ghost var h := history;
      TrySchedule();
      PassKeepsRow(h, history, ended);
      assert PassMonotone(State(h), State(history)) by { PassIsMonotone(h, history); }
      WithinJoins(base, h, history, PLAIN);
    }

    // ---- Recovery ----

    method CarryOut(id: nat, verdict: Verdict)
      requires Valid() && up && pending.None? && id in db.jobs
      requires verdict.End? ==> MayFinish(Sys(), id, verdict.to, None)
      modifies this`history, this`pending, db
      ensures Valid() && pending.None? && db.View() == Applied(old(db.View()), id, verdict)
      ensures Within(old(history), history, PLAIN)
    {
      match verdict
      case Keep =>
      case End(to, reason) => MarkFinished(id, to, None, Some(reason), false);
    }

    /** The daemon's view of one unfinished job against the machine. */
    method RecoverOne(id: nat, boot: Option<nat>, known: set<string>) returns (alive: bool)
      requires Valid() && up && pending.None? && id in db.jobs && db.jobs[id].state.Active()
      requires known == SeenUuids(observations)
      requires boot.Some? ==> boot.value == kernel.world.boot
      modifies this`history, this`pending, kernel`world, kernel`turns, db
      ensures Valid() && pending.None? && kernel.world.boot == old(kernel.world.boot)
      ensures db.View() == Applied(old(db.View()), id, RecoveryVerdict(old(db.jobs)[id], boot, alive, known))
      ensures alive ==> old(db.jobs)[id].process.Some?
      ensures Within(old(history), history, PLAIN) && (alive ==> WasAlive(old(history), history, id))
    {
      ghost var base := history;
      var job := db.jobs[id];
      alive := AskIfAlive(id, boot);
      ghost var mid := history;
      VerdictIsLegal(history, id, boot, alive, known);
      CarryOut(id, RecoveryVerdict(job, boot, alive, known));
      WithinJoins(base, mid, history, PLAIN);
      if alive {
        AnswerStands(base, base, mid, history, id);
      }
    }

    /** A job of an earlier boot is gone without asking. */
    method AskIfAlive(id: nat, boot: Option<nat>) returns (alive: bool)
      requires Valid() && up && id in db.jobs && (boot.Some? ==> boot.value == kernel.world.boot)
      modifies this`history, kernel`world, kernel`turns
      ensures Valid() && kernel.world.boot == old(kernel.world.boot) && Within(old(history), history, PLAIN)
      ensures !alive ==> Gone(Sys(), id)
      ensures alive ==> !Rebooted(db.jobs[id], boot) && db.jobs[id].process.Some? && WasAlive(old(history), history, id)
    {
      alive := false;
      if !Rebooted(db.jobs[id], boot) {
        alive := JobAlive(id);
      } else {
        RebootedIsGone(history, id, boot);
      }
    }

    /** The unfinished jobs in id order; `answers` are those whose group said "alive". */
    method RecoverEach(ids: seq<nat>, current: Option<nat>, known: set<string>) returns (ghost answers: set<nat>)
      requires Valid() && up && pending.None? && ids == ActiveIds(db.View())
      requires current.Some? ==> current.value == kernel.world.boot
      requires known == SeenUuids(observations)
      modifies this`history, this`pending, kernel`world, kernel`turns, db
      ensures Valid() && pending.None?
      ensures db.View() == RecoverAll(old(db.View()), ids, current, answers, known)
      ensures forall id :: id in answers ==> id in old(db.jobs) && old(db.jobs)[id].process.Some?
      ensures Within(old(history), history, PLAIN) && AllWereAlive(old(history), history, answers)
    {
      answers := {};
      ghost var first, base := db.View(), history;
      for i := 0 to |ids|
        invariant Valid() && pending.None? && (current.Some? ==> current.value == kernel.world.boot)
        invariant kernel.world.boot == State(base).world.boot
        invariant RecoveredUpTo(first, db.View(), ids, i, current, answers, known)
        invariant Within(base, history, PLAIN) && AllWereAlive(base, history, answers)
      {
        ghost var before, mid := db.View(), history;
        NextToRecover(first, before, ids, i, current, answers, known);
        var alive := RecoverOne(ids[i], current, known);
        RecoveredOneMore(first, before, db.View(), ids, i, current, answers, known, alive);
        OneMoreAnswer(base, mid, history, answers, ids[i], alive);
        WithinJoins(base, mid, history, PLAIN);
        answers := if alive then answers + {ids[i]} else answers;
      }
      assert ids[..|ids|] == ids;
    }

    method ReadBoot() returns (boot: Option<nat>)
      requires Valid() && up
      modifies this`history, kernel`world, kernel`turns
      ensures Valid() && Sys() == old(Sys()).(world := kernel.world) && kernel.world.boot == old(kernel.world.boot)
      ensures history.Then? && history.past == old(history) && history.event.Environment?
      ensures boot == old(BootSeen())
      ensures Within(old(history), history, PLAIN)
    {
      ghost var s := Sys();
      assert WorldOk(s.world) by { InvariantHolds(history); }
      ghost var path;
      boot, path := kernel.BootId();
      PathKeeps(s.world, path, Ident(0, 0, 0, 0));
      Observed(path, s);
    }

    /** The unfinished jobs against the machine; `answers` are those whose group test said "alive". */
    method Recover() returns (ghost boot: Option<nat>, ghost answers: set<nat>)
      requires Valid() && up && pending.None?
      modifies this`history, this`pending, kernel`world, kernel`turns, db
      ensures Ready() && boot == old(BootSeen())
      ensures db.View() == RecoverAll(old(db.View()), ActiveIds(old(db.View())), boot, answers, SeenUuids(observations))
      ensures Within(old(history), history, PLAIN) && AllWereAlive(old(history), history, answers)
    {
      ghost var base, first := history, db.View();
      assert IdsOk(first) && RowsOk(first) by { InvariantHolds(history); }
      var current := ReadBoot();
      boot := current;
      ghost var mid := history;
      answers := RecoverEach(ActiveIds(db.View()), current, SeenUuids(observations));
      RecoveredAreStarted(first, current, answers, SeenUuids(observations));
      WithinJoins(base, mid, history, PLAIN);
      AnswersStand(base, mid, history, history, answers);
    }

    // ---- Reaping, starting up, ticking, deleting ----

    method ReapOne(id: nat, boot: Option<nat>) returns (alive: bool)
      requires Ready() && id in db.jobs && db.jobs[id].state.Active()
      requires boot.Some? ==> boot.value == kernel.world.boot
      modifies this`history, this`pending, kernel`world, kernel`turns, db
      ensures Ready() && kernel.world.boot == old(kernel.world.boot)
      ensures db.View() == Applied(old(db.View()), id, ReapVerdict(old(db.jobs)[id], boot, alive))
      ensures Within(old(history), history, PLAIN) && (alive ==> WasAlive(old(history), history, id))
    {
      ghost var base := history;
      var job := db.jobs[id];
      alive := AskIfAlive(id, boot);
      ghost var mid := history;
      ReapingIsLegal(history, id, boot, alive);
      CarryOut(id, ReapVerdict(job, boot, alive));
      WithinJoins(base, mid, history, PLAIN);
      if alive {
        AnswerStands(base, base, mid, history, id);
      }
    }

    method ReapUnlessWatched(id: nat, boot: Option<nat>) returns (alive: bool)
      requires Ready() && id in db.jobs && db.jobs[id].state.Active()
      requires boot.Some? ==> boot.value == kernel.world.boot
      modifies this`history, this`pending, kernel`world, kernel`turns, db
      ensures Ready() && kernel.world.boot == old(kernel.world.boot)
      ensures if id in processes then db.View() == old(db.View()) && !alive
              else db.View() == Applied(old(db.View()), id, ReapVerdict(old(db.jobs)[id], boot, alive))
      ensures Within(old(history), history, PLAIN) && (alive ==> WasAlive(old(history), history, id))
    {
      alive := false;
      if id !in processes {
        alive := ReapOne(id, boot);
      }
    }

    method ReapEach(ids: seq<nat>, current: Option<nat>) returns (ghost answers: set<nat>)
      requires Ready() && ids == ActiveIds(db.View())
      requires current.Some? ==> current.value == kernel.world.boot
      modifies this`history, this`pending, kernel`world, kernel`turns, db
      ensures Ready() && Reaped(old(db.jobs), db.jobs, Ids(ids), processes, current, answers)
      ensures Within(old(history), history, PLAIN) && AllWereAlive(old(history), history, answers)
    {
      answers := {};
      ghost var first, base := db.View(), history;
      for i := 0 to |ids|
        invariant Ready() && (current.Some? ==> current.value == kernel.world.boot)
        invariant kernel.world.boot == State(base).world.boot
        invariant ReapedUpTo(first, db.View(), ids, i, processes, current, answers)
        invariant Within(base, history, PLAIN) && AllWereAlive(base, history, answers)
      {
        ghost var before, mid := db.View(), history;
        NextToReap(first, before, ids, i, processes, current, answers);
        var alive := ReapUnlessWatched(ids[i], current);
        ReapedOneMore(first, before, db.View(), ids, i, processes, current, answers, alive);
        OneMoreAnswer(base, mid, history, answers, ids[i], alive);
        WithinJoins(base, mid, history, PLAIN);
        answers := if alive then answers + {ids[i]} else answers;
      }
      assert ids[..|ids|] == ids;
    }

    /** Jobs without a monitor of this daemon are ended once their group is gone. */
    method ReapRecoveredJobs() returns (ghost boot: Option<nat>, ghost answers: set<nat>)
      requires Ready()
      modifies this`history, this`pending, kernel`world, kernel`turns, db
      ensures Ready() && Reaped(old(db.jobs), db.jobs, old(db.jobs).Keys, processes, boot, answers)
      ensures boot == old(BootSeen())
      ensures Within(old(history), history, PLAIN) && AllWereAlive(old(history), history, answers)
    {
      ghost var base, first := history, db.View();
      assert IdsOk(first) by { InvariantHolds(history); }
      var current := ReadBoot();
      boot := current;
      ghost var mid := history;
      var ids := ActiveIds(db.View());
      answers := ReapEach(ids, current);
      assert forall id :: id in first.jobs && first.jobs[id].state.Active() ==> id in Ids(ids);
      WithinJoins(base, mid, history, PLAIN);
      AnswersStand(base, mid, history, history, answers);
    }

    /** The holds are read, the devices scanned, and the unfinished jobs compared with the machine. */
    method StartUp(snapshot: Snapshot) returns (ghost boot: Option<nat>, ghost answers: set<nat>)
      requires Valid() && Fresh() && (snapshot.Devices? ==> DistinctUuids(snapshot.observations))
      modifies this`held, this`up, this`observations, this`snapshotError, this`history,
               this`pending, kernel`world, kernel`turns, db
      ensures Ready() && held == old(HeldGroups(db.View())) && boot == old(BootSeen())
      ensures Scanned([], snapshot, observations, snapshotError)
      ensures db.View() == RecoverAll(old(db.View()), ActiveIds(old(db.View())), boot, answers, SeenUuids(observations))
      ensures Within(old(history), history, RESTARTING) && AllWereAlive(old(history), history, answers)
    {
      ghost var base := history;
      ComeUp(snapshot);
      ghost var mid := history;
      boot, answers := Recover();
      WithinWider(mid, history, PLAIN, RESTARTING);
      WithinJoins(base, mid, history, RESTARTING);
      AnswersStand(base, mid, history, history, answers);
    }

    /** The holds are read and the devices scanned. */
    method ComeUp(snapshot: Snapshot)
      requires Valid() && Fresh() && (snapshot.Devices? ==> DistinctUuids(snapshot.observations))
      modifies this`held, this`up, this`observations, this`snapshotError, this`history
      ensures Valid() && up && pending.None? && held == HeldGroups(db.View())
      ensures Scanned([], snapshot, observations, snapshotError)
      ensures Within(old(history), history, RESTARTING)
    {
      ghost var s, base := Sys(), history;
      held := HeldGroups(db.View());
      up := true;
      Record(Restart(failFastCount, failFastTime), s);
      RefreshObservations(snapshot);
      assert Within(base, history.past, RESTARTING);
    }

    /** What a new daemon does before it answers anyone: what it takes over unfinished it saw alive,
        with all its GPUs present, and left as it was; what it ends without keeping its GPUs is gone. */
    method Initialize(snapshot: Snapshot)
      requires Valid() && Fresh() && (snapshot.Devices? ==> DistinctUuids(snapshot.observations))
      modifies this`held, this`up, this`observations, this`snapshotError, this`history,
               this`spawned, this`pending, this`processes, kernel, db
      ensures Ready() && Within(old(history), history, RESTARTING) && old(HeldGroups(db.View())).Keys <= held.Keys
      ensures forall id :: id in db.jobs && db.jobs[id].state.Waiting? ==> MustWait(Sys(), id)
      ensures TakenOver(old(history), history, old(BootSeen()))
      ensures Scanned([], snapshot, observations, snapshotError)
    {
      ghost var base := history;
      assert IdsOk(db.View()) by { InvariantHolds(history); }
      ghost var boot, answers := StartUp(snapshot);
      ghost var h := history;
      TrySchedule();
      assert held.Keys >= State(h).memory.value.held.Keys by { PassIsMonotone(h, history); }
      SurvivorsAreTakenOver(base, h, history, boot, answers);
      WithinWider(h, history, PLAIN, RESTARTING);
      WithinJoins(base, h, history, RESTARTING);
    }

    /** Scan, reap, and run a pass: an unfinished job that nobody watches was seen alive. */
    method Tick(snapshot: Snapshot)
      requires Ready() && (snapshot.Devices? ==> DistinctUuids(snapshot.observations))
      modifies this`observations, this`snapshotError, this`history, this`spawned, this`held,
               this`pending, this`processes, kernel, db
      ensures Ready() && Within(old(history), history, PLAIN)
      ensures !stopping && !paused ==> forall id :: id in db.jobs && db.jobs[id].state.Waiting? ==> MustWait(Sys(), id)
      ensures UnwatchedWereAlive(old(history), history, old(processes), old(BootSeen()))
      ensures Scanned(old(observations), snapshot, observations, snapshotError)
      ensures old(stopping || paused) ==> NoneStarted(old(db.jobs), db.jobs)
    {
      ghost var base, watched := history, processes;
      ghost var scanned, boot, answers := ScanAndReap(snapshot);
      ghost var h := history;
      TrySchedule();
      UnwatchedAreReaped(base, scanned, h, history, watched, boot, answers);
      WithinJoins(base, h, history, PLAIN);
      if old(stopping || paused) {
        ShutStartsNothing(base, history, PLAIN);
      }
    }

    method ScanAndReap(snapshot: Snapshot)
      returns (ghost scanned: History, ghost boot: Option<nat>, ghost answers: set<nat>)
      requires Ready() && (snapshot.Devices? ==> DistinctUuids(snapshot.observations))
      modifies this`observations, this`snapshotError, this`history, this`pending, kernel`world, kernel`turns, db
      ensures Ready() && Scanned(old(observations), snapshot, observations, snapshotError)
      ensures Legal(scanned) && scanned == Then(old(history), Scan(snapshot)) && Within(scanned, history, PLAIN)
      ensures Reaped(State(scanned).store.jobs, db.jobs, State(scanned).store.jobs.Keys, processes, boot, answers)
      ensures AllWereAlive(scanned, history, answers) && boot == old(BootSeen())
      ensures Within(old(history), history, PLAIN)
    {
      ghost var base := history;
      RefreshObservations(snapshot);
      scanned := history;
      boot, answers := ReapRecoveredJobs();
      WithinJoins(base, scanned, history, PLAIN);
    }

    /** All or nothing, and no scheduling pass. */
    method DeleteJobs(ids: seq<nat>) returns (ok: bool)
      requires Ready()
      modifies this`history, db
      ensures Ready() && history == if ok then Then(old(history), Delete(ids)) else old(history)
      ensures ok
             <==> && (forall k :: 0 <= k < |ids| ==> ids[k] in old(db.jobs) && HasEnded(old(db.jobs)[ids[k]].state))
                  && (forall i, j :: 0 <= i < j < |ids| ==> ids[i] != ids[j])
      ensures db.View() == old(db.View()).(jobs := if ok then old(db.jobs) - (set id | id in ids) else old(db.jobs))
      ensures Within(old(history), history, PLAIN)
    {
      ghost var s := Sys();
      DeletionIsAllOrNothing(db.jobs, ids);
      ok := db.DeleteJobs(ids);
      if ok {
        Record(Delete(ids), s);
      } else {
        assert Sys() == s;
      }
    }

    /** Deletes the terminal jobs of the wanted states whose end time, as printed, is less than the
        cutoff text, which always succeeds. If the cutoff is a printed time, these are the jobs that
        ended before it. */
    method CleanJobs(cutoff: string, states: seq<JobState>, stamp: nat -> Stamp) returns (removed: seq<nat>)
      requires Ready()
      modifies this`history, db
      ensures Ready() && Within(old(history), history, PLAIN)
      ensures removed == TerminalJobsBeforeText(old(db.View()), stamp, cutoff, states)
      ensures db.View() == old(db.View()).(jobs := old(db.jobs) - (set id | id in removed))
      ensures forall at, origin ::
                ValidStamp(at) && IsoFormat(at) == cutoff && StampsOk(old(db.View()), stamp, origin) ==>
                  forall id :: id in removed <==>
                    id in old(db.jobs) && EndedBy(old(db.jobs)[id], states, Instant(at) - origin)
    {
      ghost var s := db.View();
      removed := TerminalJobsBeforeText(db.View(), stamp, cutoff, states);
      forall at, origin | ValidStamp(at) && IsoFormat(at) == cutoff && StampsOk(s, stamp, origin)
        ensures forall id :: id in removed <==> id in s.jobs && EndedBy(s.jobs[id], states, Instant(at) - origin)
      {
        assert IdsOk(s) by { InvariantHolds(history); }
        CleanupIsExact(s, stamp, origin, at, states);
      }
      forall k | 0 <= k < |removed| ensures removed[k] in db.jobs && db.jobs[removed[k]].state.Terminal() {
        assert removed[k] in removed;
      }
      var ok := DeleteJobs(removed);
    }

    /** From here on no pass starts anything. */
    method Close()
      requires Ready()
      modifies this`stopping, this`history
      ensures Ready() && stopping && history == Then(old(history), Stop)
      ensures Within(old(history), history, PLAIN)
    {
      ghost var s := Sys();
      stopping := true;
      Record(Stop, s);
    }

    ghost predicate Fresh()
      reads this
    {
      !up && !paused && !stopping && observations == [] && snapshotError.None? && pending.None? && processes == {}
    }
  }
}
