/** Runs that reach the cases the theorems warn of. Each run is a legal history from empty tables. */
module Witnesses {
  import opened Models
  import opened Sorting
  import opened Allocator
  import opened Tables
  import opened Processes
  import opened Protocol
  import opened Invariants
  import opened Safety
  import opened FailFast
  import opened Streaks
  import opened Reasons

  const GPU := GPUObservation("gpu", 0, "GPU", None, None, [], None)
  const SLOT := GpuSlot("gpu", 0)
  const SPEC := JobSpec(["train"], "/home", map[], 1, "train", Some("g"), None)
  const BOOT := Booted(0, 0)

  // ---- One idle device, and nobody waiting or running ----

  ghost predicate Ready(m: Memory) {
    !m.paused && !m.stopping && m.pending.None? && m.held == map[] && m.observations == [GPU]
  }

  ghost predicate Calm(s: System) {
    && s.memory.Some? && Ready(s.memory.value)
    && forall id :: id in s.store.jobs ==> !s.store.jobs[id].state.Holding() && !s.store.jobs[id].state.Waiting?
  }

  function Begun(count: int, time: int): History {
    Then(Then(Start(BOOT), Restart(count, time)), Scan(Devices([GPU])))
  }

  lemma BegunIsCalm(count: int, time: int)
    ensures Legal(Begun(count, time)) && Calm(State(Begun(count, time)))
    ensures State(Begun(count, time))
         == System(EMPTY, BOOT, Some(Memory(count, time, map[], false, false, [GPU], None, None)), map[])
  {
    var h := Then(Start(BOOT), Restart(count, time));
    assert HeldGroups(EMPTY) == map[];
    assert State(Start(BOOT)) == System(EMPTY, BOOT, None, map[]);
    assert State(h) == System(EMPTY, BOOT, Some(Memory(count, time, map[], false, false, [], None, None)), map[]);
  }

  lemma OneIsFree(s: System)
    requires s.memory.Some? && s.memory.value.observations == [GPU] && "gpu" !in ReservedUuids(s.store)
    ensures FreeNow(s) == [GPU]
  {
    FreeGpusAreDistinct([GPU], ReservedUuids(s.store));
    FilterMembers(ByIndex([GPU]), (o: GPUObservation) => Allocatable(o, ReservedUuids(s.store)));
    SortPermutes([GPU], (o: GPUObservation) => o.index);
    assert GPU in FreeNow(s);
    assert FreeNow(s)[0] in FreeNow(s);
  }

  /** The row of a job that is being launched on the device. */
  ghost predicate LaunchRow(job: Job, id: nat, start: nat) {
    && job.id == id && job.spec == SPEC && job.state.Starting? && job.startTime == Some(start)
    && job.endTime.None? && job.process.None? && job.gpus == [SLOT] && job.retryOf.None?
  }

  lemma SubmissionIsLegal(h: History)
    requires Legal(h) && Calm(State(h))
    ensures Legal(Then(h, Create(SPEC, None)))
    ensures var s := State(h); var id := s.store.nextId;
            && id !in s.store.jobs
            && State(Then(h, Create(SPEC, None))) == s.(store := Ticked(s.store).(
                 jobs := s.store.jobs[id := NewRow(s.store, SPEC, None)], nextId := id + 1))
  {
    assert IdsOk(State(h).store) by { InvariantHolds(h); }
    CreationAddsOneRow(State(h).store, SPEC, None);
  }

  /** One job waits, and none holds the device. */
  lemma ReservationIsLegal(h: History, id: nat)
    requires Legal(h) && Idle(State(h)) && id in State(h).store.jobs
    requires var m := State(h).memory.value; !m.paused && !m.stopping && m.held == map[] && m.observations == [GPU]
    requires forall j :: j in State(h).store.jobs ==>
               !State(h).store.jobs[j].state.Holding() && (State(h).store.jobs[j].state.Waiting? <==> j == id)
    requires State(h).store.jobs[id].spec == SPEC
    ensures Legal(Then(h, Event.Reserve(id, [SLOT])))
  {
    var s := State(h);
    assert "gpu" !in ReservedUuids(s.store);
    OneIsFree(s);
    assert ObservedSlots(FreeNow(s))[..1] == [SLOT];
    assert MayReserve(s, id, [SLOT]);
  }

  /** A job is submitted and given the device. */
  ghost function Launched(h: History): History
    requires Legal(h)
  {
    Then(Then(h, Create(SPEC, None)), Event.Reserve(State(h).store.nextId, [SLOT]))
  }

  /** What a job's row in the tables changed to, and nothing else but the clock. */
  ghost predicate OneMoreRow(s: System, s': System, id: nat) {
    && s' == s.(store := s'.store)
    && id == s.store.nextId && id !in s.store.jobs && id in s'.store.jobs
    && s'.store.jobs == s.store.jobs[id := s'.store.jobs[id]]
    && s'.store.nextId == id + 1 && s'.store.holds == s.store.holds
  }

  /** The tables after both transactions. */
  lemma LaunchedRow(s: Store)
    requires s.nextId !in s.jobs
    ensures var id := s.nextId;
            var s1 := Ticked(s).(jobs := s.jobs[id := NewRow(s, SPEC, None)], nextId := id + 1);
            var s2 := Tables.Reserve(s1, id, [SLOT]).0;
            && id in s2.jobs && s2.jobs == s.jobs[id := s2.jobs[id]] && LaunchRow(s2.jobs[id], id, s.clock + 1)
            && s2.nextId == id + 1 && s2.clock == s.clock + 2 && s2.holds == s.holds
  {
    assert [] + [SLOT] == [SLOT];
  }

  lemma LaunchIsLegal(h: History)
    requires Legal(h) && Calm(State(h))
    ensures Legal(Launched(h))
    ensures var s, s' := State(h), State(Launched(h)); var id := s.store.nextId;
            && OneMoreRow(s, s', id)
            && LaunchRow(s'.store.jobs[id], id, s.store.clock + 1)
            && s'.store.clock == s.store.clock + 2
  {
    SubmissionIsLegal(h);
    var id := State(h).store.nextId;
    var h1 := Then(h, Create(SPEC, None));
    ReservationIsLegal(h1, id);
    assert State(Launched(h)) == State(h1).(store := Tables.Reserve(State(h1).store, id, [SLOT]).0);
    LaunchedRow(State(h).store);
  }

  /** The launch fails: the program cannot be started. */
  ghost function Tried(h: History): History
    requires Legal(h)
  {
    Then(Launched(h), Event.Finish(State(h).store.nextId, JobState.Failed, None, Some(LaunchError), true))
  }

  /** The child is started as process 100 and exits with code 0 before its start time is read. */
  ghost function Succeeded(h: History): History
    requires Legal(h)
  {
    var id := State(h).store.nextId;
    Then(Then(Then(Launched(h), Event.Spawn(id, 100, 5)), Environment([Exit(100)])),
         Event.Finish(id, JobState.Done, Some(0), None, true))
  }

  /** The row of a job that ended right after its start. */
  ghost predicate EndRow(job: Job, id: nat, to: JobState, end: nat) {
    && job.id == id && job.spec == SPEC && job.state == to && job.endTime == Some(end)
    && job.startTime.Some? && job.startTime.value + 1 == end
    && (to.Done? ==> job.exitCode == Some(0))
  }

  /** One job more was started and ended, and nothing else changed in the tables but the clock. */
  ghost predicate OneMoreEnd(s: Store, s': Store, to: JobState) {
    && s.nextId !in s.jobs && s.nextId in s'.jobs && s'.jobs == s.jobs[s.nextId := s'.jobs[s.nextId]]
    && s'.nextId == s.nextId + 1 && s'.holds == s.holds && s'.clock == s.clock + 3
    && EndRow(s'.jobs[s.nextId], s.nextId, to, s.clock + 2)
  }

  lemma TryIsLegal(h: History)
    requires Legal(h) && Calm(State(h))
    ensures Legal(Tried(h))
    ensures OneMoreEnd(State(h).store, State(Tried(h)).store, JobState.Failed)
    ensures State(Tried(h)).memory == Some(State(h).memory.value.(pending := Some(State(h).store.nextId)))
    ensures State(Tried(h)).world == State(h).world && State(Tried(h)).spawned == State(h).spawned
  {
    LaunchIsLegal(h);
    assert MayFinish(State(Launched(h)), State(h).store.nextId, JobState.Failed, None);
  }

  /** After the launch the child of the last job is started and exits. */
  lemma ChildExits(h: History, id: nat)
    requires Legal(h) && Idle(State(h)) && FreshPid(State(h).world, 100, 5)
    requires id in State(h).store.jobs && State(h).store.jobs[id].state.Starting? && id !in State(h).spawned
    ensures Legal(Then(Then(h, Event.Spawn(id, 100, 5)), Environment([Exit(100)])))
    ensures var s := State(Then(Then(h, Event.Spawn(id, 100, 5)), Environment([Exit(100)])));
            s.store == State(h).store && s.memory == State(h).memory && id in s.spawned
  {
    var w := AfterSpawn(State(h).world, 100, 5);
    FollowOne(w, [Exit(100)]);
  }

  lemma SuccessIsLegal(h: History)
    requires Legal(h) && Calm(State(h)) && FreshPid(State(h).world, 100, 5)
    requires State(h).store.nextId !in State(h).spawned
    ensures Legal(Succeeded(h))
    ensures OneMoreEnd(State(h).store, State(Succeeded(h)).store, JobState.Done)
    ensures State(Succeeded(h)).memory == State(h).memory && State(h).store.nextId in State(Succeeded(h)).spawned
  {
    var id := State(h).store.nextId;
    LaunchIsLegal(h);
    ChildExits(Launched(h), id);
    var exited := Then(Then(Launched(h), Event.Spawn(id, 100, 5)), Environment([Exit(100)]));
    assert MayFinish(State(exited), id, JobState.Done, Some(0));
  }

  /** The failure is checked, and there is no streak. */
  lemma CheckPasses(h: History)
    requires Legal(h) && Enabled(State(h), Note)
    requires var s := State(h); var id := s.memory.value.pending.value;
             id in s.store.jobs ==> s.store.jobs[id].spec == SPEC
    requires forall last ::
               !Streak(State(h).store, "g", last, State(h).memory.value.failFastCount,
                       State(h).memory.value.failFastTime)
    ensures Legal(Then(h, Note))
    ensures State(Then(h, Note)) == State(h).(memory := Some(State(h).memory.value.(pending := None)))
  {
    var s := State(h);
    var m := s.memory.value;
    assert IdsOk(s.store) by { InvariantHolds(h); }
    EndTimesDiffer(h);
    if ShouldHold(s.store, m, m.pending.value) {
      SeenIsStreak(s.store, m, m.pending.value, "g");
    }
  }

  // ---- A deletion that puts a group on hold ----

  /** The table holds exactly these jobs of the group, which ended in the order of their ids. */
  ghost predicate Ended(s: Store, tos: map<nat, JobState>) {
    && s.holds == map[] && s.jobs.Keys == tos.Keys
    && (forall id :: id in tos ==>
          && 1 <= id < s.nextId && (tos[id].Done? || tos[id].Failed?)
          && s.jobs[id].endTime.Some? && s.jobs[id].endTime.value < s.clock
          && EndRow(s.jobs[id], id, tos[id], s.jobs[id].endTime.value))
    && (forall a, b :: a in tos && b in tos && a < b ==> EndedBefore(s, a, b))
  }

  lemma EndedGrows(s: Store, s': Store, tos: map<nat, JobState>, to: JobState)
    requires Ended(s, tos) && (to.Done? || to.Failed?) && s.nextId >= 1 && OneMoreEnd(s, s', to)
    ensures Ended(s', tos[s.nextId := to])
  {
  }

  lemma TryEnds(h: History, tos: map<nat, JobState>)
    requires Legal(h) && Calm(State(h)) && Ended(State(h).store, tos)
    ensures Legal(Tried(h)) && State(Tried(h)).store.nextId == State(h).store.nextId + 1
    ensures Ended(State(Tried(h)).store, tos[State(h).store.nextId := JobState.Failed])
    ensures State(Tried(h)).memory == Some(State(h).memory.value.(pending := Some(State(h).store.nextId)))
    ensures State(Tried(h)).world == State(h).world && State(Tried(h)).spawned == State(h).spawned
  {
    TryIsLegal(h);
    assert IdsOk(State(h).store) by { InvariantHolds(h); }
    EndedGrows(State(h).store, State(Tried(h)).store, tos, JobState.Failed);
  }

  lemma SuccessEnds(h: History, tos: map<nat, JobState>)
    requires Legal(h) && Calm(State(h)) && Ended(State(h).store, tos)
    requires FreshPid(State(h).world, 100, 5) && State(h).store.nextId !in State(h).spawned
    ensures Legal(Succeeded(h)) && State(Succeeded(h)).store.nextId == State(h).store.nextId + 1
    ensures Ended(State(Succeeded(h)).store, tos[State(h).store.nextId := JobState.Done])
    ensures State(Succeeded(h)).memory == State(h).memory
  {
    SuccessIsLegal(h);
    assert IdsOk(State(h).store) by { InvariantHolds(h); }
    EndedGrows(State(h).store, State(Succeeded(h)).store, tos, JobState.Done);
  }

  lemma StreakIsAfter(s: Store, tos: map<nat, JobState>, success: nat, last: seq<nat>, limit: int)
    requires Ended(s, tos) && Streak(s, "g", last, 3, limit)
    requires success == 0 || (success in tos && tos[success].Done?)
    ensures forall x :: x in last ==> success < x < s.nextId
  {
    assert success != 0 ==> IsOutcome(s.jobs[success], "g", None) && success !in last;
  }

  lemma ThreeReachFar(last: seq<nat>, low: nat)
    requires Distinct(last) && |last| == 3 && forall x :: x in last ==> low < x
    ensures exists x :: x in last && x >= low + 3
  {
    assert last[0] in last && last[1] in last && last[2] in last;
  }

  /** Fewer than three jobs ended after the last success. */
  lemma NoStreak(s: Store, tos: map<nat, JobState>, success: nat, limit: int)
    requires Ended(s, tos) && s.nextId <= success + 3
    requires success == 0 || (success in tos && tos[success].Done?)
    ensures forall last :: !Streak(s, "g", last, 3, limit)
  {
    forall last ensures !Streak(s, "g", last, 3, limit) {
      if Streak(s, "g", last, 3, limit) {
        StreakIsAfter(s, tos, success, last, limit);
        ThreeReachFar(last, success);
        assert false;
      }
    }
  }

  lemma EndedIsCalm(s: System, tos: map<nat, JobState>)
    requires s.memory.Some? && Ready(s.memory.value) && Ended(s.store, tos)
    ensures Calm(s)
  {
  }

  /** A failure that makes no streak, and its check. */
  ghost function Failed(h: History): History
    requires Legal(h)
  {
    Then(Tried(h), Note)
  }

  lemma FailureIsCalm(h: History, tos: map<nat, JobState>, success: nat)
    requires Legal(h) && Calm(State(h)) && Ended(State(h).store, tos) && State(h).memory.value.failFastCount == 3
    requires State(h).store.nextId <= success + 2
    requires success == 0 || (success in tos && tos[success].Done?)
    ensures Legal(Failed(h)) && Calm(State(Failed(h)))
    ensures State(Failed(h)).store.nextId == State(h).store.nextId + 1
    ensures Ended(State(Failed(h)).store, tos[State(h).store.nextId := JobState.Failed])
    ensures State(Failed(h)).memory == State(h).memory
    ensures State(Failed(h)).world == State(h).world && State(Failed(h)).spawned == State(h).spawned
  {
    var tried := Tried(h);
    var more := tos[State(h).store.nextId := JobState.Failed];
    TryEnds(h, tos);
    NoStreak(State(tried).store, more, success, State(tried).memory.value.failFastTime);
    CheckPasses(tried);
    EndedIsCalm(State(Failed(h)), more);
  }

  lemma DeletedEnded(s: Store, tos: map<nat, JobState>, id: nat)
    requires Ended(s, tos) && id in tos
    ensures DeleteRows(s.jobs, [id]).Some?
    ensures DeleteJobs(s, [id]).0 == s.(jobs := s.jobs - {id}) && Ended(DeleteJobs(s, [id]).0, tos - {id})
  {
    DeletionIsAllOrNothing(s.jobs, [id]);
    assert (set x | x in [id]) == {id};
  }

  lemma CompleteStreak(s: Store, a: nat, b: nat, c: nat, limit: int)
    requires a < b < c && Ended(s, map[a := JobState.Failed, b := JobState.Failed, c := JobState.Failed]) && limit > 1
    ensures Streak(s, "g", [a, b, c], 3, limit)
  {
  }

  /** A success was deleted. */
  lemma DeletionIsCalm(h: History, tos: map<nat, JobState>, id: nat)
    requires Legal(h) && Calm(State(h)) && Ended(State(h).store, tos) && id in tos
    ensures Legal(Then(h, Delete([id])))
    ensures var s := State(Then(h, Delete([id])));
            && Calm(s) && Ended(s.store, tos - {id})
            && s.store.nextId == State(h).store.nextId && s.memory == State(h).memory
  {
    DeletedEnded(State(h).store, tos, id);
  }

  /** One more failure puts the group on hold. */
  ghost predicate NextFailureHolds(h: History)
    requires Legal(h)
  {
    && Legal(Failed(h)) && State(Tried(h)).memory.Some? && State(Failed(h)).memory.Some?
    && "g" !in State(Tried(h)).memory.value.held && "g" in State(Failed(h)).memory.value.held
  }

  lemma ThirdMakesAStreak(h: History, a: nat, b: nat)
    requires Legal(h) && Calm(State(h)) && a < b && State(h).memory.value.failFastTime > 1
    requires Ended(State(h).store, map[a := JobState.Failed, b := JobState.Failed])
    ensures Legal(Tried(h))
    ensures State(Tried(h)).memory == Some(State(h).memory.value.(pending := Some(State(h).store.nextId)))
    ensures State(h).store.nextId in State(Tried(h)).store.jobs
    ensures State(Tried(h)).store.jobs[State(h).store.nextId].InGroup("g")
    ensures exists last :: Streak(State(Tried(h)).store, "g", last, 3, State(h).memory.value.failFastTime)
  {
    var id := State(h).store.nextId;
    var tos := map[a := JobState.Failed, b := JobState.Failed];
    TryEnds(h, tos);
    assert b in tos && b < id;
    assert tos[id := JobState.Failed] == map[a := JobState.Failed, b := JobState.Failed, id := JobState.Failed];
    CompleteStreak(State(Tried(h)).store, a, b, id, State(h).memory.value.failFastTime);
  }

  /** One more failure after two in a row. */
  lemma ThirdFailureHolds(h: History, a: nat, b: nat)
    requires Legal(h) && Calm(State(h)) && a < b && State(h).memory.value.failFastCount == 3
    requires State(h).memory.value.failFastTime > 1
    requires Ended(State(h).store, map[a := JobState.Failed, b := JobState.Failed])
    ensures NextFailureHolds(h)
  {
    ThirdMakesAStreak(h, a, b);
    HeldExactlyForAStreak(Tried(h), "g");
  }

  /** So far in a run with threshold three. */
  ghost predicate Stage(h: History, tos: map<nat, JobState>, next: nat) {
    && Legal(h) && Calm(State(h)) && Ended(State(h).store, tos) && State(h).store.nextId == next
    && State(h).memory.value.failFastCount == 3 && State(h).memory.value.failFastTime == 5
  }

  lemma FailureStage(h: History, tos: map<nat, JobState>, next: nat, success: nat)
    requires Stage(h, tos, next) && next <= success + 2
    requires success == 0 || (success in tos && tos[success].Done?)
    ensures Legal(h) && Stage(Failed(h), tos[next := JobState.Failed], next + 1)
    ensures State(Failed(h)).world == State(h).world && State(Failed(h)).spawned == State(h).spawned
  {
    FailureIsCalm(h, tos, success);
  }

  lemma SuccessStage(h: History, tos: map<nat, JobState>, next: nat)
    requires Stage(h, tos, next) && State(h).world == BOOT && State(h).spawned == map[]
    ensures Legal(h) && Stage(Succeeded(h), tos[next := JobState.Done], next + 1)
  {
    assert MembersOf(BOOT, 100) == {};
    SuccessEnds(h, tos);
    EndedIsCalm(State(Succeeded(h)), tos[next := JobState.Done]);
  }

  const STORY := map[1 := JobState.Failed, 2 := JobState.Done, 3 := JobState.Failed]

  /** A failure, a success, and a failure. */
  lemma FailureSuccessFailure() returns (h: History)
    ensures Stage(h, STORY, 4)
  {
    BegunIsCalm(3, 5);
    h := Begun(3, 5);
    FailureStage(h, map[], 1, 0);
    h := Failed(h);
    SuccessStage(h, map[][1 := JobState.Failed], 2);
    h := Succeeded(h);
    FailureStage(h, map[][1 := JobState.Failed][2 := JobState.Done], 3, 2);
    h := Failed(h);
    assert map[][1 := JobState.Failed][2 := JobState.Done][3 := JobState.Failed] == STORY;
  }

  /** With threshold three, after a failure, a success and a failure, one more failure does not put
      the group on hold. If the success is deleted before, it does. */
  lemma DeletionPutsAGroupOnHold() returns (h: History)
    ensures Legal(h) && Legal(Failed(h)) && State(Failed(h)).memory.Some?
    ensures "g" !in State(Failed(h)).memory.value.held
    ensures Legal(Then(h, Delete([2]))) && Legal(Failed(Then(h, Delete([2]))))
    ensures State(Failed(Then(h, Delete([2])))).memory.Some?
    ensures "g" in State(Failed(Then(h, Delete([2])))).memory.value.held
  {
    h := FailureSuccessFailure();
    StoryGoesOn(h);
    StoryWithoutTheSuccess(h);
  }

  lemma StoryGoesOn(h: History)
    requires Stage(h, STORY, 4)
    ensures Legal(h) && Legal(Failed(h)) && State(Failed(h)).memory.Some?
    ensures "g" !in State(Failed(h)).memory.value.held
  {
    FailureStage(h, STORY, 4, 2);
  }

  lemma SuccessIsDeleted(h: History)
    requires Stage(h, STORY, 4)
    ensures Legal(h) && Legal(Then(h, Delete([2])))
    ensures Stage(Then(h, Delete([2])), map[1 := JobState.Failed, 3 := JobState.Failed], 4)
  {
    DeletionIsCalm(h, STORY, 2);
    assert STORY - {2} == map[1 := JobState.Failed, 3 := JobState.Failed];
  }

  lemma StoryWithoutTheSuccess(h: History)
    requires Stage(h, STORY, 4)
    ensures Legal(Then(h, Delete([2]))) && NextFailureHolds(Then(h, Delete([2])))
  {
    SuccessIsDeleted(h);
    ThirdFailureHolds(Then(h, Delete([2])), 1, 3);
  }

  // ---- GPUs given back while processes live ----

  /** The first job is being launched, and its process is number 100. */
  ghost function Spawned(): History {
    BegunIsCalm(0, 0);
    Then(Launched(Begun(0, 0)), Event.Spawn(1, 100, 5))
  }

  lemma SpawnIsLegal()
    ensures Legal(Spawned())
    ensures var s := State(Spawned());
            && s.world == AfterSpawn(BOOT, 100, 5) && s.spawned == map[1 := Ident(100, 5, 1, 0)]
            && s.store.jobs.Keys == {1} && s.store.nextId == 2
            && s.store.jobs[1].state.Starting? && s.store.jobs[1].process.None? && s.store.jobs[1].gpus == [SLOT]
            && s.memory.Some? && Ready(s.memory.value)
  {
    BegunIsCalm(0, 0);
    LaunchIsLegal(Begun(0, 0));
    assert MembersOf(BOOT, 100) == {};
  }

  /** A running job whose device a restarted daemon does not see is ORPHANED and lives. Deleting it
      leaves its device to others, and the process group lives on. */
  lemma AnOrphanLosesItsGpuAlive() returns (h: History)
    ensures Legal(h) && 1 in State(h).store.jobs && State(h).store.jobs[1].state.Orphaned?
    ensures 1 in State(h).spawned && GroupAlive(State(h).world, State(h).spawned[1].lifetime)
    ensures "gpu" in State(h).store.jobs[1].Uuids()
    ensures Legal(Then(h, Delete([1]))) && "gpu" !in Assignments(State(Then(h, Delete([1]))).store)
    ensures GroupAlive(State(Then(h, Delete([1]))).world, State(h).spawned[1].lifetime)
  {
    FirstRuns();
    var running := Then(Spawned(), Event.MarkRunning(1, Some(0)));
    DaemonMissesDevices(running);
    var restarted := Then(Then(Then(running, Crash), Restart(0, 0)), Scan(Devices([])));
    assert SLOT in [SLOT];
    assert "gpu" in State(restarted).store.jobs[1].Uuids();
    h := Then(restarted, Event.Finish(1, JobState.Orphaned, None, Some(AllocationMissing), false));
    assert State(h).world == AfterSpawn(BOOT, 100, 5);
    assert State(h).world.procs[100].lifetime == 1;
    DeletingAnOrphanFreesItsGpus(h, 1);
  }

  lemma FirstRuns()
    ensures Legal(Then(Spawned(), Event.MarkRunning(1, Some(0))))
    ensures var s := State(Then(Spawned(), Event.MarkRunning(1, Some(0))));
            && s.memory.Some? && s.world == AfterSpawn(BOOT, 100, 5) && s.spawned == map[1 := Ident(100, 5, 1, 0)]
            && 1 in s.store.jobs && s.store.jobs[1].state.Running? && s.store.jobs[1].gpus == [SLOT]
            && s.store.jobs[1].process.Some?
  {
    SpawnIsLegal();
  }

  /** The daemon dies, and the next one sees no device. */
  lemma DaemonMissesDevices(h: History)
    requires Legal(h) && State(h).memory.Some?
    ensures Legal(Then(Then(Then(h, Crash), Restart(0, 0)), Scan(Devices([]))))
    ensures var s := State(Then(Then(Then(h, Crash), Restart(0, 0)), Scan(Devices([]))));
            && s.memory == Some(Memory(0, 0, HeldGroups(State(h).store), false, false, [], None, None))
            && s == State(h).(memory := s.memory)
  {
    var crashed := Then(h, Crash);
    assert State(crashed) == State(h).(memory := None);
    var memory := Memory(0, 0, HeldGroups(State(h).store), false, false, [], None, None);
    assert State(Then(crashed, Restart(0, 0))) == State(h).(memory := Some(memory));
  }

  /** A launcher that forks a worker and exits with code 0 before its start time is read is DONE,
      and its device goes to the next job while the worker lives: two living process groups share
      the device. */
  lemma AWorkerOutlivesItsLaunch() returns (h: History)
    ensures Legal(h) && 1 in State(h).store.jobs && 2 in State(h).store.jobs
    ensures State(h).store.jobs[1].state.Done? && State(h).store.jobs[1].exitCode == Some(0)
    ensures 1 in State(h).spawned && GroupAlive(State(h).world, State(h).spawned[1].lifetime)
    ensures 2 in State(h).spawned && GroupAlive(State(h).world, State(h).spawned[2].lifetime)
    ensures State(h).spawned[1].lifetime != State(h).spawned[2].lifetime
    ensures State(h).store.jobs[1].gpus == State(h).store.jobs[2].gpus == [SLOT]
  {
    var done := WorkerLeft();
    LaunchIsLegal(done);
    var launched := Launched(done);
    assert MembersOf(State(done).world, 200) == {};
    h := Then(launched, Event.Spawn(2, 200, 7));
    assert State(h).world.procs[101].lifetime == 1 && State(h).world.procs[200].lifetime == 2;
  }

  const LEFT := World(map[1 := Proc(1, 0, true, 0), 101 := Proc(100, 6, false, 1)], {(1, 0), (100, 5), (101, 6)}, 2, 0)

  lemma LauncherLeaves()
    ensures PathPossible(AfterSpawn(BOOT, 100, 5), [Fork(100, 101, 6), Exit(100)])
    ensures Follow(AfterSpawn(BOOT, 100, 5), [Fork(100, 101, 6), Exit(100)]) == LEFT
  {
    var w := AfterSpawn(BOOT, 100, 5);
    assert MembersOf(w, 101) == {};
    var path := [Fork(100, 101, 6), Exit(100)];
    var forked := After(w, Fork(100, 101, 6));
    FollowOne(forked, path[1..]);
    FollowOne(w, path);
    assert After(forked, Exit(100)).procs == LEFT.procs;
  }

  lemma OnlyJobEnds(h: History)
    requires Legal(h) && State(h).memory.Some? && Ready(State(h).memory.value)
    requires State(h).store.jobs.Keys == {1} && State(h).store.jobs[1].state.Starting?
    requires State(h).store.jobs[1].process.None? && 1 in State(h).spawned
    ensures Legal(Then(h, Event.Finish(1, JobState.Done, Some(0), None, true)))
    ensures var s := State(Then(h, Event.Finish(1, JobState.Done, Some(0), None, true)));
            && Calm(s) && s == State(h).(store := s.store)
            && s.store.nextId == State(h).store.nextId && s.store.jobs.Keys == {1}
            && s.store.jobs[1].state.Done? && s.store.jobs[1].exitCode == Some(0)
            && s.store.jobs[1].gpus == State(h).store.jobs[1].gpus
  {
  }

  lemma WorkerLeft() returns (h: History)
    ensures Legal(h) && Calm(State(h)) && State(h).store.nextId == 2 && State(h).store.jobs.Keys == {1}
    ensures var job := State(h).store.jobs[1]; job.state.Done? && job.exitCode == Some(0) && job.gpus == [SLOT]
    ensures State(h).spawned == map[1 := Ident(100, 5, 1, 0)] && State(h).world == LEFT
  {
    SpawnIsLegal();
    LauncherLeaves();
    var left := Then(Spawned(), Environment([Fork(100, 101, 6), Exit(100)]));
    assert State(left) == State(Spawned()).(world := LEFT);
    OnlyJobEnds(left);
    h := Then(left, Event.Finish(1, JobState.Done, Some(0), None, true));
  }

  // ---- Two reasons for one hold ----

  lemma HeldByCheck(h: History, group: string)
    requires Legal(h) && Enabled(State(h), Note) && group !in State(h).memory.value.held
    requires group in State(Then(h, Note)).memory.value.held
    ensures Idle(State(Then(h, Note))) && group in HeldGroups(State(Then(h, Note)).store)
    ensures HeldGroups(State(Then(h, Note)).store)[group] == FAIL_FAST_REASON
  {
    HoldsAreMirrored(h, group);
    HoldsAreMirrored(Then(h, Note), group);
    ReasonsAgreeExactly(Then(h, Note), group);
  }

  lemma HeldOnceMore(h: History, group: string, text: string)
    requires Legal(h) && Idle(State(h)) && group in HeldGroups(State(h).store)
    ensures Legal(Then(h, Hold(group, true, Some(text))))
    ensures var s := State(Then(h, Hold(group, true, Some(text))));
            && s.memory.Some? && group in s.memory.value.held && s.memory.value.held[group] == text
            && HeldGroups(s.store) == HeldGroups(State(h).store)
  {
    HoldsAreReadBack(State(h).store, group, true, Some(text));
  }

  /** A group that failed its way into a hold is held once more by hand: the daemon shows the second
      reason, and the table keeps the first. */
  lemma ReasonsMayDiffer() returns (h: History)
    ensures Legal(h) && State(h).memory.Some?
    ensures "g" in State(h).memory.value.held && "g" in HeldGroups(State(h).store)
    ensures State(h).memory.value.held["g"] == MANUAL_HOLD_REASON
    ensures HeldGroups(State(h).store)["g"] == FAIL_FAST_REASON
  {
    var story := FailureSuccessFailure();
    StoryWithoutTheSuccess(story);
    var tried := Tried(Then(story, Delete([2])));
    HeldByCheck(tried, "g");
    HeldOnceMore(Then(tried, Note), "g", MANUAL_HOLD_REASON);
    h := Then(Then(tried, Note), Hold("g", true, Some(MANUAL_HOLD_REASON)));
  }
}
