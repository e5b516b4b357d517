/** Theorems over every legal history: any daemon lifetimes, crashes, restarts and reboots. */
module Safety {
  import opened Models
  import opened Sorting
  import opened Allocator
  import opened Tables
  import opened Processes
  import opened Protocol
  import opened Invariants

  // ---- The allocation invariant ----

  /** The map names, for exactly the reserved UUIDs, the one job that reserves each. */
  ghost predicate OwnersOf(owners: map<string, nat>, jobs: map<nat, Job>) {
    forall u, id :: (u in owners && owners[u] == id) <==> (id in jobs && jobs[id].Holds(u))
  }

  /** `assignments` is a true function: it maps a UUID to the one job that reserves it. */
  lemma AssignmentsAreAFunction(h: History)
    requires Legal(h)
    ensures OwnersOf(Assignments(State(h).store), State(h).store.jobs)
    ensures forall u, id ::
              (u in Assignments(State(h).store) && Assignments(State(h).store)[u] == id) <==>
                && id in State(h).store.jobs
                && var state := State(h).store.jobs[id].state;
                && (state.Starting? || state.Running? || state.Cancelling? || state.Orphaned?)
                && exists g :: g in State(h).store.jobs[id].gpus && g.uuid == u
  {
    InvariantHolds(h);
    var s := State(h).store;
    forall u, id | id in s.jobs && s.jobs[id].Holds(u) ensures u in Assignments(s) && Assignments(s)[u] == id {
      var owner := Assignments(s)[u];
      assert s.jobs[owner].Holds(u);
    }
  }

  /** No device is in the rows of two jobs that are STARTING, RUNNING, CANCELLING or ORPHANED. */
  lemma NoGpuIsHeldTwice(h: History, a: nat, b: nat, g: GpuSlot, g': GpuSlot)
    requires Legal(h) && a in State(h).store.jobs && b in State(h).store.jobs && a != b
    requires forall id :: id in {a, b} ==>
               var state := State(h).store.jobs[id].state;
               state.Starting? || state.Running? || state.Cancelling? || state.Orphaned?
    requires g in State(h).store.jobs[a].gpus && g' in State(h).store.jobs[b].gpus
    ensures g.uuid != g'.uuid
  {
    InvariantHolds(h);
    assert a in {a, b} && b in {a, b};
    assert g.uuid in State(h).store.jobs[a].Uuids() && g'.uuid in State(h).store.jobs[b].Uuids();
  }

  /** A GPU assigned to a managed job is never allocatable, whatever NVML reports. */
  lemma AssignedIsNeverAllocatable(h: History, observations: seq<GPUObservation>, managed: Membership, count: nat,
                                   id: nat, uuid: string)
    requires Legal(h) && id in State(h).store.jobs && State(h).store.jobs[id].Holds(uuid)
    ensures var s := State(h).store;
            var statuses := Classified(observations, Assignments(s), s.jobs, managed);
            forall c :: c in SelectGpus(statuses, count) ==> c.uuid != uuid
  {
    assert uuid in Assignments(State(h).store) by { InvariantHolds(h); }
    SelectedAreUnassigned(observations, Assignments(State(h).store), State(h).store.jobs, managed, count);
  }

  lemma SelectedAreUnassigned(observations: seq<GPUObservation>, assignments: map<string, nat>, jobs: map<nat, Job>,
                              managed: Membership, count: nat)
    ensures forall c :: c in SelectGpus(Classified(observations, assignments, jobs, managed), count) ==>
            c.uuid !in assignments
  {
    var statuses := Classified(observations, assignments, jobs, managed);
    if count > 0 {
      SelectionIsLowest(statuses, count);
    }
    forall c | c in SelectGpus(statuses, count) ensures c.uuid !in assignments {
      var k :| 0 <= k < |statuses| && statuses[k] == c;
      FreeMeansAllocatable(ByIndex(observations)[k], assignments, jobs, managed);
    }
  }

  /** The job has a row for the device and is STARTING, RUNNING, CANCELLING or ORPHANED. */
  ghost predicate HeldIn(s: Store, uuid: string, id: nat) {
    && id in s.jobs && (exists g :: g in s.jobs[id].gpus && g.uuid == uuid)
    && var state := s.jobs[id].state;
    && (state.Starting? || state.Running? || state.Cancelling? || state.Orphaned?)
  }

  /** The device could be read. */
  predicate Readable(o: GPUObservation) {
    o.error.None? || o.error.value == ""
  }

  predicate Foreign(o: GPUObservation, job: Job, managed: Membership) {
    exists k :: 0 <= k < |o.processes| && !managed(o.uuid, o.processes[k].pid, job)
  }

  /** What each state of a device means on reachable tables, by who holds it and what runs on it. */
  lemma StatesMean(h: History, o: GPUObservation, managed: Membership)
    requires Legal(h)
    ensures var s := State(h).store; var state := StatusOf(o, Assignments(s), s.jobs, managed).state;
            && (state.Free? <==> Readable(o) && o.processes == [] && !exists id :: HeldIn(s, o.uuid, id))
            && (state.External? <==> Readable(o) && o.processes != [] && !exists id :: HeldIn(s, o.uuid, id))
            && (state.Reserved? <==> Readable(o) && exists id :: HeldIn(s, o.uuid, id) && s.jobs[id].state.Starting?
                                                                 && !Foreign(o, s.jobs[id], managed))
            && (state.Running? <==>
                  Readable(o) && exists id :: && HeldIn(s, o.uuid, id) && !Foreign(o, s.jobs[id], managed)
                                              && (s.jobs[id].state.Running? || s.jobs[id].state.Cancelling?))
            && (state.Unknown? <==>
                  !Readable(o) || exists id :: && HeldIn(s, o.uuid, id)
                                             && (s.jobs[id].state.Orphaned? || Foreign(o, s.jobs[id], managed)))
  {
    AssignmentsAreAFunction(h);
    var s := State(h).store;
    if o.uuid in Assignments(s) {
      var owner := Assignments(s)[o.uuid];
      assert s.jobs[owner].Holds(o.uuid) && HeldIn(s, o.uuid, owner);
      assert forall id :: HeldIn(s, o.uuid, id) ==> id == owner;
      assert ConflictPids(o.uuid, o.processes, s.jobs[owner], managed) == [] <==> !Foreign(o, s.jobs[owner], managed);
    } else {
      assert forall id :: !HeldIn(s, o.uuid, id);
    }
  }

  function RequestedBelow(jobs: map<nat, Job>, bound: nat): int {
    if bound == 0 then 0
    else RequestedBelow(jobs, bound - 1)
         + if bound - 1 in jobs && jobs[bound - 1].state.Holding() then jobs[bound - 1].spec.requestedGpus else 0
  }

  function Names(slots: seq<GpuSlot>): set<string> {
    set g | g in slots :: g.uuid
  }

  lemma NamesAfterFirst(slots: seq<GpuSlot>)
    requires slots != []
    ensures Names(slots) == Names(slots[1..]) + {slots[0].uuid}
    ensures DistinctSlots(slots) ==> slots[0].uuid !in Names(slots[1..])
  {
    assert slots == [slots[0]] + slots[1..];
    if slots[0].uuid in Names(slots[1..]) {
      var k :| 0 <= k < |slots[1..]| && slots[1..][k].uuid == slots[0].uuid;
      assert slots[k + 1].uuid == slots[0].uuid;
    }
  }

  lemma {:induction false} DistinctSlotsCount(slots: seq<GpuSlot>)
    requires DistinctSlots(slots)
    ensures |Names(slots)| == |slots|
  {
    if slots != [] {
      DistinctSlotsCount(slots[1..]);
      NamesAfterFirst(slots);
    }
  }

  ghost predicate RowsCount(jobs: map<nat, Job>) {
    forall id :: id in jobs && jobs[id].state.Holding() ==> |jobs[id].Uuids()| == jobs[id].spec.requestedGpus
  }

  lemma {:induction false} CountBelow(jobs: map<nat, Job>, bound: nat)
    requires Exclusive(jobs) && RowsCount(jobs)
    ensures |AssignmentsBelow(jobs, bound)| == RequestedBelow(jobs, bound)
  {
    if bound != 0 {
      var id := bound - 1;
      CountBelow(jobs, id);
      if id in jobs && jobs[id].state.Holding() {
        var prior := AssignmentsBelow(jobs, id);
        var mine := jobs[id].Uuids();
        forall u | u in prior ensures u !in mine {
          assert jobs[prior[u]].Uuids() !! mine;
        }
        DisjointUpdateCount(prior, mine, id);
      }
    }
  }

  lemma DisjointUpdateCount(m: map<string, nat>, keys: set<string>, value: nat)
    requires m.Keys !! keys
    ensures |m + map u | u in keys :: value| == |m| + |keys|
  {
    var more := map u | u in keys :: value;
    assert more.Keys == keys;
    assert (m + more).Keys == m.Keys + keys;
  }

  /** Conservation: the reserved GPUs are exactly as many as the jobs holding them asked for,
      and a waiting job has no GPU rows. */
  lemma ReservationsAreConserved(h: History)
    requires Legal(h)
    ensures |Assignments(State(h).store)| == RequestedBelow(State(h).store.jobs, State(h).store.nextId)
    ensures forall id :: id in State(h).store.jobs && State(h).store.jobs[id].state.Waiting? ==>
            State(h).store.jobs[id].gpus == []
  {
    InvariantHolds(h);
    var s := State(h).store;
    forall id | id in s.jobs
      ensures s.jobs[id].state.Waiting? ==> s.jobs[id].gpus == []
      ensures s.jobs[id].state.Holding() ==> |s.jobs[id].Uuids()| == s.jobs[id].spec.requestedGpus
    {
      assert RowOk(s.jobs[id], s.clock);
      DistinctSlotsCount(s.jobs[id].gpus);
      assert s.jobs[id].Uuids() == Names(s.jobs[id].gpus);
    }
    CountBelow(s.jobs, s.nextId);
  }

  // ---- Processes and reservations ----

  /** A job that reached RUNNING and whose process group still has a member. */
  ghost predicate LivesOn(s: System, id: nat) {
    && id in s.store.jobs && s.store.jobs[id].process.Some?
    && id in s.spawned && GroupAlive(s.world, s.spawned[id].lifetime)
  }

  /** Two living process groups of managed jobs never share a GPU. */
  lemma LivingJobsNeverShareAGpu(h: History, a: nat, b: nat)
    requires Legal(h) && a != b && LivesOn(State(h), a) && LivesOn(State(h), b)
    ensures State(h).store.jobs[a].Uuids() !! State(h).store.jobs[b].Uuids()
  {
    InvariantHolds(h);
    assert RecordOk(State(h), a) && RecordOk(State(h), b);
  }

  /** The event writes or deletes this row. */
  predicate Touches(e: Event, id: nat) {
    match e
    case Reserve(j, _) => j == id
    case MarkRunning(j, _) => j == id
    case Finish(j, _, _, _, _) => j == id
    case BeginCancel(j) => j == id
    case Delete(ids) => id in ids
    case _ => false
  }

  lemma CreationAddsOneRow(s: Store, spec: JobSpec, retryOf: Option<nat>)
    requires IdsOk(s) && MayCreate(s, spec, retryOf)
    ensures s.nextId !in s.jobs && CreateJob(s, spec, retryOf).0.jobs == s.jobs[s.nextId := NewRow(s, spec, retryOf)]
  {
  }

  lemma NoteLeavesJobs(s: System)
    requires Enabled(s, Note)
    ensures Next(s, Note).store.jobs == s.store.jobs
  {
  }

  lemma UntouchedRow(s: System, e: Event, id: nat)
    requires IdsOk(s.store) && Enabled(s, e) && id in s.store.jobs && !Touches(e, id)
    ensures id in Next(s, e).store.jobs && Next(s, e).store.jobs[id] == s.store.jobs[id]
  {
    match e
    case Create(spec, retryOf) => CreationAddsOneRow(s.store, spec, retryOf);
    case Delete(ids) => DeletionIsAllOrNothing(s.store.jobs, ids);
    case Note => NoteLeavesJobs(s);
    case _ =>
  }

  lemma IdsGrow(s: System, e: Event)
    requires Enabled(s, e)
    ensures Next(s, e).store.nextId >= s.store.nextId
  {
  }

  /** The edges of the lifecycle graph: a launch, a cancellation, or an end. */
  predicate Edge(from: JobState, to: JobState) {
    match from
    case Waiting => to.Starting? || to.Cancelled?
    case Starting => to.Running? || to.Done? || to.Failed?
    case Running => to.Cancelling? || to.Done? || to.Failed? || to.Orphaned?
    case Cancelling => to.Cancelled? || to.Failed? || to.Orphaned?
    case _ => false
  }

  /** Along the edges from one state to another, in any number of steps. */
  predicate LaterState(from: JobState, to: JobState) {
    match from
    case Waiting => true
    case Starting => !to.Waiting?
    case Running => !to.Waiting? && !to.Starting?
    case Cancelling => to.Cancelling? || to.Cancelled? || to.Failed? || to.Orphaned?
    case _ => to == from
  }

  ghost predicate RowMoves(row: Job, row': Job) {
    && SameIdentity(row', row)
    && (!row.state.Waiting? ==> row'.gpus == row.gpus)
    && (row.process.Some? ==> row'.process == row.process)
    && Edge(row.state, row'.state)
  }

  lemma TouchedRow(s: System, e: Event, id: nat)
    requires RowsOk(s.store) && Enabled(s, e) && id in s.store.jobs && Touches(e, id)
    ensures if e.Delete? then s.store.jobs[id].state.Terminal() && id !in Next(s, e).store.jobs
            else id in Next(s, e).store.jobs && RowMoves(s.store.jobs[id], Next(s, e).store.jobs[id])
  {
    match e
    case Delete(ids) => DeletedRow(s.store, ids, id);
    case Reserve(j, slots) => ReservedRowMoves(s, j, slots);
    case MarkRunning(j, boot) => RunningRowMoves(s, j, boot);
    case _ =>
  }

  lemma DeletedRow(s: Store, ids: seq<nat>, id: nat)
    requires DeleteRows(s.jobs, ids).Some? && id in ids
    ensures id in s.jobs && s.jobs[id].state.Terminal() && id !in DeleteJobs(s, ids).0.jobs
  {
    DeletionIsAllOrNothing(s.jobs, ids);
  }

  lemma ReservedRowMoves(s: System, id: nat, slots: seq<GpuSlot>)
    requires RowsOk(s.store) && MayReserve(s, id, slots)
    ensures RowMoves(s.store.jobs[id], Tables.Reserve(s.store, id, slots).0.jobs[id])
  {
    assert RowOk(s.store.jobs[id], s.store.clock);
  }

  lemma RunningRowMoves(s: System, id: nat, boot: Option<nat>)
    requires RowsOk(s.store) && Enabled(s, Event.MarkRunning(id, boot))
    ensures RowMoves(s.store.jobs[id], Next(s, Event.MarkRunning(id, boot)).store.jobs[id])
  {
    assert RowOk(s.store.jobs[id], s.store.clock);
  }

  /** Ids are never reused: a job that was deleted does not come back. */
  lemma NewRowsAreNew(s: System, e: Event, id: nat)
    requires IdsOk(s.store) && Enabled(s, e) && id !in s.store.jobs && id < s.store.nextId
    ensures id !in Next(s, e).store.jobs && id < Next(s, e).store.nextId
  {
    IdsGrow(s, e);
    match e
    case Create(spec, retryOf) => CreationAddsOneRow(s.store, spec, retryOf);
    case Delete(ids) => DeletionIsAllOrNothing(s.store.jobs, ids);
    case Note => NoteLeavesJobs(s);
    case _ =>
  }

  /** Every event takes a job along one edge of the graph or leaves its row as it is; only a row at
      the end of the graph is deleted, and a new row waits. */
  lemma StepIsAnEdge(h: History, id: nat)
    requires Legal(h) && h.Then?
    ensures var jobs, jobs' := State(h.past).store.jobs, State(h).store.jobs;
            && (id in jobs && id in jobs' ==> jobs'[id] == jobs[id] || Edge(jobs[id].state, jobs'[id].state))
            && (id in jobs && id !in jobs' ==> jobs[id].state.Terminal())
            && (id !in jobs && id in jobs' ==> jobs'[id].state.Waiting?)
  {
    assert IdsOk(State(h.past).store) && RowsOk(State(h.past).store) by { InvariantHolds(h.past); }
    if id in State(h.past).store.jobs {
      if Touches(h.event, id) {
        TouchedRow(State(h.past), h.event, id);
      } else {
        UntouchedRow(State(h.past), h.event, id);
      }
    } else if id in State(h).store.jobs {
      RowIsNew(State(h.past), h.event, id);
    }
  }

  /** What a job's row may be at any later time, across crashes and restarts: its state lies further
      along the graph, finished rows never change, and neither identity nor reserved GPUs nor
      process record ever change. */
  ghost predicate LaterRow(row: Job, s: Store, id: nat) {
    && id < s.nextId
    && (id in s.jobs ==>
          && SameIdentity(s.jobs[id], row)
          && LaterState(row.state, s.jobs[id].state)
          && (row.state.Terminal() ==> s.jobs[id] == row)
          && (!row.state.Waiting? ==> s.jobs[id].gpus == row.gpus)
          && (row.process.Some? ==> s.jobs[id].process == row.process))
  }

  lemma LaterRowStep(row: Job, s: System, e: Event, id: nat)
    requires Inv(s) && Enabled(s, e) && LaterRow(row, s.store, id)
    ensures LaterRow(row, Next(s, e).store, id)
  {
    IdsGrow(s, e);
    if id !in s.store.jobs {
      NewRowsAreNew(s, e, id);
    } else if Touches(e, id) {
      TouchedRow(s, e, id);
    } else {
      UntouchedRow(s, e, id);
    }
  }

  lemma {:induction false} LifecycleIsKept(base: History, h: History, id: nat)
    requires Legal(h) && Extends(base, h) && Legal(base) && id in State(base).store.jobs
    ensures LaterRow(State(base).store.jobs[id], State(h).store, id)
  {
    InvariantHolds(base);
    if h != base {
      LifecycleIsKept(base, h.past, id);
      InvariantHolds(h.past);
      LaterRowStep(State(base).store.jobs[id], State(h.past), h.event, id);
    }
  }

  lemma SpawnedStep(s: System, e: Event, id: nat)
    requires Enabled(s, e) && id in s.spawned
    ensures id in Next(s, e).spawned && Next(s, e).spawned[id] == s.spawned[id]
  {
  }

  lemma {:induction false} SpawnedOnce(base: History, h: History, id: nat)
    requires Legal(h) && Extends(base, h) && Legal(base) && id in State(base).spawned
    ensures id in State(h).spawned && State(h).spawned[id] == State(base).spawned[id]
  {
    if h != base {
      SpawnedOnce(base, h.past, id);
      SpawnedStep(State(h.past), h.event, id);
    }
  }

  /** A job that reached RUNNING keeps every one of its GPUs reserved for as long as a process of
      its group lives, through the monitor, reaping, recovery, cancellation and any number of
      restarts; only deleting its (then ORPHANED) row ends that. */
  lemma KeptWhileTheGroupLives(base: History, h: History, id: nat)
    requires Legal(h) && Extends(base, h) && Legal(base)
    requires id in State(base).store.jobs && State(base).store.jobs[id].process.Some?
    requires id in State(h).spawned && GroupAlive(State(h).world, State(h).spawned[id].lifetime)
    ensures id in State(h).store.jobs ==>
              && State(h).store.jobs[id].gpus == State(base).store.jobs[id].gpus
              && forall u :: u in State(base).store.jobs[id].Uuids() ==>
                   u in Assignments(State(h).store) && Assignments(State(h).store)[u] == id
    ensures id in State(h).store.jobs && State(h).store.jobs[id].state.Terminal() ==>
              State(h).store.jobs[id].state.Orphaned?
  {
    InvariantHolds(base);
    InvariantHolds(h);
    LifecycleIsKept(base, h, id);
    AssignmentsAreAFunction(h);
    assert RowOk(State(base).store.jobs[id], State(base).store.clock);
    if id in State(h).store.jobs {
      assert RecordOk(State(h), id);
      assert State(h).store.jobs[id].state.Holding();
      forall u | u in State(base).store.jobs[id].Uuids()
        ensures u in Assignments(State(h).store) && Assignments(State(h).store)[u] == id {
        assert State(h).store.jobs[id].Holds(u);
      }
    }
  }

  /** The job's process group is gone, or it never had one on record. */
  ghost predicate Gone(s: System, id: nat) {
    id in s.store.jobs && s.store.jobs[id].process.Some? ==>
      id in s.spawned && !GroupAlive(s.world, s.spawned[id].lifetime)
  }

  lemma DeadStep(s: System, e: Event, lifetime: nat)
    requires WorldOk(s.world) && Enabled(s, e) && lifetime < s.world.nextLifetime && !GroupAlive(s.world, lifetime)
    ensures lifetime < Next(s, e).world.nextLifetime && !GroupAlive(Next(s, e).world, lifetime)
  {
    var i := Ident(0, 0, lifetime, 0);
    match e
    case Environment(path) => PathKeeps(s.world, path, i);
    case Spawn(id, pid, start) => SpawnKeeps(s.world, pid, start, i);
    case Reboot => RebootKeeps(s.world, i);
    case _ => assert Next(s, e).world == s.world;
  }

  lemma {:induction false} DeadForEver(base: History, h: History, lifetime: nat)
    requires Legal(h) && Extends(base, h) && Legal(base)
    requires lifetime < State(base).world.nextLifetime && !GroupAlive(State(base).world, lifetime)
    ensures lifetime < State(h).world.nextLifetime && !GroupAlive(State(h).world, lifetime)
  {
    if h != base {
      DeadForEver(base, h.past, lifetime);
      InvariantHolds(h.past);
      DeadStep(State(h.past), h.event, lifetime);
    }
  }

  /** What a poll without the lock saw is still true when the lock is taken, whatever happened in
      between: a group seen gone stays gone. */
  lemma GoneStaysGone(base: History, h: History, id: nat)
    requires Legal(h) && Extends(base, h) && Legal(base) && Gone(State(base), id) && id < State(base).store.nextId
    requires id in State(base).store.jobs ==> State(base).store.jobs[id].process.Some?
    ensures Gone(State(h), id)
  {
    if id in State(base).store.jobs {
      InvariantHolds(base);
      LifecycleIsKept(base, h, id);
      SpawnedOnce(base, h, id);
      DeadForEver(base, h, State(base).spawned[id].lifetime);
    } else {
      DeletedStaysDeleted(base, h, id);
    }
  }

  lemma {:induction false} DeletedStaysDeleted(base: History, h: History, id: nat)
    requires Legal(h) && Extends(base, h) && Legal(base)
    requires id !in State(base).store.jobs && id < State(base).store.nextId
    ensures id !in State(h).store.jobs && id < State(h).store.nextId
  {
    if h != base {
      DeletedStaysDeleted(base, h.past, id);
      assert IdsOk(State(h.past).store) by { InvariantHolds(h.past); }
      NewRowsAreNew(State(h.past), h.event, id);
    }
  }

  // ---- How a job becomes DONE or ORPHANED ----

  /** DONE is for a job whose child was started and exited with code 0, and whose group is gone if it
      had reached RUNNING; ORPHANED for one that had reached RUNNING and lacks a device. */
  ghost predicate Earned(s: System, id: nat, to: JobState, exitCode: Option<int>)
    requires id in s.store.jobs
  {
    && (to.Done? ==> id in s.spawned && exitCode == Some(0) && Gone(s, id))
    && (to.Orphaned? ==> s.memory.Some? && s.store.jobs[id].process.Some?
                         && (|| s.store.jobs[id].gpus == []
                             || exists g :: g in s.store.jobs[id].gpus && Missed(s, g.uuid)))
  }

  /** The daemon's observations do not list the device, be it with an error or without. */
  ghost predicate Missed(s: System, uuid: string)
    requires s.memory.Some?
  {
    forall o :: o in s.memory.value.observations ==> o.uuid != uuid
  }

  lemma LackMeansMissed(s: System, id: nat)
    requires s.memory.Some? && id in s.store.jobs
    ensures LacksDevice(s, id)
       <==> s.store.jobs[id].gpus == [] || exists g :: g in s.store.jobs[id].gpus && Missed(s, g.uuid)
  {
    var known := SeenUuids(s.memory.value.observations);
    forall u ensures u !in known <==> Missed(s, u) {
    }
    if LacksDevice(s, id) && s.store.jobs[id].gpus != [] {
      var u :| u in s.store.jobs[id].Uuids() && u !in known;
      var g :| g in s.store.jobs[id].gpus && g.uuid == u;
      assert Missed(s, g.uuid);
    }
  }

  lemma EndIsEarned(s: System, id: nat, to: JobState, exitCode: Option<int>)
    requires RowsOk(s.store) && MayFinish(s, id, to, exitCode)
    ensures Earned(s, id, to, exitCode)
  {
    if to.Orphaned? {
      LackMeansMissed(s, id);
    }
    assert RowOk(s.store.jobs[id], s.store.clock);
  }

  lemma OtherwiseActive(s: System, e: Event, id: nat)
    requires Enabled(s, e) && id in s.store.jobs && Touches(e, id) && !e.Finish? && !e.Delete?
    ensures id in Next(s, e).store.jobs && Next(s, e).store.jobs[id].state.Active()
  {
  }

  lemma EarnedStep(s: System, e: Event, id: nat)
    requires IdsOk(s.store) && RowsOk(s.store) && Enabled(s, e) && id in s.store.jobs && id in Next(s, e).store.jobs
    requires !s.store.jobs[id].state.Terminal()
    ensures Earned(s, id, Next(s, e).store.jobs[id].state, Next(s, e).store.jobs[id].exitCode)
  {
    if !Touches(e, id) {
      UntouchedRow(s, e, id);
    } else if e.Finish? {
      EndIsEarned(s, id, e.to, e.exitCode);
    } else if e.Delete? {
      DeletedRow(s.store, e.ids, id);
    } else {
      OtherwiseActive(s, e, id);
    }
  }

  /** No job becomes DONE or ORPHANED otherwise. */
  lemma EndsAreEarned(h: History, id: nat)
    requires Legal(h) && h.Then? && id in State(h.past).store.jobs && id in State(h).store.jobs
    requires !State(h.past).store.jobs[id].state.Terminal()
    ensures Earned(State(h.past), id, State(h).store.jobs[id].state, State(h).store.jobs[id].exitCode)
  {
    assert IdsOk(State(h.past).store) && RowsOk(State(h.past).store) by { InvariantHolds(h.past); }
    EarnedStep(State(h.past), h.event, id);
  }

  /** Every DONE job was started and has exit code 0. */
  lemma {:induction false} DoneMeansExitZero(h: History, id: nat)
    requires Legal(h) && id in State(h).store.jobs && State(h).store.jobs[id].state.Done?
    ensures id in State(h).spawned && State(h).store.jobs[id].exitCode == Some(0)
  {
    if h.Then? {
      StepIsAnEdge(h, id);
      if State(h.past).store.jobs[id].state.Terminal() {
        DoneMeansExitZero(h.past, id);
        SpawnedStep(State(h.past), h.event, id);
      } else {
        EndsAreEarned(h, id);
        SpawnedStep(State(h.past), h.event, id);
      }
    }
  }

  // ---- What a transition leaves behind for good ----

  /** The process on record is the one the job was spawned with: its pid, its group and its start
      time, and its boot if that could be read. */
  lemma RecordIsTheSpawnedProcess(h: History, id: nat)
    requires Legal(h) && id in State(h).store.jobs && State(h).store.jobs[id].process.Some?
    ensures id in State(h).spawned
    ensures var record, spawned := State(h).store.jobs[id].process.value, State(h).spawned[id];
            && record.pid == record.pgid == spawned.pid && record.start == Some(spawned.start)
            && (record.boot.Some? ==> record.boot.value == spawned.boot)
  {
    InvariantHolds(h);
    assert RecordOk(State(h), id);
  }

  /** A cancellation cannot be taken back: the job is CANCELLING with all its GPUs, or it ended as
      CANCELLED or FAILED once its group was gone, or it became ORPHANED and keeps its GPUs. */
  lemma CancellationIsIrrevocable(base: History, h: History, id: nat)
    requires Legal(h) && Legal(base) && Enabled(State(base), BeginCancel(id)) && Extends(Then(base, BeginCancel(id)), h)
    requires id in State(h).store.jobs
    ensures var job := State(h).store.jobs[id];
            && job.gpus == State(base).store.jobs[id].gpus
            && (job.state.Cancelling? || job.state.Orphaned? || job.state.Cancelled? || job.state.Failed?)
            && (job.state.Cancelled? || job.state.Failed? ==> Gone(State(h), id))
  {
    LifecycleIsKept(Then(base, BeginCancel(id)), h, id);
    InvariantHolds(h);
    assert RecordOk(State(h), id);
  }

  /** An end is final: state, exit code, reason, end time and GPU rows stay until the row goes. */
  lemma EndIsFinal(base: History, h: History, id: nat, to: JobState, exitCode: Option<int>, reason: Option<Reason>,
                   watched: bool)
    requires Legal(h) && Legal(base) && Enabled(State(base), Event.Finish(id, to, exitCode, reason, watched))
    requires Extends(Then(base, Event.Finish(id, to, exitCode, reason, watched)), h)
    ensures id in State(h).store.jobs ==>
              var was, job := State(base).store.jobs[id], State(h).store.jobs[id];
              && job.state == to && job.exitCode == exitCode && job.reason == reason && job.gpus == was.gpus
              && job.endTime == Some(State(base).store.clock) && SameIdentity(job, was)
  {
    LifecycleIsKept(Then(base, Event.Finish(id, to, exitCode, reason, watched)), h, id);
  }

  // ---- Where the guarantee ends ----

  /** Once a job no longer holds its GPUs, nobody does. */
  lemma LeftBehindIsFree(s: Store, s': Store, id: nat)
    requires Exclusive(s.jobs) && id in s.jobs && s.jobs[id].state.Holding()
    requires forall j :: j in s'.jobs && j != id ==> j in s.jobs && s.jobs[j] == s'.jobs[j]
    requires id in s'.jobs ==> !s'.jobs[id].state.Holding()
    ensures forall u :: u in s.jobs[id].Uuids() ==> u !in Assignments(s')
  {
    forall u | u in Assignments(s') ensures u !in s.jobs[id].Uuids() {
      var owner := Assignments(s')[u];
      assert s'.jobs[owner].Holds(u);
      assert s.jobs[owner].Uuids() !! s.jobs[id].Uuids();
    }
  }

  /** Deleting an ORPHANED job frees its GPUs, even while its processes live: nobody reserves them
      any more. */
  lemma DeletingAnOrphanFreesItsGpus(h: History, id: nat)
    requires Legal(h) && Idle(State(h)) && id in State(h).store.jobs && State(h).store.jobs[id].state.Orphaned?
    ensures Legal(Then(h, Delete([id])))
    ensures forall u :: u in State(h).store.jobs[id].Uuids() ==> u !in Assignments(State(Then(h, Delete([id]))).store)
    ensures State(Then(h, Delete([id]))).world == State(h).world
  {
    InvariantHolds(h);
    DeletionIsAllOrNothing(State(h).store.jobs, [id]);
    LeftBehindIsFree(State(h).store, State(Then(h, Delete([id]))).store, id);
  }

  /** A launch whose process was never put on record may be ended as FAILED at any time, and as DONE
      exactly after its child exited with code 0, whatever other processes it started. */
  lemma UnrecordedLaunchMayEnd(h: History, id: nat, to: JobState, exitCode: Option<int>, reason: Option<Reason>)
    requires Legal(h) && Idle(State(h)) && id in State(h).store.jobs && State(h).store.jobs[id].state.Starting?
    ensures Legal(Then(h, Event.Finish(id, to, exitCode, reason, true))) <==>
              to.Failed? || (to.Done? && id in State(h).spawned && exitCode == Some(0))
  {
    assert State(h).store.jobs[id].process.None? by {
      InvariantHolds(h);
      assert RowOk(State(h).store.jobs[id], State(h).store.clock);
    }
  }

  /** Its GPUs are free then, with the machine as it was: a process it started may live. */
  lemma UnrecordedLaunchFreesItsGpus(h: History, id: nat, to: JobState, exitCode: Option<int>, reason: Option<Reason>)
    requires Legal(h) && Idle(State(h)) && id in State(h).store.jobs && State(h).store.jobs[id].state.Starting?
    requires to.Failed? || (to.Done? && id in State(h).spawned && exitCode == Some(0))
    ensures Legal(Then(h, Event.Finish(id, to, exitCode, reason, true)))
    ensures var s' := State(Then(h, Event.Finish(id, to, exitCode, reason, true)));
            && s'.world == State(h).world && s'.spawned == State(h).spawned
            && forall u :: u in State(h).store.jobs[id].Uuids() ==> u !in Assignments(s'.store)
  {
    UnrecordedLaunchMayEnd(h, id, to, exitCode, reason);
    assert Exclusive(State(h).store.jobs) by { InvariantHolds(h); }
    LeftBehindIsFree(State(h).store, Tables.Finish(State(h).store, id, to, exitCode, reason), id);
  }

  lemma StatusIsNotStale(s: Store, o: GPUObservation, managed: Membership)
    ensures !StatusOf(o, Assignments(s), s.jobs, managed).detail.StaleReservation?
  {
    assert o.uuid in Assignments(s) ==> Assignments(s)[o.uuid] in s.jobs;
  }

  /** No reservation is stale, on any tables: the assignments are read from the jobs themselves. */
  lemma NoReservationIsStale(s: Store, observations: seq<GPUObservation>, managed: Membership)
    ensures forall c :: c in Classified(observations, Assignments(s), s.jobs, managed) ==> !c.detail.StaleReservation?
  {
    NothingIsStale(s, ByIndex(observations), managed);
  }

  lemma NothingIsStale(s: Store, ordered: seq<GPUObservation>, managed: Membership)
    ensures forall c :: c in StatusesOf(ordered, Assignments(s), s.jobs, managed) ==> !c.detail.StaleReservation?
  {
    forall o {
      StatusIsNotStale(s, o, managed);
    }
  }

  /** A reservation gives the new names to the job and moves no other. */
  lemma OwnersAfterReservation(before: map<string, nat>, after: map<string, nat>, jobs: map<nat, Job>,
                               jobs': map<nat, Job>,
                               id: nat, names: set<string>)
    requires OwnersOf(before, jobs) && OwnersOf(after, jobs')
    requires id in jobs && id in jobs' && jobs' == jobs[id := jobs'[id]]
    requires !jobs[id].state.Holding() && jobs'[id].state.Holding() && jobs'[id].Uuids() == names
    ensures forall u :: u in after <==> u in before || u in names
    ensures forall u :: u in after ==> after[u] == if u in names then id else before[u]
    ensures forall u :: u in before ==> before[u] != id
  {
    forall u | u in before ensures u in after && before[u] != id {
      assert jobs[before[u]].Holds(u) && jobs'[before[u]].Holds(u);
    }
    forall u | u in names ensures u in after && after[u] == id {
      assert jobs'[id].Holds(u);
    }
    forall u | u in after && u !in names ensures u in before && after[u] == before[u] {
      assert jobs'[after[u]].Holds(u) && jobs[after[u]].Holds(u);
    }
  }

  lemma SlotNames(selected: seq<GPUStatus>, job: Job)
    requires job.gpus == SlotsOf(selected)
    ensures job.Uuids() == Uuids(selected)
  {
    forall u | u in Uuids(selected) ensures u in job.Uuids() {
      var c :| c in selected && c.uuid == u;
      var k :| 0 <= k < |selected| && selected[k] == c;
      assert SlotsOf(selected)[k] in job.gpus;
    }
    forall u | u in job.Uuids() ensures u in Uuids(selected) {
      var g :| g in job.gpus && g.uuid == u;
      var k :| 0 <= k < |selected| && SlotsOf(selected)[k] == g;
      assert selected[k] in selected;
    }
  }

  /** What a reservation does to the tables. */
  lemma ReservationFacts(h: History, id: nat, slots: seq<GpuSlot>)
    requires Legal(h) && MayReserve(State(h), id, slots)
    ensures var s' := Tables.Reserve(State(h).store, id, slots).0;
            && s'.jobs == State(h).store.jobs[id := s'.jobs[id]]
            && s'.jobs[id].gpus == slots && s'.jobs[id].state.Starting? && s'.jobs[id].id == id
            && id !in State(h).spawned && s'.jobs[id].spec == State(h).store.jobs[id].spec
            && State(h).store.jobs[id].spec.requestedGpus >= 1
            && DistinctUuids(State(h).memory.value.observations)
  {
    InvariantHolds(h);
    ChosenAreUnreserved(State(h), id, slots);
    ReservationKeepsStore(State(h).store, id, slots);
  }

  lemma OwnersOfReservation(h: History, id: nat, selected: seq<GPUStatus>)
    requires Legal(h) && MayReserve(State(h), id, SlotsOf(selected))
    ensures var before := Assignments(State(h).store);
            var after := Assignments(Tables.Reserve(State(h).store, id, SlotsOf(selected)).0);
            && (forall u :: u in after <==> u in before || u in Uuids(selected))
            && (forall u :: u in after ==> after[u] == if u in Uuids(selected) then id else before[u])
            && (forall u :: u in before ==> before[u] != id)
  {
    var store := State(h).store;
    var store' := Tables.Reserve(store, id, SlotsOf(selected)).0;
    var h' := Then(h, Event.Reserve(id, SlotsOf(selected)));
    assert OwnersOf(Assignments(store), store.jobs) by { AssignmentsAreAFunction(h); }
    AssignmentsAreAFunction(h');
    assert State(h').store == store';
    ReservationFacts(h, id, SlotsOf(selected));
    SlotNames(selected, store'.jobs[id]);
    OwnersAfterReservation(Assignments(store), Assignments(store'), store.jobs, store'.jobs, id, Uuids(selected));
  }

  /** Between reservation and launch the pass works with patched statuses: they are what
      classifying the new tables would give. */
  lemma PatchedStatusesAreRight(h: History, id: nat, selected: seq<GPUStatus>, count: nat, managed: Membership)
    requires Legal(h) && MayReserve(State(h), id, SlotsOf(selected))
    requires State(h).store.jobs[id].spec.requestedGpus == count
    requires selected == SelectGpus(Classified(State(h).memory.value.observations, Assignments(State(h).store),
                                               State(h).store.jobs, managed), count)
    ensures var s := State(h);
            var store' := Tables.Reserve(s.store, id, SlotsOf(selected)).0;
            var observations := s.memory.value.observations;
            Overlay(Classified(observations, Assignments(s.store), s.store.jobs, managed), Uuids(selected), id)
            == Classified(observations, Assignments(store'), store'.jobs, managed)
  {
    var s := State(h);
    var store' := Tables.Reserve(s.store, id, SlotsOf(selected)).0;
    ReservationFacts(h, id, SlotsOf(selected));
    OwnersOfReservation(h, id, selected);
    OverlayIsReclassification(s.memory.value.observations, Assignments(s.store), Assignments(store'),
                              s.store.jobs, store'.jobs, managed, count, store'.jobs[id]);
  }

  // ---- Who may start, and when ----

  /** Readable, idle, and held by no job. */
  ghost predicate Available(s: Store, o: GPUObservation) {
    Readable(o) && o.processes == [] && !exists id :: HeldIn(s, o.uuid, id)
  }

  ghost function AvailableUuids(s: System): set<string>
    requires s.memory.Some?
  {
    set o | o in s.memory.value.observations && Available(s.store, o) :: o.uuid
  }

  lemma AvailableIsAllocatable(h: History, o: GPUObservation)
    requires Legal(h)
    ensures Available(State(h).store, o) <==> Allocatable(o, ReservedUuids(State(h).store))
  {
    AssignmentsAreAFunction(h);
    var s := State(h).store;
    if o.uuid in Assignments(s) {
      assert HeldIn(s, o.uuid, Assignments(s)[o.uuid]);
    }
    forall id | HeldIn(s, o.uuid, id) ensures o.uuid in Assignments(s) {
      assert s.jobs[id].Holds(o.uuid);
    }
  }

  /** A job must wait exactly if its group is held, or if it asks for more devices than are readable,
      idle and held by no job. */
  lemma WhoMustWait(h: History, id: nat)
    requires Legal(h) && State(h).memory.Some? && id in State(h).store.jobs
    ensures var s := State(h); var job := s.store.jobs[id];
            MustWait(s, id) <==>
              || (job.spec.group.Some? && job.spec.group.value in s.memory.value.held)
              || job.spec.requestedGpus > |AvailableUuids(s)|
  {
    var s := State(h);
    assert DistinctUuids(s.memory.value.observations) by { InvariantHolds(h); }
    FreeGpusAreDistinct(s.memory.value.observations, ReservedUuids(s.store));
    var slots := ObservedSlots(FreeNow(s));
    DistinctSlotsCount(slots);
    forall u ensures u in Names(slots) <==> u in AvailableUuids(s) {
      if u in Names(slots) {
        var k :| 0 <= k < |slots| && slots[k].uuid == u;
        assert FreeNow(s)[k] in FreeNow(s);
        AvailableIsAllocatable(h, FreeNow(s)[k]);
      }
      if u in AvailableUuids(s) {
        var o :| o in s.memory.value.observations && Available(s.store, o) && o.uuid == u;
        AvailableIsAllocatable(h, o);
        var k :| 0 <= k < |FreeNow(s)| && FreeNow(s)[k] == o;
        assert slots[k] in slots;
      }
    }
    assert Names(slots) == AvailableUuids(s);
  }

  /** The requested number of distinct observed devices, each one readable, idle and unreserved, and
      none of a higher index than another such device that was left out. */
  ghost predicate LowestFree(slots: seq<GpuSlot>, wanted: int, observations: seq<GPUObservation>,
                             reserved: set<string>) {
    && |slots| == wanted && DistinctSlots(slots)
    && (forall g :: g in slots ==>
          exists o :: o in observations && o.uuid == g.uuid && o.index == g.index && Allocatable(o, reserved))
    && (forall g, o :: g in slots && o in observations && Allocatable(o, reserved) && o.uuid !in Names(slots) ==>
          g.index <= o.index)
  }

  lemma PrefixIsLowest(observations: seq<GPUObservation>, reserved: set<string>, wanted: nat)
    requires DistinctUuids(observations) && wanted <= |FreeGpus(observations, reserved)|
    ensures LowestFree(ObservedSlots(FreeGpus(observations, reserved))[..wanted], wanted, observations, reserved)
  {
    var free := FreeGpus(observations, reserved);
    var slots := ObservedSlots(free)[..wanted];
    var byIndex := (o: GPUObservation) => o.index;
    FreeGpusAreDistinct(observations, reserved);
    assert Sorted(free, byIndex) by {
      SortSorts(observations, byIndex);
      FilterSorted(ByIndex(observations), (o: GPUObservation) => Allocatable(o, reserved), byIndex);
    }
    forall g | g in slots
      ensures exists o :: o in observations && o.uuid == g.uuid && o.index == g.index && Allocatable(o, reserved)
    {
      var k :| 0 <= k < wanted && slots[k] == g;
      assert free[k] in free && free[k].uuid == g.uuid && free[k].index == g.index;
    }
    forall g, o | g in slots && o in observations && Allocatable(o, reserved) && o.uuid !in Names(slots)
      ensures g.index <= o.index
    {
      var k :| 0 <= k < wanted && slots[k] == g;
      assert o in free;
      var j :| 0 <= j < |free| && free[j] == o;
      assert ObservedSlots(free)[j].uuid == o.uuid;
      assert byIndex(free[k]) <= byIndex(free[j]);
    }
  }

  /** Whenever a job is reserved, the queue runs, the last scan succeeded, the group is not held in
      the table, every earlier waiting job must wait, and the devices are the requested number of
      FREE ones with the lowest indices. */
  lemma ReservationIsEntitled(h: History, id: nat, slots: seq<GpuSlot>)
    requires Legal(h) && Enabled(State(h), Event.Reserve(id, slots))
    ensures var s := State(h); var m := s.memory.value;
            && !m.paused && !m.stopping && m.snapshotError.None?
            && (s.store.jobs[id].spec.group.Some? ==>
                  var g := s.store.jobs[id].spec.group.value; !(g in s.store.holds && s.store.holds[g].held))
            && (forall w :: w in s.store.jobs && s.store.jobs[w].state.Waiting? && Before(s.store, w, id) ==>
                    MustWait(s, w))
            && LowestFree(slots, s.store.jobs[id].spec.requestedGpus, m.observations, ReservedUuids(s.store))
  {
    var s := State(h);
    var m := s.memory.value;
    assert MemoryOk(s) && s.store.jobs[id].spec.requestedGpus >= 1 by { InvariantHolds(h); }
    PrefixIsLowest(m.observations, ReservedUuids(s.store), s.store.jobs[id].spec.requestedGpus);
    FreeGpusAreDistinct(m.observations, ReservedUuids(s.store));
    assert FreeNow(s)[0] in FreeNow(s);
    if s.store.jobs[id].spec.group.Some? {
      var g := s.store.jobs[id].spec.group.value;
      assert g in HeldGroups(s.store) <==> g in s.store.holds && s.store.holds[g].held;
    }
  }

  /** The daemon's copy of the holds names exactly the groups held in the table. */
  lemma HoldsAreMirrored(h: History, group: string)
    requires Legal(h) && State(h).memory.Some?
    ensures group in State(h).memory.value.held <==> group in State(h).store.holds && State(h).store.holds[group].held
  {
    InvariantHolds(h);
    assert group in HeldGroups(State(h).store) <==> group in State(h).store.holds && State(h).store.holds[group].held;
  }

  /** No daemon runs, or its queue is paused, or it is stopping, or its last scan failed. */
  predicate Closed(s: System) {
    s.memory.Some? ==> s.memory.value.paused || s.memory.value.stopping || s.memory.value.snapshotError.Some?
  }

  ghost predicate ClosedSince(base: History, h: History)
    requires Legal(h)
  {
    h == base || (h.Then? && ClosedSince(base, h.past) && Closed(State(h.past)))
  }

  /** While the queue is closed no job starts: the set of active jobs only shrinks. */
  lemma {:induction false} ClosedQueueStartsNothing(base: History, h: History, id: nat)
    requires Legal(h) && Legal(base) && ClosedSince(base, h)
    requires id in State(h).store.jobs && State(h).store.jobs[id].state.Active()
    ensures id in State(base).store.jobs && State(base).store.jobs[id].state.Active()
  {
    if h != base {
      InvariantHolds(h.past);
      ActiveBefore(h, id);
      ClosedQueueStartsNothing(base, h.past, id);
    }
  }

  lemma ActiveBefore(h: History, id: nat)
    requires Legal(h) && h.Then? && Closed(State(h.past))
    requires id in State(h).store.jobs && State(h).store.jobs[id].state.Active()
    ensures id in State(h.past).store.jobs && State(h.past).store.jobs[id].state.Active()
  {
    InvariantHolds(h.past);
    var s, e := State(h.past), h.event;
    if e.Reserve? {
      ReservationIsEntitled(h.past, e.id, e.slots);
    }
    if id !in s.store.jobs {
      RowIsNew(s, e, id);
    } else if Touches(e, id) {
      TouchedRow(s, e, id);
    } else {
      UntouchedRow(s, e, id);
    }
  }

  lemma RowIsNew(s: System, e: Event, id: nat)
    requires IdsOk(s.store) && Enabled(s, e) && id !in s.store.jobs && id in Next(s, e).store.jobs
    ensures Next(s, e).store.jobs[id].state.Waiting?
  {
    match e
    case Create(spec, retryOf) => CreationAddsOneRow(s.store, spec, retryOf);
    case Delete(ids) => DeletionIsAllOrNothing(s.store.jobs, ids);
    case Note => NoteLeavesJobs(s);
    case _ =>
  }

  /** No event of the run after `base` releases the group. */
  ghost predicate NotReleased(base: History, h: History, group: string) {
    h == base || (h.Then? && NotReleased(base, h.past, group)
                  && !(h.event.Hold? && h.event.group == group && !h.event.held))
  }

  /** From a hold to its release the group stays held, in the table and in every daemon's memory,
      restarts included, and none of its jobs starts: not those that waited when the hold began, and
      not those submitted or retried since. */
  lemma {:induction false} HeldUntilReleased(base: History, h: History, group: string)
    requires Legal(h) && Extends(base, h) && Legal(base) && NotReleased(base, h, group)
    requires group in State(base).store.holds && State(base).store.holds[group].held
    ensures group in State(h).store.holds && State(h).store.holds[group].held
    ensures State(h).memory.Some? ==> group in State(h).memory.value.held
    ensures forall id :: id in State(h).store.jobs && State(h).store.jobs[id].InGroup(group) ==>
              || State(h).store.jobs[id].state.Waiting? || State(h).store.jobs[id].state.Cancelled?
              || (id in State(base).store.jobs && !State(base).store.jobs[id].state.Waiting?)
  {
    if h != base {
      HeldUntilReleased(base, h.past, group);
      InvariantHolds(h.past);
      HeldStep(State(h.past), h.event, group);
      forall id | && id in State(h).store.jobs && State(h).store.jobs[id].InGroup(group)
                  && !(id in State(base).store.jobs && !State(base).store.jobs[id].state.Waiting?)
        ensures State(h).store.jobs[id].state.Waiting? || State(h).store.jobs[id].state.Cancelled?
      {
        HeldJobStep(State(h.past), h.event, id, group);
      }
    }
    InvariantHolds(h);
    assert group in HeldGroups(State(h).store);
  }

  lemma HeldStep(s: System, e: Event, group: string)
    requires Enabled(s, e) && !(e.Hold? && e.group == group && !e.held)
    requires group in s.store.holds && s.store.holds[group].held
    ensures group in Next(s, e).store.holds && Next(s, e).store.holds[group].held
  {
    if !e.Hold? && !e.Note? {
      HoldsStay(s, e);
    }
  }

  lemma HoldsStay(s: System, e: Event)
    requires Enabled(s, e) && !e.Hold? && !e.Note?
    ensures Next(s, e).store.holds == s.store.holds
  {
  }

  lemma HeldJobStep(s: System, e: Event, id: nat, group: string)
    requires Inv(s) && Enabled(s, e) && (s.memory.Some? ==> group in s.memory.value.held)
    requires id in Next(s, e).store.jobs && Next(s, e).store.jobs[id].InGroup(group)
    requires id in s.store.jobs && s.store.jobs[id].InGroup(group) ==>
               s.store.jobs[id].state.Waiting? || s.store.jobs[id].state.Cancelled?
    ensures Next(s, e).store.jobs[id].state.Waiting? || Next(s, e).store.jobs[id].state.Cancelled?
  {
    if id !in s.store.jobs {
      RowIsNew(s, e, id);
    } else if Touches(e, id) {
      TouchedRow(s, e, id);
      assert !e.Reserve?;
    } else {
      UntouchedRow(s, e, id);
    }
  }

  /** A job that left the queue, by cancellation or otherwise, is never started again. */
  lemma NeverStartedTwice(base: History, h: History, id: nat, slots: seq<GpuSlot>)
    requires Legal(h) && Extends(base, h) && Legal(base)
    requires id in State(base).store.jobs && !State(base).store.jobs[id].state.Waiting?
    ensures !Enabled(State(h), Event.Reserve(id, slots))
  {
    InvariantHolds(base);
    LifecycleIsKept(base, h, id);
  }

  // ---- Keys and lineages, as the documentation states them ----

  /** The job a lineage began with. */
  function FirstAttempt(job: Job): nat {
    if job.retryOf.Some? then job.retryOf.value else job.id
  }

  lemma KeysAreUnique(h: History, a: nat, b: nat)
    requires Legal(h) && a in State(h).store.jobs && b in State(h).store.jobs
    requires State(h).store.jobs[a].spec.key.Some? && State(h).store.jobs[a].spec.key == State(h).store.jobs[b].spec.key
    requires a != b
    ensures var first, second := State(h).store.jobs[a].state, State(h).store.jobs[b].state;
            first.Failed? || first.Cancelled? || second.Failed? || second.Cancelled?
  {
    InvariantHolds(h);
  }

  /** In every lineage all attempts share what they run; all but the newest failed or were
      cancelled; and every recorded root is older than the retry and is no retry itself. */
  lemma LineagesAreSound(h: History, a: nat, b: nat)
    requires Legal(h) && a in State(h).store.jobs && b in State(h).store.jobs
    ensures var jobs := State(h).store.jobs;
            && (FirstAttempt(jobs[a]) == FirstAttempt(jobs[b]) ==>
                  && jobs[a].spec == jobs[b].spec
                  && (a < b ==> jobs[a].state.Failed? || jobs[a].state.Cancelled?))
            && (jobs[a].retryOf.Some? ==>
                  && jobs[a].retryOf.value < a
                  && (jobs[a].retryOf.value in jobs ==> jobs[jobs[a].retryOf.value].retryOf.None?))
  {
    InvariantHolds(h);
  }
}
