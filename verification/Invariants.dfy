/** What every legal history keeps. */
module Invariants {
  import opened Models
  import opened Allocator
  import opened Tables
  import opened Processes
  import opened Protocol

  // ---- Tables ----

  ghost predicate IdsOk(s: Store) {
    && s.nextId >= 1
    && forall id :: id in s.jobs ==> s.jobs[id].id == id && 1 <= id < s.nextId && s.jobs[id].spec.requestedGpus >= 1
  }

  ghost predicate RowOk(job: Job, clock: nat) {
    && (job.state.Waiting? ==> job.gpus == [] && job.startTime.None?)
    && (job.gpus == [] || |job.gpus| == job.spec.requestedGpus)
    && DistinctSlots(job.gpus)
    && (job.state.Holding() ==> job.gpus != [] && job.startTime.Some?)
    && (job.state.Waiting? || job.state.Starting? ==> job.process.None?)
    && (job.state.Running? || job.state.Cancelling? || job.state.Orphaned? ==> job.process.Some?)
    && (job.endTime.Some? <==> job.state.Terminal())
    && job.submitTime < clock
    && (job.startTime.Some? ==> job.startTime.value < clock)
    && (job.endTime.Some? ==> job.endTime.value < clock)
  }

  ghost predicate RowsOk(s: Store) {
    && (forall id :: id in s.jobs ==> RowOk(s.jobs[id], s.clock))
    && (forall g :: g in s.holds ==> s.holds[g].changedAt < s.clock)
  }

  /** No GPU is reserved for two jobs. */
  ghost predicate Exclusive(jobs: map<nat, Job>) {
    forall a, b :: a in jobs && b in jobs && a != b && jobs[a].state.Holding() && jobs[b].state.Holding() ==>
      jobs[a].Uuids() !! jobs[b].Uuids()
  }

  /** Of two jobs with one key, one has failed or been cancelled. */
  ghost predicate KeysOk(jobs: map<nat, Job>) {
    forall a, b ::
      a in jobs && b in jobs && a != b && jobs[a].spec.key.Some? && jobs[a].spec.key == jobs[b].spec.key ==>
      jobs[a].state.ReleasesKey() || jobs[b].state.ReleasesKey()
  }

  /** Roots are flat and older, attempts are copies, and only the newest may be anything but
      FAILED or CANCELLED. */
  ghost predicate LineageOk(jobs: map<nat, Job>) {
    && (forall a :: a in jobs && jobs[a].retryOf.Some? ==>
          && 1 <= jobs[a].retryOf.value < a
          && (jobs[a].retryOf.value in jobs ==> jobs[jobs[a].retryOf.value].retryOf.None?))
    && (forall a, b :: a in jobs && b in jobs && a < b && jobs[a].Root() == jobs[b].Root() ==>
          jobs[a].state.ReleasesKey() && jobs[a].spec == jobs[b].spec)
  }

  ghost predicate StoreOk(s: Store) {
    IdsOk(s) && RowsOk(s) && Exclusive(s.jobs) && KeysOk(s.jobs) && LineageOk(s.jobs)
  }

  ghost predicate SameIdentity(row: Job, before: Job) {
    && row.id == before.id && row.spec == before.spec
    && row.submitTime == before.submitTime && row.retryOf == before.retryOf
  }

  ghost predicate OneRowChanged(s: Store, s': Store, id: nat) {
    && id in s.jobs && id in s'.jobs && s'.jobs == s.jobs[id := s'.jobs[id]]
    && s'.nextId == s.nextId && s'.holds == s.holds && s'.clock >= s.clock
  }

  /** Every transaction on one row keeps the table invariants, if the row was not terminal and
      does not take GPUs that are reserved. */
  lemma RowChangeKeepsStore(s: Store, s': Store, id: nat)
    requires StoreOk(s) && OneRowChanged(s, s', id)
    requires SameIdentity(s'.jobs[id], s.jobs[id]) && RowOk(s'.jobs[id], s'.clock)
    requires !s.jobs[id].state.Terminal()
    requires s'.jobs[id].state.Holding() ==>
               if s.jobs[id].state.Holding() then s'.jobs[id].Uuids() == s.jobs[id].Uuids()
               else s'.jobs[id].Uuids() !! ReservedUuids(s)
    ensures StoreOk(s')
  {
    RowsSurvive(s, s', id);
    ExclusionSurvives(s, s', id);
    KeysSurvive(s.jobs, id, s'.jobs[id]);
    LineageSurvives(s.jobs, id, s'.jobs[id]);
  }

  lemma RowsSurvive(s: Store, s': Store, id: nat)
    requires RowsOk(s) && OneRowChanged(s, s', id) && RowOk(s'.jobs[id], s'.clock)
    ensures RowsOk(s')
  {
    forall a | a in s'.jobs ensures RowOk(s'.jobs[a], s'.clock) {
      if a != id { assert RowOk(s.jobs[a], s.clock); }
    }
  }

  lemma KeysSurvive(jobs: map<nat, Job>, id: nat, row: Job)
    requires KeysOk(jobs) && id in jobs && row.spec == jobs[id].spec && !jobs[id].state.ReleasesKey()
    ensures KeysOk(jobs[id := row])
  {
  }

  lemma LineageSurvives(jobs: map<nat, Job>, id: nat, row: Job)
    requires LineageOk(jobs) && id in jobs && SameIdentity(row, jobs[id]) && !jobs[id].state.ReleasesKey()
    ensures LineageOk(jobs[id := row])
  {
    var jobs' := jobs[id := row];
    forall a, b | a in jobs' && b in jobs' && a < b && jobs'[a].Root() == jobs'[b].Root()
      ensures jobs'[a].state.ReleasesKey() && jobs'[a].spec == jobs'[b].spec
    {
      assert jobs[a].Root() == jobs[b].Root();
    }
  }

  lemma ExclusionSurvives(s: Store, s': Store, id: nat)
    requires IdsOk(s) && Exclusive(s.jobs) && OneRowChanged(s, s', id)
    requires s'.jobs[id].state.Holding() ==>
               if s.jobs[id].state.Holding() then s'.jobs[id].Uuids() == s.jobs[id].Uuids()
               else s'.jobs[id].Uuids() !! ReservedUuids(s)
    ensures Exclusive(s'.jobs)
  {
    forall b, u | b in s.jobs && b != id && s.jobs[b].Holds(u) && s'.jobs[id].state.Holding()
      ensures u !in s'.jobs[id].Uuids()
    {
      if s.jobs[id].state.Holding() {
        assert s.jobs[id].Uuids() !! s.jobs[b].Uuids();
      } else {
        assert u in ReservedUuids(s);
      }
    }
    forall b | b in s.jobs && b != id && s.jobs[b].state.Holding() && s'.jobs[id].state.Holding()
      ensures s.jobs[b].Uuids() !! s'.jobs[id].Uuids()
    {
      forall u | u in s.jobs[b].Uuids() ensures u !in s'.jobs[id].Uuids() {
        assert s.jobs[b].Holds(u);
      }
    }
  }

  lemma CreateKeepsStore(s: Store, spec: JobSpec, retryOf: Option<nat>)
    requires StoreOk(s) && MayCreate(s, spec, retryOf)
    ensures StoreOk(CreateJob(s, spec, retryOf).0)
  {
    var row := NewRow(s, spec, retryOf);
    var jobs' := s.jobs[s.nextId := row];
    NewRowKeepsRows(s, row);
    NewRowKeepsExclusive(s.jobs, s.nextId, row);
    KeyWasFree(s, spec);
    NewRowKeepsKeys(s.jobs, s.nextId, row);
    NewRowKeepsLineage(s, row);
    assert CreateJob(s, spec, retryOf).0 == Ticked(s).(jobs := jobs', nextId := s.nextId + 1);
  }

  lemma NewRowKeepsRows(s: Store, row: Job)
    requires IdsOk(s) && RowsOk(s) && row.spec.requestedGpus >= 1 && row == NewRow(s, row.spec, row.retryOf)
    ensures var s' := Ticked(s).(jobs := s.jobs[s.nextId := row], nextId := s.nextId + 1);
            IdsOk(s') && RowsOk(s')
  {
    var s' := Ticked(s).(jobs := s.jobs[s.nextId := row], nextId := s.nextId + 1);
    assert RowOk(row, s'.clock);
    forall a | a in s.jobs ensures RowOk(s'.jobs[a], s'.clock) {
      assert RowOk(s.jobs[a], s.clock);
    }
  }

  lemma NewRowKeepsExclusive(jobs: map<nat, Job>, id: nat, row: Job)
    requires Exclusive(jobs) && id !in jobs && !row.state.Holding()
    ensures Exclusive(jobs[id := row])
  {
  }

  lemma NewRowKeepsKeys(jobs: map<nat, Job>, id: nat, row: Job)
    requires KeysOk(jobs) && id !in jobs
    requires forall a :: a in jobs && row.spec.key.Some? && jobs[a].spec.key == row.spec.key ==>
            jobs[a].state.ReleasesKey()
    ensures KeysOk(jobs[id := row])
  {
  }

  lemma NewRowKeepsLineage(s: Store, row: Job)
    requires IdsOk(s) && LineageOk(s.jobs) && row.id == s.nextId
    requires row.retryOf.Some? ==> MayRetry(s, row.spec, row.retryOf.value)
    ensures LineageOk(s.jobs[s.nextId := row])
  {
    if row.retryOf.Some? {
      var parent :| && parent in s.jobs && s.jobs[parent].state.ReleasesKey() && s.jobs[parent].spec == row.spec
                    && s.jobs[parent].Root() == row.retryOf.value && NewerAttempt(s, row.retryOf.value, parent).None?;
      NewestOfLineage(s, parent);
      AttemptJoins(s, row);
    } else {
      assert forall a :: a in s.jobs ==> s.jobs[a].Root() < s.nextId;
      AttemptJoins(s, row);
    }
  }

  /** A new row keeps the lineages if all attempts it joins are finished copies of it. */
  lemma AttemptJoins(s: Store, row: Job)
    requires IdsOk(s) && LineageOk(s.jobs) && row.id == s.nextId
    requires row.retryOf.Some? ==>
               && 1 <= row.retryOf.value < s.nextId
               && (row.retryOf.value in s.jobs ==> s.jobs[row.retryOf.value].retryOf.None?)
    requires forall a :: a in s.jobs && s.jobs[a].Root() == row.Root() ==>
               s.jobs[a].state.ReleasesKey() && s.jobs[a].spec == row.spec
    ensures LineageOk(s.jobs[s.nextId := row])
  {
    var jobs' := s.jobs[s.nextId := row];
    forall a, b | a in jobs' && b in jobs' && a < b && jobs'[a].Root() == jobs'[b].Root()
      ensures jobs'[a].state.ReleasesKey() && jobs'[a].spec == jobs'[b].spec
    {
      if b != s.nextId { assert s.jobs[a].Root() == s.jobs[b].Root(); }
    }
  }

  lemma KeyWasFree(s: Store, spec: JobSpec)
    requires IdsOk(s) && (spec.key.Some? ==> KeyHolder(s, spec.key.value).None?)
    ensures forall a :: a in s.jobs && spec.key.Some? && s.jobs[a].spec.key == spec.key ==>
            s.jobs[a].state.ReleasesKey()
  {
    if spec.key.Some? {
      var holders := Where(s, (job: Job) => job.spec.key == Some(spec.key.value) && !job.state.ReleasesKey());
      forall a | a in s.jobs && s.jobs[a].spec.key == spec.key ensures s.jobs[a].state.ReleasesKey() {
        assert a in holders <==> !s.jobs[a].state.ReleasesKey();
      }
    }
  }

  /** The lineage query answers "none" exactly for the newest attempt. */
  lemma NewerAttemptMeaning(s: Store, id: nat)
    requires IdsOk(s) && LineageOk(s.jobs) && id in s.jobs
    ensures NewerAttempt(s, s.jobs[id].Root(), id).Some? <==>
            exists b :: b in s.jobs && b > id && s.jobs[b].Root() == s.jobs[id].Root()
  {
    var root := s.jobs[id].Root();
    var later := Where(s, (job: Job) => (job.id == root || job.retryOf == Some(root)) && job.id > id);
    if later != [] {
      assert later[0] in later;
      assert s.jobs[later[0]].Root() == root;
    }
    forall b | b in s.jobs && b > id && s.jobs[b].Root() == root ensures later != [] {
      assert b in later;
    }
  }

  lemma NewestOfLineage(s: Store, parent: nat)
    requires IdsOk(s) && LineageOk(s.jobs) && parent in s.jobs && s.jobs[parent].state.ReleasesKey()
    requires NewerAttempt(s, s.jobs[parent].Root(), parent).None?
    ensures forall a :: a in s.jobs && s.jobs[a].Root() == s.jobs[parent].Root() ==>
              s.jobs[a].state.ReleasesKey() && s.jobs[a].spec == s.jobs[parent].spec
    ensures var root := s.jobs[parent].Root();
            1 <= root < s.nextId && (root in s.jobs ==> s.jobs[root].retryOf.None?)
  {
    NewerAttemptMeaning(s, parent);
    forall a | a in s.jobs && s.jobs[a].Root() == s.jobs[parent].Root()
      ensures s.jobs[a].state.ReleasesKey() && s.jobs[a].spec == s.jobs[parent].spec
    {
      assert a <= parent;
    }
  }

  lemma DeleteKeepsStore(s: Store, ids: seq<nat>)
    requires StoreOk(s) && DeleteRows(s.jobs, ids).Some?
    ensures StoreOk(DeleteJobs(s, ids).0)
    ensures DeleteJobs(s, ids).0.jobs == s.jobs - (set id | id in ids)
    ensures forall id :: id in ids ==> id in s.jobs && s.jobs[id].state.Terminal()
  {
    DeletionIsAllOrNothing(s.jobs, ids);
    var s' := DeleteJobs(s, ids).0;
    assert forall a :: a in s'.jobs ==> a in s.jobs && s'.jobs[a] == s.jobs[a];
  }

  // ---- The running system ----

  ghost predicate OneStarting(s: Store) {
    forall a, b :: a in s.jobs && b in s.jobs && s.jobs[a].state.Starting? && s.jobs[b].state.Starting? ==> a == b
  }

  /** Recorded processes are the spawned ones, and a job with a recorded process that gave its
      GPUs back has no process left in its group. */
  ghost predicate RecordOk(s: System, id: nat)
    requires id in s.store.jobs
  {
    var job := s.store.jobs[id];
    job.process.Some? ==>
      && id in s.spawned && Records(job.process.value, s.spawned[id])
      && (job.process.value.boot.Some? ==> job.process.value.boot.value == s.spawned[id].boot)
      && (!job.state.Holding() ==> !GroupAlive(s.world, s.spawned[id].lifetime))
  }

  ghost predicate ProcessesOk(s: System) {
    && WorldOk(s.world)
    && (forall id :: id in s.spawned ==> id < s.store.nextId && Known(s.world, s.spawned[id]))
    && (forall id :: id in s.store.jobs ==> RecordOk(s, id))
    && (forall id :: id in s.spawned && id in s.store.jobs ==> !s.store.jobs[id].state.Waiting?)
  }

  ghost predicate MemoryOk(s: System) {
    s.memory.Some? ==>
      && var m := s.memory.value;
      && m.held.Keys == HeldGroups(s.store).Keys
      && DistinctUuids(m.observations)
      && (m.snapshotError.Some? ==> forall k :: 0 <= k < |m.observations| ==> m.observations[k].Faulty())
      && (m.pending.Some? ==> m.pending.value in s.store.jobs && NoneStarting(s.store))
  }

  ghost predicate Inv(s: System) {
    StoreOk(s.store) && OneStarting(s.store) && ProcessesOk(s) && MemoryOk(s)
  }

  /** A change that leaves the machine alone keeps the process facts, if the changed row does. */
  lemma RowChangeKeepsProcesses(s: System, s': System, id: nat)
    requires ProcessesOk(s) && s'.world == s.world && s'.spawned == s.spawned
    requires OneRowChanged(s.store, s'.store, id) && RecordOk(s', id)
    requires id in s.spawned ==> !s'.store.jobs[id].state.Waiting?
    ensures ProcessesOk(s')
  {
    forall a | a in s'.store.jobs ensures RecordOk(s', a) {
      if a != id { assert RecordOk(s, a); }
    }
  }

  /** The chosen GPUs are distinct and none of them is reserved. */
  lemma ChosenAreUnreserved(s: System, id: nat, slots: seq<GpuSlot>)
    requires MemoryOk(s) && MayReserve(s, id, slots)
    ensures DistinctSlots(slots) && forall k :: 0 <= k < |slots| ==> slots[k].uuid !in ReservedUuids(s.store)
  {
    var free := FreeNow(s);
    FreeGpusAreDistinct(s.memory.value.observations, ReservedUuids(s.store));
    forall k | 0 <= k < |slots| ensures slots[k].uuid !in ReservedUuids(s.store) {
      assert free[k] in free && slots[k] == free[k].Slot();
    }
  }

  lemma ReservationKeepsStore(s: Store, id: nat, slots: seq<GpuSlot>)
    requires StoreOk(s) && id in s.jobs && s.jobs[id].state.Waiting? && |slots| == s.jobs[id].spec.requestedGpus
    requires DistinctSlots(slots) && forall k :: 0 <= k < |slots| ==> slots[k].uuid !in ReservedUuids(s)
    ensures StoreOk(Tables.Reserve(s, id, slots).0)
    ensures Tables.Reserve(s, id, slots).0.jobs[id].gpus == slots
  {
    var s' := Tables.Reserve(s, id, slots).0;
    assert RowOk(s.jobs[id], s.clock);
    assert s.jobs[id].gpus + slots == slots;
    assert RowOk(s'.jobs[id], s'.clock);
    RowChangeKeepsStore(s, s', id);
  }

  lemma ReserveKeeps(s: System, id: nat, slots: seq<GpuSlot>)
    requires Inv(s) && MayReserve(s, id, slots)
    ensures Inv(Next(s, Event.Reserve(id, slots)))
  {
    var s' := Next(s, Event.Reserve(id, slots));
    ChosenAreUnreserved(s, id, slots);
    ReservationKeepsStore(s.store, id, slots);
    assert RecordOk(s, id);
    RowChangeKeepsProcesses(s, s', id);
  }

  lemma SpawnKeepsInv(s: System, id: nat, pid: int, start: int)
    requires Inv(s) && Enabled(s, Spawn(id, pid, start))
    ensures Inv(Next(s, Spawn(id, pid, start)))
  {
    var s' := Next(s, Spawn(id, pid, start));
    SpawnKeeps(s.world, pid, start, Ident(pid, start, s.world.nextLifetime, s.world.boot));
    forall a | a in s'.spawned ensures Known(s'.world, s'.spawned[a]) {
      if a != id { SpawnKeeps(s.world, pid, start, s.spawned[a]); }
    }
    forall a | a in s'.store.jobs ensures RecordOk(s', a) {
      assert RecordOk(s, a);
      if a in s.spawned { SpawnKeeps(s.world, pid, start, s.spawned[a]); }
    }
  }

  lemma EnvironmentKeeps(s: System, path: seq<ProcEvent>)
    requires Inv(s) && PathPossible(s.world, path)
    ensures Inv(Next(s, Environment(path)))
  {
    var s' := Next(s, Environment(path));
    PathKeeps(s.world, path, Ident(0, 0, 0, 0));
    forall a | a in s.spawned ensures Known(s'.world, s'.spawned[a]) {
      PathKeeps(s.world, path, s.spawned[a]);
    }
    forall a | a in s'.store.jobs ensures RecordOk(s', a) {
      assert RecordOk(s, a);
      if a in s.spawned { PathKeeps(s.world, path, s.spawned[a]); }
    }
  }

  lemma RebootKeepsInv(s: System)
    requires Inv(s)
    ensures Inv(Next(s, Reboot))
  {
    var s' := Next(s, Reboot);
    RebootKeeps(s.world, Ident(0, 0, 0, 0));
    forall a | a in s.spawned ensures Known(s'.world, s'.spawned[a]) {
      RebootKeeps(s.world, s.spawned[a]);
    }
    forall a | a in s'.store.jobs ensures RecordOk(s', a) {
      assert RecordOk(s, a);
      if a in s.spawned { RebootKeeps(s.world, s.spawned[a]); }
    }
  }

  lemma MarkRunningKeeps(s: System, id: nat, boot: Option<nat>)
    requires Inv(s) && Enabled(s, Event.MarkRunning(id, boot))
    ensures Inv(Next(s, Event.MarkRunning(id, boot)))
  {
    var s' := Next(s, Event.MarkRunning(id, boot));
    assert RowOk(s.store.jobs[id], s.store.clock);
    assert RowOk(s'.store.jobs[id], s'.store.clock);
    RowChangeKeepsStore(s.store, s'.store, id);
    RowChangeKeepsProcesses(s, s', id);
  }

  lemma BeginCancelKeeps(s: System, id: nat)
    requires Inv(s) && Enabled(s, BeginCancel(id))
    ensures Inv(Next(s, BeginCancel(id)))
  {
    var s' := Next(s, BeginCancel(id));
    assert StoreOk(s'.store) by {
      assert RowOk(s.store.jobs[id], s.store.clock);
      RowChangeKeepsStore(s.store, s'.store, id);
    }
    assert ProcessesOk(s') by {
      assert RecordOk(s, id);
      RowChangeKeepsProcesses(s, s', id);
    }
  }

  lemma FinishKeepsStore(s: Store, id: nat, to: JobState, exitCode: Option<int>, reason: Option<Reason>)
    requires StoreOk(s) && id in s.jobs && Ends(s.jobs[id].state, to) && (to.Orphaned? ==> !s.jobs[id].state.Waiting?)
    ensures StoreOk(Tables.Finish(s, id, to, exitCode, reason))
  {
    var s' := Tables.Finish(s, id, to, exitCode, reason);
    assert RowOk(s.jobs[id], s.clock);
    assert RowOk(s'.jobs[id], s'.clock);
    RowChangeKeepsStore(s, s', id);
  }

  lemma FinishKeeps(s: System, id: nat, to: JobState, exitCode: Option<int>, reason: Option<Reason>, watched: bool)
    requires Inv(s) && Enabled(s, Event.Finish(id, to, exitCode, reason, watched))
    ensures Inv(Next(s, Event.Finish(id, to, exitCode, reason, watched)))
  {
    var s' := Next(s, Event.Finish(id, to, exitCode, reason, watched));
    FinishKeepsStore(s.store, id, to, exitCode, reason);
    assert s'.store.jobs[id].process == s.store.jobs[id].process;
    assert RecordOk(s, id);
    assert RowOk(s.store.jobs[id], s.store.clock);
    assert RecordOk(s', id);
    RowChangeKeepsProcesses(s, s', id);
    FinishKeepsMemory(s, s', id);
  }

  lemma FinishKeepsMemory(s: System, s': System, id: nat)
    requires MemoryOk(s) && OneStarting(s.store) && s.memory.Some? && OneRowChanged(s.store, s'.store, id)
    requires s'.store.jobs[id].state.Terminal()
    requires s'.memory == Some(s.memory.value.(pending := None))
             || (&& s'.memory == Some(s.memory.value.(pending := Some(id)))
                 && (s.store.jobs[id].state.Starting? || NoneStarting(s.store)))
    ensures OneStarting(s'.store) && MemoryOk(s')
  {
  }

  lemma CreateKeeps(s: System, spec: JobSpec, retryOf: Option<nat>)
    requires Inv(s) && Enabled(s, Create(spec, retryOf))
    ensures Inv(Next(s, Create(spec, retryOf)))
  {
    CreateKeepsStore(s.store, spec, retryOf);
    NewRowKeepsRest(s, CreateJob(s.store, spec, retryOf).0, NewRow(s.store, spec, retryOf));
  }

  lemma NewRowKeepsRest(s: System, store': Store, row: Job)
    requires Inv(s) && row.state.Waiting? && row.process.None?
    requires store' == Ticked(s.store).(jobs := s.store.jobs[s.store.nextId := row], nextId := s.store.nextId + 1)
    ensures var s' := s.(store := store');
            OneStarting(s'.store) && ProcessesOk(s') && MemoryOk(s')
  {
    var s' := s.(store := store');
    forall a | a in s'.store.jobs ensures RecordOk(s', a) {
      if a in s.store.jobs { assert RecordOk(s, a); }
    }
  }

  lemma DeleteKeeps(s: System, ids: seq<nat>)
    requires Inv(s) && Enabled(s, Delete(ids))
    ensures Inv(Next(s, Delete(ids)))
  {
    var s' := Next(s, Delete(ids));
    DeleteKeepsStore(s.store, ids);
    forall a | a in s'.store.jobs ensures RecordOk(s', a) {
      assert RecordOk(s, a);
    }
  }

  /** Holding or releasing changes the table and the daemon's copy of it alike. */
  lemma HoldMirrored(store: Store, m: Memory, group: string, held: bool, text: Option<string>)
    requires m.held.Keys == HeldGroups(store).Keys
    ensures HeldInMemory(m, group, held, text).held.Keys
         == HeldGroups(SetGroupHold(store, group, held, if held then text else None).0).Keys
  {
    var store' := SetGroupHold(store, group, held, if held then text else None).0;
    assert forall g :: g in HeldGroups(store) <==> g in store.holds && store.holds[g].held;
    assert forall g :: g in HeldGroups(store') <==> g in store'.holds && store'.holds[g].held;
  }

  lemma HoldKeepsStore(store: Store, group: string, held: bool, text: Option<string>)
    requires StoreOk(store)
    ensures StoreOk(SetGroupHold(store, group, held, text).0)
  {
    var store' := SetGroupHold(store, group, held, text).0;
    forall a | a in store'.jobs ensures RowOk(store'.jobs[a], store'.clock) {
      assert RowOk(store.jobs[a], store.clock);
    }
  }

  lemma HoldKeeps(s: System, group: string, held: bool, text: Option<string>)
    requires Inv(s) && Idle(s)
    ensures Inv(Next(s, Hold(group, held, text)))
  {
    var s' := Next(s, Hold(group, held, text));
    HoldKeepsStore(s.store, group, held, if held then text else None);
    HoldMirrored(s.store, s.memory.value, group, held, text);
    forall a | a in s'.store.jobs ensures RecordOk(s', a) {
      assert RecordOk(s, a);
    }
  }

  /** Changes of holds, clock or memory leave the process facts alone. */
  lemma SameJobsKeepProcesses(s: System, s': System)
    requires ProcessesOk(s) && s'.world == s.world && s'.spawned == s.spawned
    requires s'.store.jobs == s.store.jobs && s'.store.nextId == s.store.nextId
    ensures ProcessesOk(s')
  {
    forall a | a in s'.store.jobs ensures RecordOk(s', a) {
      assert RecordOk(s, a);
    }
  }

  lemma CheckKeeps(s: System, id: nat, hold: bool)
    requires Inv(s) && s.memory.Some?
    requires hold ==> id in s.store.jobs && s.store.jobs[id].spec.group.Some?
    ensures Inv(Checked(s, id, hold))
  {
    if hold {
      var group := s.store.jobs[id].spec.group.value;
      HoldKeepsStore(s.store, group, true, Some(FAIL_FAST_REASON));
      HoldMirrored(s.store, s.memory.value.(pending := None), group, true, Some(FAIL_FAST_REASON));
    }
    SameJobsKeepProcesses(s, Checked(s, id, hold));
  }

  lemma NoteKeeps(s: System)
    requires Inv(s) && Enabled(s, Note)
    ensures Inv(Next(s, Note))
  {
    var id := s.memory.value.pending.value;
    CheckKeeps(s, id, ShouldHold(s.store, s.memory.value, id));
  }

  lemma AdvanceKeeps(s: System, micros: nat)
    requires Inv(s)
    ensures Inv(Next(s, Advance(micros)))
  {
    var s' := Next(s, Advance(micros));
    forall a | a in s'.store.jobs ensures RowOk(s'.store.jobs[a], s'.store.clock) && RecordOk(s', a) {
      assert RowOk(s.store.jobs[a], s.store.clock) && RecordOk(s, a);
    }
  }

  /** Changes of memory only. */
  lemma MemoryChangeKeeps(s: System, e: Event)
    requires Inv(s) && Enabled(s, e) && (e.Scan? || e.Pause? || e.Stop? || e.Crash? || e.Restart?)
    ensures Inv(Next(s, e))
  {
    var s' := Next(s, e);
    forall a | a in s'.store.jobs ensures RecordOk(s', a) {
      assert RecordOk(s, a);
    }
  }

  lemma StepKeepsInv(s: System, e: Event)
    requires Inv(s) && Enabled(s, e)
    ensures Inv(Next(s, e))
  {
    match e
    case Environment(path) => EnvironmentKeeps(s, path);
    case Advance(micros) => AdvanceKeeps(s, micros);
    case Reboot => RebootKeepsInv(s);
    case Create(spec, retryOf) => CreateKeeps(s, spec, retryOf);
    case Reserve(id, slots) => ReserveKeeps(s, id, slots);
    case Spawn(id, pid, start) => SpawnKeepsInv(s, id, pid, start);
    case MarkRunning(id, boot) => MarkRunningKeeps(s, id, boot);
    case Finish(id, to, exitCode, reason, watched) => FinishKeeps(s, id, to, exitCode, reason, watched);
    case Note => NoteKeeps(s);
    case BeginCancel(id) => BeginCancelKeeps(s, id);
    case Delete(ids) => DeleteKeeps(s, ids);
    case Hold(group, held, text) => HoldKeeps(s, group, held, text);
    case _ => MemoryChangeKeeps(s, e);
  }

  /** The invariant holds after every legal history: over any number of daemon lifetimes, with a
      crash after any transaction, on a machine that does what it likes. */
  lemma {:induction false} InvariantHolds(h: History)
    requires Legal(h)
    ensures Inv(State(h))
  {
    match h
    case Start(_) =>
    case Then(past, event) =>
      InvariantHolds(past);
      StepKeepsInv(State(past), event);
  }
}
