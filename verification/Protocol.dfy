/** The daemon, its tables and the machine as one transition system. Every event is one durable
    transaction, one change of the daemon's memory, or one step of the environment, so a crash
    may fall between any two transactions. The Scheduler class is proved to make only these
    steps (src/gq/scheduler.py). */
module Protocol {
  import opened Models
  import opened Allocator
  import opened Tables
  import opened Processes

  /** What a running daemon keeps in memory. `pending` is a failure that was recorded and whose
      fail-fast check has not been made yet; both happen under one lock hold. */
  datatype Memory = Memory(
    failFastCount: int,
    failFastTime: int,
    held: map<string, string>,
    paused: bool,
    stopping: bool,
    observations: seq<GPUObservation>,
    snapshotError: Option<string>,
    pending: Option<nat>)

  /** `spawned` remembers, for each job, the process it was started with. */
  datatype System = System(store: Store, world: World, memory: Option<Memory>, spawned: map<nat, Ident>)

  datatype Snapshot = Devices(observations: seq<GPUObservation>) | ScanFailed(text: string)

  datatype Event =
    | Environment(path: seq<ProcEvent>)
    | Advance(micros: nat)
    | Reboot
    | Crash
    | Restart(failFastCount: int, failFastTime: int)
    | Scan(snapshot: Snapshot)
    | Pause(paused: bool)
    | Stop
    | Create(spec: JobSpec, retryOf: Option<nat>)
    | Reserve(id: nat, slots: seq<GpuSlot>)
    | Spawn(id: nat, pid: int, start: int)
    | MarkRunning(id: nat, boot: Option<nat>)
    | Finish(id: nat, to: JobState, exitCode: Option<int>, reason: Option<Reason>, watched: bool)
    | Note
    | BeginCancel(id: nat)
    | Delete(ids: seq<nat>)
    | Hold(group: string, held: bool, text: Option<string>)

  // ---- Memory ----

  /** After a failed scan the known devices stay listed, every one of them with an error. */
  function Rescanned(m: Memory, snapshot: Snapshot): Memory {
    match snapshot
    case Devices(observations) => m.(observations := observations, snapshotError := None)
    case ScanFailed(text) =>
      m.(observations := MarkedFaulty(m.observations, text), snapshotError := Some(text))
  }

  function MarkedFaulty(observations: seq<GPUObservation>, text: string): (r: seq<GPUObservation>)
    ensures |r| == |observations|
    ensures forall k :: 0 <= k < |r| ==> r[k].uuid == observations[k].uuid && r[k].Faulty()
  {
    seq(|observations|, k requires 0 <= k < |observations| =>
      observations[k].(processes := [], error := Some("NVML unavailable: " + text)))
  }

  function HeldInMemory(m: Memory, group: string, held: bool, reason: Option<string>): Memory {
    if held then m.(held := m.held[group := if reason.Some? then reason.value else ""])
    else m.(held := m.held - {group})
  }

  // ---- Scheduling ----

  function FreeNow(s: System): seq<GPUObservation>
    requires s.memory.Some?
  {
    FreeGpus(s.memory.value.observations, ReservedUuids(s.store))
  }

  predicate HeldBack(s: System, id: nat)
    requires s.memory.Some? && id in s.store.jobs
  {
    var group := s.store.jobs[id].spec.group;
    group.Some? && group.value in s.memory.value.held
  }

  /** Why a job may be passed over: its group is held, or it asks for more than is FREE. */
  predicate MustWait(s: System, id: nat)
    requires s.memory.Some? && id in s.store.jobs
  {
    HeldBack(s, id) || s.store.jobs[id].spec.requestedGpus > |FreeNow(s)|
  }

  ghost predicate NoneStarting(s: Store) {
    forall id :: id in s.jobs ==> !s.jobs[id].state.Starting?
  }

  ghost predicate MayReserve(s: System, id: nat, slots: seq<GpuSlot>) {
    && s.memory.Some?
    && var m := s.memory.value;
    && !m.paused && !m.stopping && m.pending.None? && NoneStarting(s.store)
    && id in s.store.jobs && s.store.jobs[id].state.Waiting? && !HeldBack(s, id)
    && var wanted := s.store.jobs[id].spec.requestedGpus;
    && 0 <= wanted <= |FreeNow(s)| && slots == ObservedSlots(FreeNow(s))[..wanted]
    && forall w :: w in s.store.jobs && s.store.jobs[w].state.Waiting? && Before(s.store, w, id) ==> MustWait(s, w)
  }

  // ---- Lifecycle ----

  predicate Ends(from: JobState, to: JobState) {
    match from
    case Waiting => to.Cancelled?
    case Starting => to.Done? || to.Failed?
    case Running => to.Done? || to.Failed? || to.Orphaned?
    case Cancelling => to.Cancelled? || to.Failed? || to.Orphaned?
    case _ => false
  }

  function SeenUuids(observations: seq<GPUObservation>): set<string> {
    set o | o in observations :: o.uuid
  }

  /** The job has no GPU rows, or one of its devices is not among those the daemon knows. */
  ghost predicate LacksDevice(s: System, id: nat)
    requires s.memory.Some? && id in s.store.jobs
  {
    s.store.jobs[id].gpus == [] || !(s.store.jobs[id].Uuids() <= SeenUuids(s.memory.value.observations))
  }

  /** A job that reached RUNNING gives its GPUs back only when its process group is gone. DONE is for
      a child that was started and exited with code 0, and ORPHANED for a job that lacks a device. */
  ghost predicate MayFinish(s: System, id: nat, to: JobState, exitCode: Option<int>) {
    && (to.Done? ==> id in s.spawned && exitCode == Some(0))
    && (to.Orphaned? ==> exitCode.None? && s.memory.Some? && id in s.store.jobs && LacksDevice(s, id))
    && id in s.store.jobs && Ends(s.store.jobs[id].state, to)
    && (!to.Orphaned? && s.store.jobs[id].process.Some? ==>
          id in s.spawned && !GroupAlive(s.world, s.spawned[id].lifetime))
  }

  /** A retry copies the newest attempt of a lineage, which failed or was cancelled. */
  ghost predicate MayRetry(s: Store, spec: JobSpec, root: nat) {
    exists id ::
      && id in s.jobs && s.jobs[id].state.ReleasesKey() && s.jobs[id].spec == spec && s.jobs[id].Root() == root
      && NewerAttempt(s, root, id).None?
  }

  ghost predicate MayCreate(s: Store, spec: JobSpec, retryOf: Option<nat>) {
    && spec.requestedGpus >= 1
    && (spec.key.Some? ==> KeyHolder(s, spec.key.value).None?)
    && (retryOf.Some? ==> MayRetry(s, spec, retryOf.value))
  }

  // ---- Fail-fast ----

  predicate QuickFailure(job: Job, limit: int) {
    job.state.Failed? && job.RanLessThan(limit)
  }

  /** Whether the check after a failure holds the group of the failed job. */
  predicate ShouldHold(store: Store, m: Memory, id: nat) {
    && m.failFastCount > 0
    && id in store.jobs && store.jobs[id].spec.group.Some?
    && var group := store.jobs[id].spec.group.value;
    && group !in m.held
    && var recent := RecentOutcomes(store, group, ReleasedAt(store, group), m.failFastCount);
    && |recent| >= m.failFastCount
    && forall k :: 0 <= k < |recent| ==> recent[k] in store.jobs && QuickFailure(store.jobs[recent[k]], m.failFastTime)
  }

  /** The text of an automatic hold carries no property here. */
  const FAIL_FAST_REASON := "jobs in a row failed right after starting"

  /** The text of every hold a client asks for. */
  const MANUAL_HOLD_REASON := "paused by user"

  /** The outcome of the check: the group of job `id` goes on hold, or nothing changes. */
  function Checked(s: System, id: nat, hold: bool): System
    requires s.memory.Some?
    requires hold ==> id in s.store.jobs && s.store.jobs[id].spec.group.Some?
  {
    var m := s.memory.value.(pending := None);
    if hold then
      var group := s.store.jobs[id].spec.group.value;
      s.(store := SetGroupHold(s.store, group, true, Some(FAIL_FAST_REASON)).0,
         memory := Some(HeldInMemory(m, group, true, Some(FAIL_FAST_REASON))))
    else s.(memory := Some(m))
  }

  function Noted(s: System): System
    requires s.memory.Some? && s.memory.value.pending.Some?
  {
    var id := s.memory.value.pending.value;
    Checked(s, id, ShouldHold(s.store, s.memory.value, id))
  }

  // ---- Steps ----

  ghost predicate Idle(s: System) {
    s.memory.Some? && s.memory.value.pending.None?
  }

  ghost predicate Enabled(s: System, e: Event) {
    match e
    case Environment(path) => PathPossible(s.world, path)
    case Advance(_) => true
    case Reboot => true
    case Crash => s.memory.Some?
    case Restart(_, _) => s.memory.None?
    case Scan(snapshot) => Idle(s) && (snapshot.Devices? ==> DistinctUuids(snapshot.observations))
    case Pause(_) => Idle(s)
    case Stop => Idle(s)
    case Create(spec, retryOf) => Idle(s) && MayCreate(s.store, spec, retryOf)
    case Reserve(id, slots) => MayReserve(s, id, slots)
    case Spawn(id, pid, start) =>
      && Idle(s) && id in s.store.jobs && s.store.jobs[id].state.Starting? && id !in s.spawned
      && FreshPid(s.world, pid, start)
    case MarkRunning(id, boot) =>
      && Idle(s) && id in s.store.jobs && s.store.jobs[id].state.Starting?
      && id in s.spawned && s.spawned[id].boot == s.world.boot
      && (boot.Some? ==> boot.value == s.world.boot)
    case Finish(id, to, exitCode, _, watched) =>
      && Idle(s) && MayFinish(s, id, to, exitCode)
      && (watched ==> s.store.jobs[id].state.Starting? || NoneStarting(s.store))
    case Note => s.memory.Some? && s.memory.value.pending.Some?
    case BeginCancel(id) => Idle(s) && id in s.store.jobs && s.store.jobs[id].state.Running?
    case Delete(ids) => Idle(s) && DeleteRows(s.store.jobs, ids).Some?
    case Hold(_, _, _) => Idle(s)
  }

  function SpawnedRecord(i: Ident, boot: Option<nat>): ProcessRecord {
    ProcessRecord(i.pid, i.pid, Some(i.start), boot)
  }

  ghost function Next(s: System, e: Event): System
    requires Enabled(s, e)
  {
    match e
    case Environment(path) => s.(world := Follow(s.world, path))
    case Advance(micros) => s.(store := s.store.(clock := s.store.clock + micros))
    case Reboot => s.(world := Booted(s.world.boot + 1, s.world.nextLifetime), memory := None)
    case Crash => s.(memory := None)
    case Restart(count, time) =>
      s.(memory := Some(Memory(count, time, HeldGroups(s.store), false, false, [], None, None)))
    case Scan(snapshot) => s.(memory := Some(Rescanned(s.memory.value, snapshot)))
    case Pause(paused) => s.(memory := Some(s.memory.value.(paused := paused)))
    case Stop => s.(memory := Some(s.memory.value.(stopping := true)))
    case Create(spec, retryOf) => s.(store := CreateJob(s.store, spec, retryOf).0)
    case Reserve(id, slots) => s.(store := Tables.Reserve(s.store, id, slots).0)
    case Spawn(id, pid, start) =>
      s.(world := AfterSpawn(s.world, pid, start),
         spawned := s.spawned[id := Ident(pid, start, s.world.nextLifetime, s.world.boot)])
    case MarkRunning(id, boot) =>
      s.(store := Tables.MarkRunning(s.store, id, SpawnedRecord(s.spawned[id], boot)).0)
    case Finish(id, to, exitCode, reason, watched) =>
      s.(store := Tables.Finish(s.store, id, to, exitCode, reason),
         memory := Some(s.memory.value.(pending := if watched && to.Failed? then Some(id) else None)))
    case Note => Noted(s)
    case BeginCancel(id) => s.(store := SetCancelling(s.store, id).0)
    case Delete(ids) => s.(store := DeleteJobs(s.store, ids).0)
    case Hold(group, held, text) =>
      s.(store := SetGroupHold(s.store, group, held, if held then text else None).0,
         memory := Some(HeldInMemory(s.memory.value, group, held, text)))
  }

  // ---- Runs ----

  /** A run so far: empty tables on some machine, then one event after another. */
  datatype History = Start(world: World) | Then(past: History, event: Event)

  ghost predicate Legal(h: History)
    decreases h, 0
  {
    match h
    case Start(world) => WorldOk(world)
    case Then(past, event) => Legal(past) && Enabled(State(past), event)
  }

  ghost function State(h: History): System
    requires Legal(h)
    decreases h, 1
  {
    match h
    case Start(world) => System(EMPTY, world, None, map[])
    case Then(past, event) => Next(State(past), event)
  }

  ghost predicate Extends(base: History, h: History) {
    h == base || (h.Then? && Extends(base, h.past))
  }

  lemma {:induction false} ExtendsTransitive(a: History, b: History, c: History)
    requires Extends(a, b) && Extends(b, c)
    ensures Extends(a, c)
  {
    if c != b {
      ExtendsTransitive(a, b, c.past);
    }
  }

  lemma {:induction false} PrefixesAreLegal(base: History, h: History)
    requires Legal(h) && Extends(base, h)
    ensures Legal(base)
  {
    if h != base {
      PrefixesAreLegal(base, h.past);
    }
  }
}
