/** The records the daemon stores and computes with (src/gq/models.py). */
module Models {

  datatype Option<+T> = None | Some(value: T)

  datatype JobState = Waiting | Starting | Running | Cancelling | Done | Failed | Cancelled | Orphaned {

    predicate Terminal() {
      Done? || Failed? || Cancelled? || Orphaned?
    }

    /** The states `active_jobs` lists. */
    predicate Active() {
      Starting? || Running? || Cancelling?
    }

    /** The states whose GPU rows count as reservations in `assignments`. */
    predicate Holding() {
      Active() || Orphaned?
    }

    /** The states that free a key for another submission. */
    predicate ReleasesKey() {
      Failed? || Cancelled?
    }
  }

  /** What a submission asks for, and what every retry of it copies. */
  datatype JobSpec = JobSpec(
    argv: seq<string>,
    cwd: string,
    env: map<string, string>,
    requestedGpus: int,
    name: string,
    group: Option<string>,
    key: Option<string>)

  /** A `job_gpus` row: the UUID is the identity, the index is what the launch made visible. */
  datatype GpuSlot = GpuSlot(uuid: string, index: int)

  /** The columns `mark_running` fills together. */
  datatype ProcessRecord = ProcessRecord(pid: int, pgid: int, start: Option<int>, boot: Option<nat>)

  datatype Reason =
    | CancelledBeforeLaunch
    | CancelledByUser
    | ExitStatus(code: int)
    | NoIdentity
    | LaunchError
    | MachineRebooted
    | DeadAtRecovery
    | AllocationMissing
    | ExitedAfterRestart

  datatype Job = Job(
    id: nat,
    spec: JobSpec,
    state: JobState,
    submitTime: nat,
    startTime: Option<nat>,
    endTime: Option<nat>,
    process: Option<ProcessRecord>,
    exitCode: Option<int>,
    reason: Option<Reason>,
    gpus: seq<GpuSlot>,
    retryOf: Option<nat>)
  {
    /** The first job of this job's retry lineage, as the daemon computes it. */
    function Root(): nat {
      if retryOf.Some? && retryOf.value != 0 then retryOf.value else id
    }

    function Uuids(): set<string> {
      set g | g in gpus :: g.uuid
    }

    /** The GPU rows of this job count as reservations of `uuid`. */
    predicate Holds(uuid: string) {
      state.Holding() && uuid in Uuids()
    }

    predicate InGroup(group: string) {
      spec.group == Some(group)
    }

    /** Reservation to finish, when both ends are known. */
    predicate RanLessThan(limit: int) {
      startTime.Some? && endTime.Some? && endTime.value - startTime.value < limit
    }
  }

  datatype ComputeProcess = ComputeProcess(pid: int, usedMemory: Option<int>, name: Option<string>)

  datatype GPUObservation = GPUObservation(
    uuid: string,
    index: int,
    name: string,
    totalMemory: Option<int>,
    usedMemory: Option<int>,
    processes: seq<ComputeProcess>,
    error: Option<string>)
  {
    /** An empty error text is no error: the daemon tests the text itself. */
    predicate Faulty() {
      error.Some? && error.value != ""
    }

    function Slot(): GpuSlot {
      GpuSlot(uuid, index)
    }
  }

  datatype GPUState = Free | Reserved | Running | External | Unknown

  datatype Detail =
    | NoDetail
    | DeviceError(text: string)
    | StaleReservation(jobId: nat)
    | OrphanedAllocation(jobId: nat)
    | Conflicts(pids: seq<int>)

  datatype GPUStatus = GPUStatus(
    uuid: string,
    index: int,
    name: string,
    state: GPUState,
    owner: Option<nat>,
    processes: seq<ComputeProcess>,
    totalMemory: Option<int>,
    usedMemory: Option<int>,
    detail: Detail)
  {
    function Slot(): GpuSlot {
      GpuSlot(uuid, index)
    }
  }

  ghost predicate DistinctUuids(observations: seq<GPUObservation>) {
    forall i, j :: 0 <= i < j < |observations| ==> observations[i].uuid != observations[j].uuid
  }

  ghost predicate DistinctSlots(slots: seq<GpuSlot>) {
    forall i, j :: 0 <= i < j < |slots| ==> slots[i].uuid != slots[j].uuid
  }
}
