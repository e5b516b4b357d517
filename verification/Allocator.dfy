/** Classification and choice of GPUs (src/gq/allocator.py). */
module Allocator {
  import opened Models
  import opened Sorting

  /** Answers whether a compute PID of a device belongs to the process group of a job. Each PID is
      asked about by itself, so two devices may get different answers about one PID. */
  type Membership = (string, int, Job) -> bool

  function ConflictPids(uuid: string, processes: seq<ComputeProcess>, job: Job, managed: Membership): (pids: seq<int>)
    ensures pids == [] <==> forall k :: 0 <= k < |processes| ==> managed(uuid, processes[k].pid, job)
    ensures forall pid :: pid in pids <==> exists k ::
              0 <= k < |processes| && processes[k].pid == pid && !managed(uuid, processes[k].pid, job)
  {
    if processes == [] then []
    else
      (if managed(uuid, processes[0].pid, job) then [] else [processes[0].pid])
      + ConflictPids(uuid, processes[1..], job, managed)
  }

  function OwnerOf(o: GPUObservation, assignments: map<string, nat>): Option<nat> {
    if o.uuid in assignments then Some(assignments[o.uuid]) else None
  }

  function StateOf(o: GPUObservation, assignments: map<string, nat>, jobs: map<nat, Job>, managed: Membership)
    : (GPUState, Detail)
  {
    var owner := OwnerOf(o, assignments);
    if o.Faulty() then (GPUState.Unknown, DeviceError(o.error.value))
    else if owner.Some? && owner.value !in jobs then (GPUState.Unknown, StaleReservation(owner.value))
    else if owner.Some? then
      var job := jobs[owner.value];
      var conflicts := ConflictPids(o.uuid, o.processes, job, managed);
      if job.state.Orphaned? then (GPUState.Unknown, OrphanedAllocation(job.id))
      else if conflicts != [] then (GPUState.Unknown, Conflicts(conflicts))
      else (if job.state.Starting? then GPUState.Reserved else GPUState.Running, NoDetail)
    else if o.processes != [] then (GPUState.External, NoDetail)
    else (GPUState.Free, NoDetail)
  }

  function StatusOf(o: GPUObservation, assignments: map<string, nat>, jobs: map<nat, Job>, managed: Membership)
    : GPUStatus
  {
    var (state, detail) := StateOf(o, assignments, jobs, managed);
    GPUStatus(o.uuid, o.index, o.name, state, OwnerOf(o, assignments), o.processes,
              o.totalMemory, o.usedMemory, detail)
  }

  function ByIndex(observations: seq<GPUObservation>): seq<GPUObservation> {
    SortBy(observations, (o: GPUObservation) => o.index)
  }

  function StatusesOf(observations: seq<GPUObservation>, assignments: map<string, nat>,
                      jobs: map<nat, Job>, managed: Membership): (statuses: seq<GPUStatus>)
    ensures |statuses| == |observations|
    ensures forall k :: 0 <= k < |statuses| ==>
              statuses[k] == StatusOf(observations[k], assignments, jobs, managed)
  {
    seq(|observations|, k requires 0 <= k < |observations| =>
      StatusOf(observations[k], assignments, jobs, managed))
  }

  /** The specification of `classify_gpus`. */
  function Classified(observations: seq<GPUObservation>, assignments: map<string, nat>,
                      jobs: map<nat, Job>, managed: Membership): seq<GPUStatus>
  {
    StatusesOf(ByIndex(observations), assignments, jobs, managed)
  }

  method ClassifyGpus(observations: seq<GPUObservation>, assignments: map<string, nat>,
                      jobs: map<nat, Job>, managed: Membership) returns (statuses: seq<GPUStatus>)
    ensures statuses == Classified(observations, assignments, jobs, managed)
  {
    statuses := [];
    var ordered := ByIndex(observations);
    for i := 0 to |ordered|
      invariant |statuses| == i
      invariant forall k :: 0 <= k < i ==>
                  statuses[k] == StatusOf(ordered[k], assignments, jobs, managed)
    {
      var o := ordered[i];
      var state: GPUState;
      var detail := NoDetail;
      var owner := OwnerOf(o, assignments);
      if o.Faulty() {
        state := GPUState.Unknown;
        detail := DeviceError(o.error.value);
      } else if owner.Some? && owner.value !in jobs {
        state := GPUState.Unknown;
        detail := StaleReservation(owner.value);
      } else if owner.Some? {
        var job := jobs[owner.value];
        var conflicts := ConflictPids(o.uuid, o.processes, job, managed);
        if job.state.Orphaned? {
          state := GPUState.Unknown;
          detail := OrphanedAllocation(job.id);
        } else if conflicts != [] {
          state := GPUState.Unknown;
          detail := Conflicts(conflicts);
        } else {
          state := if job.state.Starting? then GPUState.Reserved else GPUState.Running;
        }
      } else if o.processes != [] {
        state := GPUState.External;
      } else {
        state := GPUState.Free;
      }
      statuses := statuses + [GPUStatus(o.uuid, o.index, o.name, state, owner, o.processes,
                                        o.totalMemory, o.usedMemory, detail)];
    }
  }

  function FreeStatuses(statuses: seq<GPUStatus>): seq<GPUStatus> {
    Filter(statuses, (s: GPUStatus) => s.state.Free?)
  }

  function SelectGpus(statuses: seq<GPUStatus>, count: int): seq<GPUStatus>
    requires count >= 0
  {
    var free := SortBy(FreeStatuses(statuses), (s: GPUStatus) => s.index);
    if |free| >= count then free[..count] else []
  }

  function ByUuid(observations: seq<GPUObservation>): map<string, GPUObservation> {
    if observations == [] then map[]
    else
      var last := |observations| - 1;
      ByUuid(observations[..last])[observations[last].uuid := observations[last]]
  }

  lemma {:induction false} ByUuidFinds(observations: seq<GPUObservation>)
    requires DistinctUuids(observations)
    ensures forall o :: o in observations ==> o.uuid in ByUuid(observations) && ByUuid(observations)[o.uuid] == o
  {
    if observations != [] {
      var last := |observations| - 1;
      var rest := observations[..last];
      ByUuidFinds(rest);
      forall o | o in observations ensures o.uuid in ByUuid(observations) && ByUuid(observations)[o.uuid] == o {
        var k :| 0 <= k < |observations| && observations[k] == o;
        if k < last {
          assert rest[k] == o;
          assert observations[k].uuid != observations[last].uuid;
        }
      }
    }
  }

  // ---- What FREE means, and which GPUs are chosen ----

  /** A device the next reservation may use: readable, idle and not reserved. */
  predicate Allocatable(o: GPUObservation, reserved: set<string>) {
    !o.Faulty() && o.processes == [] && o.uuid !in reserved
  }

  /** The allocatable devices in index order, whatever the process table says. */
  function FreeGpus(observations: seq<GPUObservation>, reserved: set<string>): seq<GPUObservation> {
    Filter(ByIndex(observations), (o: GPUObservation) => Allocatable(o, reserved))
  }

  function SlotsOf(statuses: seq<GPUStatus>): (slots: seq<GpuSlot>)
    ensures |slots| == |statuses|
    ensures forall k :: 0 <= k < |slots| ==> slots[k] == statuses[k].Slot()
  {
    seq(|statuses|, k requires 0 <= k < |statuses| => statuses[k].Slot())
  }

  function ObservedSlots(observations: seq<GPUObservation>): (slots: seq<GpuSlot>)
    ensures |slots| == |observations|
    ensures forall k :: 0 <= k < |slots| ==> slots[k] == observations[k].Slot()
  {
    seq(|observations|, k requires 0 <= k < |observations| => observations[k].Slot())
  }

  /** FREE never depends on the process table: it is exactly "allocatable". */
  lemma FreeMeansAllocatable(o: GPUObservation, assignments: map<string, nat>, jobs: map<nat, Job>,
                             managed: Membership)
    ensures StatusOf(o, assignments, jobs, managed).state.Free? <==> Allocatable(o, assignments.Keys)
  {
  }

  lemma {:induction false} FreeStatusesAreFreeGpus(
    ordered: seq<GPUObservation>, assignments: map<string, nat>, jobs: map<nat, Job>, managed: Membership)
    ensures SlotsOf(FreeStatuses(StatusesOf(ordered, assignments, jobs, managed)))
         == ObservedSlots(Filter(ordered, (o: GPUObservation) => Allocatable(o, assignments.Keys)))
  {
    var statuses := StatusesOf(ordered, assignments, jobs, managed);
    var allocatable := (o: GPUObservation) => Allocatable(o, assignments.Keys);
    if ordered != [] {
      FreeStatusesAreFreeGpus(ordered[1..], assignments, jobs, managed);
      FreeMeansAllocatable(ordered[0], assignments, jobs, managed);
      assert statuses[1..] == StatusesOf(ordered[1..], assignments, jobs, managed);
    }
  }

  /** The statuses are listed by index, so selection takes a prefix of the free list. */
  lemma SelectionIsPrefix(observations: seq<GPUObservation>, assignments: map<string, nat>,
                          jobs: map<nat, Job>, managed: Membership, count: int)
    requires count >= 0
    ensures var free := FreeGpus(observations, assignments.Keys);
            SlotsOf(SelectGpus(Classified(observations, assignments, jobs, managed), count))
            == if |free| >= count then ObservedSlots(free)[..count] else []
  {
    var ordered := ByIndex(observations);
    var statuses := StatusesOf(ordered, assignments, jobs, managed);
    var byIndex := (s: GPUStatus) => s.index;
    SortSorts(observations, (o: GPUObservation) => o.index);
    assert Sorted(statuses, byIndex);
    FilterSorted(statuses, (s: GPUStatus) => s.state.Free?, byIndex);
    SortOfSorted(FreeStatuses(statuses), byIndex);
    FreeStatusesAreFreeGpus(ordered, assignments, jobs, managed);
    var free := FreeGpus(observations, assignments.Keys);
    var slots := SlotsOf(FreeStatuses(statuses));
    assert slots == ObservedSlots(free);
    assert |FreeStatuses(statuses)| == |slots|;
    if |free| >= count {
      assert SlotsOf(FreeStatuses(statuses)[..count]) == slots[..count];
    }
  }

  /** Any selection, from any statuses: all of them, or the requested number of FREE devices,
      none of them with a higher index than a FREE device left out. */
  lemma SelectionIsLowest(statuses: seq<GPUStatus>, count: int)
    requires count > 0
    ensures var chosen := SelectGpus(statuses, count);
            var free := SortBy(FreeStatuses(statuses), (s: GPUStatus) => s.index);
            && multiset(free) == multiset(FreeStatuses(statuses))
            && (chosen == [] <==> |FreeStatuses(statuses)| < count)
            && (chosen != [] ==>
                  && |chosen| == count
                  && (forall c :: c in chosen ==> c in statuses && c.state.Free?)
                  && chosen + free[count..] == free
                  && forall i, j :: 0 <= i < count <= j < |free| ==> chosen[i].index <= free[j].index)
  {
    var byIndex := (s: GPUStatus) => s.index;
    var free := SortBy(FreeStatuses(statuses), byIndex);
    assert multiset(free) == multiset(FreeStatuses(statuses)) && |free| == |FreeStatuses(statuses)| by {
      SortPermutes(FreeStatuses(statuses), byIndex);
    }
    assert forall i, j :: 0 <= i < j < |free| ==> free[i].index <= free[j].index by {
      SortSorts(FreeStatuses(statuses), byIndex);
    }
    if |free| >= count {
      assert free[..count] + free[count..] == free;
      forall c | c in free[..count] ensures c in statuses && c.state.Free? {
        ListedIsFree(statuses, c);
      }
    }
  }

  lemma ListedIsFree(statuses: seq<GPUStatus>, c: GPUStatus)
    requires c in SortBy(FreeStatuses(statuses), (s: GPUStatus) => s.index)
    ensures c in statuses && c.state.Free?
  {
    SortKeepsMembers(FreeStatuses(statuses), (s: GPUStatus) => s.index, c);
    FilterMembers(statuses, (s: GPUStatus) => s.state.Free?);
  }

  // ---- Distinct UUIDs survive sorting, filtering and taking a prefix ----

  lemma {:induction false} InsertKeepsDistinct(x: GPUObservation, s: seq<GPUObservation>, key: GPUObservation -> int)
    requires DistinctUuids([x] + s)
    ensures DistinctUuids(Insert(x, s, key))
  {
    if s != [] && key(x) > key(s[0]) {
      assert ([x] + s)[0] == x && ([x] + s)[1..] == s;
      forall i, j | 0 <= i < j < |[x] + s[1..]| ensures ([x] + s[1..])[i].uuid != ([x] + s[1..])[j].uuid {
        assert ([x] + s)[if i == 0 then 0 else i + 1].uuid != ([x] + s)[j + 1].uuid;
      }
      InsertKeepsDistinct(x, s[1..], key);
      InsertPermutes(x, s[1..], key);
      var rest := Insert(x, s[1..], key);
      forall j | 0 <= j < |rest| ensures s[0].uuid != rest[j].uuid {
        assert rest[j] in multiset(rest);
        assert rest[j] in [x] + s[1..];
        assert ([x] + s)[0].uuid != ([x] + s)[1].uuid;
        if rest[j] != x {
          var k :| 0 <= k < |s[1..]| && s[1..][k] == rest[j];
          assert ([x] + s)[1].uuid != ([x] + s)[k + 2].uuid;
        }
      }
    }
  }

  lemma {:induction false} SortKeepsDistinct(s: seq<GPUObservation>, key: GPUObservation -> int)
    requires DistinctUuids(s)
    ensures DistinctUuids(SortBy(s, key))
  {
    if s != [] {
      SortKeepsDistinct(s[1..], key);
      SortPermutes(s[1..], key);
      var rest := SortBy(s[1..], key);
      forall j | 0 <= j < |rest| ensures s[0].uuid != rest[j].uuid {
        assert rest[j] in multiset(rest);
        assert rest[j] in s[1..];
      }
      InsertKeepsDistinct(s[0], rest, key);
    }
  }

  lemma {:induction false} FilterKeepsDistinct(s: seq<GPUObservation>, keep: GPUObservation -> bool)
    requires DistinctUuids(s)
    ensures DistinctUuids(Filter(s, keep))
  {
    if s != [] {
      FilterKeepsDistinct(s[1..], keep);
      FilterMembers(s[1..], keep);
      var rest := Filter(s[1..], keep);
      forall j | 0 <= j < |rest| ensures s[0].uuid != rest[j].uuid {
        assert rest[j] in rest;
        assert rest[j] in s[1..];
      }
    }
  }

  /** The free list has distinct UUIDs, every one observed, idle, readable and unreserved. */
  lemma FreeGpusAreDistinct(observations: seq<GPUObservation>, reserved: set<string>)
    requires DistinctUuids(observations)
    ensures DistinctUuids(FreeGpus(observations, reserved))
    ensures DistinctSlots(ObservedSlots(FreeGpus(observations, reserved)))
    ensures forall o :: o in FreeGpus(observations, reserved) <==>
              o in observations && Allocatable(o, reserved)
  {
    var key := (o: GPUObservation) => o.index;
    SortKeepsDistinct(observations, key);
    FilterKeepsDistinct(ByIndex(observations), (o: GPUObservation) => Allocatable(o, reserved));
    FilterMembers(ByIndex(observations), (o: GPUObservation) => Allocatable(o, reserved));
    forall o ensures o in ByIndex(observations) <==> o in observations {
      SortKeepsMembers(observations, key, o);
    }
  }

  /** Reserving more leaves fewer free devices, all of which were free before. */
  lemma FreeGpusShrink(observations: seq<GPUObservation>, fewer: set<string>, more: set<string>)
    requires fewer <= more
    ensures |FreeGpus(observations, more)| <= |FreeGpus(observations, fewer)|
    ensures forall o :: o in FreeGpus(observations, more) ==> o in FreeGpus(observations, fewer)
  {
    FilterMembers(ByIndex(observations), (o: GPUObservation) => Allocatable(o, more));
    FilterMembers(ByIndex(observations), (o: GPUObservation) => Allocatable(o, fewer));
    FilterShrinks(ByIndex(observations), (o: GPUObservation) => Allocatable(o, more),
                  (o: GPUObservation) => Allocatable(o, fewer));
  }

  // ---- The overlay used between reservation and launch ----

  function Overlay(statuses: seq<GPUStatus>, chosen: set<string>, jobId: nat): seq<GPUStatus> {
    seq(|statuses|, k requires 0 <= k < |statuses| =>
      if statuses[k].uuid in chosen
      then statuses[k].(state := GPUState.Reserved, owner := Some(jobId))
      else statuses[k])
  }

  /** A device whose reservation did not change is classified as before. */
  lemma UntouchedDevice(o: GPUObservation, before: map<string, nat>, after: map<string, nat>,
                        jobsBefore: map<nat, Job>, jobsAfter: map<nat, Job>, managed: Membership)
    requires OwnerOf(o, after) == OwnerOf(o, before)
    requires var owner := OwnerOf(o, before);
             owner.Some? ==>
               && (owner.value in jobsAfter <==> owner.value in jobsBefore)
               && (owner.value in jobsBefore ==> jobsAfter[owner.value] == jobsBefore[owner.value])
    ensures StatusOf(o, after, jobsAfter, managed) == StatusOf(o, before, jobsBefore, managed)
  {
  }

  /** The two answer alike about the processes of a device and its owner. */
  ghost predicate AnswerAlike(o: GPUObservation, assignments: map<string, nat>, jobs: map<nat, Job>,
                              first: Membership, second: Membership) {
    o.uuid in assignments && assignments[o.uuid] in jobs ==>
      forall k :: 0 <= k < |o.processes| ==>
        first(o.uuid, o.processes[k].pid, jobs[assignments[o.uuid]])
        == second(o.uuid, o.processes[k].pid, jobs[assignments[o.uuid]])
  }

  lemma {:induction false} SameConflicts(uuid: string, processes: seq<ComputeProcess>, job: Job,
                                         first: Membership, second: Membership)
    requires forall k :: 0 <= k < |processes| ==>
            first(uuid, processes[k].pid, job) == second(uuid, processes[k].pid, job)
    ensures ConflictPids(uuid, processes, job, first) == ConflictPids(uuid, processes, job, second)
  {
    if processes != [] {
      SameConflicts(uuid, processes[1..], job, first, second);
    }
  }

  /** Only the answers about processes on devices of owners matter for a classification. */
  lemma AnswersSuffice(observations: seq<GPUObservation>, assignments: map<string, nat>, jobs: map<nat, Job>,
                       first: Membership, second: Membership)
    requires forall o :: o in observations ==> AnswerAlike(o, assignments, jobs, first, second)
    ensures Classified(observations, assignments, jobs, first) == Classified(observations, assignments, jobs, second)
  {
    forall o | o in ByIndex(observations)
      ensures StatusOf(o, assignments, jobs, first) == StatusOf(o, assignments, jobs, second)
    {
      SortKeepsMembers(observations, (x: GPUObservation) => x.index, o);
      if o.uuid in assignments && assignments[o.uuid] in jobs {
        SameConflicts(o.uuid, o.processes, jobs[assignments[o.uuid]], first, second);
      }
    }
  }

  /** Only the owning jobs matter for a classification. */
  lemma OwnersSuffice(observations: seq<GPUObservation>, assignments: map<string, nat>,
                      owners: map<nat, Job>, jobs: map<nat, Job>, managed: Membership)
    requires forall u :: u in assignments ==> (assignments[u] in owners <==> assignments[u] in jobs)
    requires forall id :: id in owners && id in jobs ==> owners[id] == jobs[id]
    ensures Classified(observations, assignments, owners, managed)
         == Classified(observations, assignments, jobs, managed)
  {
    forall o: GPUObservation
      ensures StatusOf(o, assignments, owners, managed) == StatusOf(o, assignments, jobs, managed)
    {
      UntouchedDevice(o, assignments, assignments, jobs, owners, managed);
    }
  }

  /** A FREE device that was just reserved is classified RESERVED for its new owner. */
  lemma ReservedDevice(o: GPUObservation, before: map<string, nat>, after: map<string, nat>,
                       jobsBefore: map<nat, Job>, jobsAfter: map<nat, Job>, managed: Membership, job: Job)
    requires StatusOf(o, before, jobsBefore, managed).state.Free?
    requires OwnerOf(o, after) == Some(job.id)
    requires job.id in jobsAfter && jobsAfter[job.id] == job && job.state.Starting?
    ensures StatusOf(o, after, jobsAfter, managed)
         == StatusOf(o, before, jobsBefore, managed).(state := GPUState.Reserved, owner := Some(job.id))
  {
  }

  /** In a list with distinct UUIDs, a selected UUID names the device that was selected. */
  lemma SelectedIsFree(ordered: seq<GPUObservation>, statuses: seq<GPUStatus>, picks: seq<GPUStatus>, k: int)
    requires DistinctUuids(ordered) && |statuses| == |ordered| && 0 <= k < |ordered|
    requires forall i :: 0 <= i < |ordered| ==> statuses[i].uuid == ordered[i].uuid
    requires forall c :: c in picks ==> c in statuses && c.state.Free?
    requires exists c :: c in picks && c.uuid == ordered[k].uuid
    ensures statuses[k].state.Free?
  {
    var c :| c in picks && c.uuid == ordered[k].uuid;
    var m :| 0 <= m < |statuses| && statuses[m] == c;
    assert m == k;
  }

  function Uuids(statuses: seq<GPUStatus>): set<string> {
    set s | s in statuses :: s.uuid
  }

  /** The chosen devices were added to the reservations, under this job. */
  ghost predicate Granted(before: map<string, nat>, after: map<string, nat>, chosen: set<string>, jobId: nat) {
    && (forall u :: u in after <==> u in before || u in chosen)
    && (forall u :: u in after ==> after[u] == if u in chosen then jobId else before[u])
    && (forall u :: u in before ==> before[u] != jobId)
  }

  lemma PatchedDevice(o: GPUObservation, before: map<string, nat>, after: map<string, nat>,
                      jobsBefore: map<nat, Job>, jobsAfter: map<nat, Job>, managed: Membership,
                      chosen: set<string>, job: Job)
    requires Granted(before, after, chosen, job.id) && jobsAfter == jobsBefore[job.id := job] && job.state.Starting?
    requires o.uuid in chosen ==> StatusOf(o, before, jobsBefore, managed).state.Free?
    ensures var was := StatusOf(o, before, jobsBefore, managed);
            StatusOf(o, after, jobsAfter, managed)
            == if o.uuid in chosen then was.(state := GPUState.Reserved, owner := Some(job.id)) else was
  {
    if o.uuid in chosen {
      ReservedDevice(o, before, after, jobsBefore, jobsAfter, managed, job);
    } else {
      UntouchedDevice(o, before, after, jobsBefore, jobsAfter, managed);
    }
  }

  /** Patching the selected statuses gives what classifying from scratch would give once the
      reservation is in the tables, for every field of every device. */
  lemma OverlayIsReclassification(
    observations: seq<GPUObservation>, before: map<string, nat>, after: map<string, nat>,
    jobsBefore: map<nat, Job>, jobsAfter: map<nat, Job>, managed: Membership,
    count: int, job: Job)
    requires DistinctUuids(observations) && count > 0 && job.state.Starting?
    requires var statuses := Classified(observations, before, jobsBefore, managed);
             Granted(before, after, Uuids(SelectGpus(statuses, count)), job.id)
    requires jobsAfter == jobsBefore[job.id := job]
    ensures var statuses := Classified(observations, before, jobsBefore, managed);
            Overlay(statuses, Uuids(SelectGpus(statuses, count)), job.id)
            == Classified(observations, after, jobsAfter, managed)
  {
    var ordered := ByIndex(observations);
    var statuses := Classified(observations, before, jobsBefore, managed);
    var picks := SelectGpus(statuses, count);
    assert forall c :: c in picks ==> c in statuses && c.state.Free? by { SelectionIsLowest(statuses, count); }
    assert DistinctUuids(ordered) by { SortKeepsDistinct(observations, (o: GPUObservation) => o.index); }
    forall k | 0 <= k < |ordered|
      ensures Overlay(statuses, Uuids(picks), job.id)[k] == Classified(observations, after, jobsAfter, managed)[k]
    {
      if ordered[k].uuid in Uuids(picks) {
        SelectedIsFree(ordered, statuses, picks, k);
      }
      PatchedDevice(ordered[k], before, after, jobsBefore, jobsAfter, managed, Uuids(picks), job);
    }
  }
}
