/** The Database object: the tables as fields, each transaction a method
    (src/gq/database.py). */
module DatabaseModel {
  import opened Models
  import opened Tables
  import Allocator

  lemma KeyQueryIsExact(s: Store, key: string)
    ensures KeyHolder(s, key).Some? <==> exists id :: id in s.jobs && id < s.nextId && Takes(s.jobs[id], key)
    ensures KeyHolder(s, key).Some? ==> KeyHolder(s, key).value in s.jobs && Takes(s.jobs[KeyHolder(s, key).value], key)
  {
    var holders := Where(s, (job: Job) => job.spec.key == Some(key) && !job.state.ReleasesKey());
    if holders != [] {
      assert holders[|holders| - 1] in holders;
    }
    forall id | id in s.jobs && id < s.nextId && Takes(s.jobs[id], key) ensures holders != [] {
      assert id in holders;
    }
  }

  class Database {
    var jobs: map<nat, Job>
    var nextId: nat
    var holds: map<string, HoldRow>
    var clock: nat

    function View(): Store
      reads this
    {
      Store(jobs, nextId, holds, clock)
    }

    constructor ()
      ensures View() == EMPTY
    {
      jobs, nextId, holds, clock := map[], 1, map[], 0;
    }

    /** Later readings of the clock are later times. */
    method UtcNow() returns (now: nat)
      modifies this`clock
      ensures now == old(clock) && View() == Ticked(old(View()))
    {
      now := clock;
      clock := clock + 1;
    }

    /** Time passes. */
    method Wait(micros: nat)
      modifies this`clock
      ensures View() == old(View()).(clock := old(clock) + micros)
    {
      clock := clock + micros;
    }

    /** The key is checked and the row inserted in one transaction. */
    method CreateJob(spec: JobSpec, retryOf: Option<nat>) returns (r: Creation)
      requires spec.requestedGpus >= 1
      modifies this
      ensures r.KeyInUse?
         <==> spec.key.Some? && exists id :: id in old(jobs) && id < old(nextId) && Takes(old(jobs)[id], spec.key.value)
      ensures r.KeyInUse? ==> r.holder in jobs && Takes(jobs[r.holder], spec.key.value) && jobs == old(jobs)
      ensures r.Created? ==>
                && r.id == old(nextId) && r.id in jobs && jobs == old(jobs)[r.id := jobs[r.id]] && nextId == r.id + 1
                && jobs[r.id].id == r.id && jobs[r.id].spec == spec && jobs[r.id].retryOf == retryOf
                && jobs[r.id].state.Waiting? && jobs[r.id].submitTime == old(clock) && jobs[r.id].gpus == []
      ensures (View(), r) == Tables.CreateJob(old(View()), spec, retryOf)
    {
      var submitted := UtcNow();
      if spec.key.Some? {
        var holder := KeyHolder(View(), spec.key.value);
        assert holder == KeyHolder(old(View()), spec.key.value);
        KeyQueryIsExact(View(), spec.key.value);
        if holder.Some? {
          return KeyInUse(holder.value);
        }
      }
      var row := Job(nextId, spec, JobState.Waiting, submitted, None, None, None, None, None, [], retryOf);
      jobs := jobs[nextId := row];
      r := Created(nextId);
      nextId := nextId + 1;
    }

    /** WAITING -> STARTING together with the complete assignment, or nothing. */
    method Reserve(id: nat, gpus: seq<GPUObservation>) returns (ok: bool)
      modifies this
      ensures (View(), ok) == Tables.Reserve(old(View()), id, Allocator.ObservedSlots(gpus))
    {
      var now := UtcNow();
      ok := id in jobs && jobs[id].state.Waiting?;
      if ok {
        jobs := jobs[id := jobs[id].(state := JobState.Starting, startTime := Some(now))];
        for i := 0 to |gpus|
          invariant id in old(jobs) && id in jobs
          invariant nextId == old(nextId) && holds == old(holds) && clock == old(clock) + 1
          invariant |jobs[id].gpus| == |old(jobs)[id].gpus| + i
          invariant forall k :: 0 <= k < |old(jobs)[id].gpus| ==> jobs[id].gpus[k] == old(jobs)[id].gpus[k]
          invariant forall k :: 0 <= k < i ==> jobs[id].gpus[|old(jobs)[id].gpus| + k] == gpus[k].Slot()
          invariant jobs == old(jobs)[id := old(jobs)[id].(state := JobState.Starting, startTime := Some(now),
                                                           gpus := jobs[id].gpus)]
        {
          jobs := jobs[id := jobs[id].(gpus := jobs[id].gpus + [gpus[i].Slot()])];
        }
        assert jobs[id].gpus == old(jobs)[id].gpus + Allocator.ObservedSlots(gpus);
      }
    }

    /** STARTING -> RUNNING with the identity of the process, or nothing. */
    method MarkRunning(id: nat, process: ProcessRecord) returns (ok: bool)
      modifies this
      ensures ok <==> id in old(jobs) && old(jobs)[id].state.Starting?
      ensures nextId == old(nextId) && holds == old(holds) && clock == old(clock) && jobs.Keys == old(jobs).Keys
      ensures forall j :: j in jobs && (j != id || !ok) ==> jobs[j] == old(jobs)[j]
      ensures ok ==> jobs[id].state.Running? && jobs[id].process == Some(process) && jobs[id].gpus == old(jobs)[id].gpus
      ensures (View(), ok) == Tables.MarkRunning(old(View()), id, process)
    {
      ok := id in jobs && jobs[id].state.Starting?;
      if ok {
        jobs := jobs[id := jobs[id].(state := JobState.Running, process := Some(process))];
      }
    }

    /** STARTING or RUNNING -> CANCELLING, keeping GPUs and process, or nothing. */
    method SetCancelling(id: nat) returns (ok: bool)
      modifies this
      ensures ok <==> id in old(jobs) && (old(jobs)[id].state.Starting? || old(jobs)[id].state.Running?)
      ensures nextId == old(nextId) && holds == old(holds) && clock == old(clock) && jobs.Keys == old(jobs).Keys
      ensures forall j :: j in jobs && (j != id || !ok) ==> jobs[j] == old(jobs)[j]
      ensures ok ==>
              && jobs[id].state.Cancelling? && jobs[id].gpus == old(jobs)[id].gpus
              && jobs[id].process == old(jobs)[id].process
      ensures (View(), ok) == Tables.SetCancelling(old(View()), id)
    {
      ok := id in jobs && (jobs[id].state.Starting? || jobs[id].state.Running?);
      if ok {
        jobs := jobs[id := jobs[id].(state := JobState.Cancelling)];
      }
    }

    /** Refuses a state that is not terminal; does not look at the state the job is in. */
    method Finish(id: nat, to: JobState, exitCode: Option<int>, reason: Option<Reason>) returns (ok: bool)
      modifies this
      ensures ok <==> to.Terminal()
      ensures nextId == old(nextId) && holds == old(holds) && jobs.Keys == old(jobs).Keys
      ensures forall j :: j in jobs && (j != id || !ok) ==> jobs[j] == old(jobs)[j]
      ensures ok && id in jobs ==>
                && jobs[id].state == to && jobs[id].endTime == Some(old(clock)) && clock > old(clock)
                && jobs[id].exitCode == exitCode && jobs[id].reason == reason && jobs[id].gpus == old(jobs)[id].gpus
      ensures View() == if ok then Tables.Finish(old(View()), id, to, exitCode, reason) else old(View())
    {
      if !to.Terminal() {
        return false;
      }
      var now := UtcNow();
      if id in jobs {
        jobs := jobs[id := jobs[id].(state := to, endTime := Some(now), exitCode := exitCode, reason := reason)];
      }
      ok := true;
    }

    /** Deletes row by row and rolls the whole batch back at the first missing or active job. */
    method DeleteJobs(ids: seq<nat>) returns (ok: bool)
      modifies this
      ensures (View(), ok) == Tables.DeleteJobs(old(View()), ids)
    {
      var saved := jobs;
      ok := true;
      var i := 0;
      while i < |ids| && ok
        invariant 0 <= i <= |ids| && saved == old(jobs)
        invariant nextId == old(nextId) && holds == old(holds) && clock == old(clock)
        invariant ok ==> DeleteRows(old(jobs), ids) == DeleteRows(jobs, ids[i..])
        invariant !ok ==> DeleteRows(old(jobs), ids).None?
        decreases |ids| - i, ok
      {
        assert ids[i..][0] == ids[i] && ids[i..][1..] == ids[i + 1..];
        if ids[i] in jobs && jobs[ids[i]].state.Terminal() {
          jobs := jobs - {ids[i]};
          i := i + 1;
        } else {
          ok := false;
        }
      }
      if !ok {
        jobs := saved;
      }
    }

    /** The group is held or free afterwards; tells whether it was the other way before. */
    method SetGroupHold(group: string, held: bool, reason: Option<string>) returns (changed: bool)
      modifies this
      ensures group in HeldGroups(View()) <==> held
      ensures changed <==> held != (group in old(HeldGroups(View())))
      ensures jobs == old(jobs) && nextId == old(nextId) && (!changed ==> View() == old(View()))
      ensures (View(), changed) == Tables.SetGroupHold(old(View()), group, held, reason)
    {
      if group in holds && holds[group].held == held {
        return false;
      }
      if group !in holds && !held {
        return false;
      }
      var now := UtcNow();
      holds := holds[group := HoldRow(held, reason, now)];
      changed := true;
    }
  }
}
