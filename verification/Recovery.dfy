/** What startup recovery and the reaping of recovered jobs decide
    (`_recover_locked` and `_reap_recovered_jobs_locked` in src/gq/scheduler.py). */
module Recovery {
  import opened Models
  import opened Tables
  import opened Invariants

  datatype Verdict = Keep | End(to: JobState, reason: Reason)

  predicate Rebooted(job: Job, boot: Option<nat>) {
    job.process.Some? && job.process.value.boot.Some? && boot.Some? && job.process.value.boot != boot
  }

  function RecoveryVerdict(job: Job, boot: Option<nat>, alive: bool, known: set<string>): Verdict {
    if Rebooted(job, boot) then End(JobState.Failed, MachineRebooted)
    else if !alive then End(if job.state.Cancelling? then JobState.Cancelled else JobState.Failed, DeadAtRecovery)
    else if job.gpus == [] || exists u :: u in job.Uuids() && u !in known then End(JobState.Orphaned, AllocationMissing)
    else Keep
  }

  function ReapVerdict(job: Job, boot: Option<nat>, alive: bool): Verdict {
    var to := if job.state.Cancelling? then JobState.Cancelled else JobState.Failed;
    if Rebooted(job, boot) then End(to, MachineRebooted)
    else if alive then Keep
    else End(to, ExitedAfterRestart)
  }

  function Applied(s: Store, id: nat, verdict: Verdict): Store {
    if verdict.Keep? then s else Finish(s, id, verdict.to, None, Some(verdict.reason))
  }

  /** The active jobs one after another; `alive` holds the jobs whose group test said "alive". */
  function RecoverAll(s: Store, ids: seq<nat>, boot: Option<nat>, alive: set<nat>, known: set<string>): Store {
    if ids == [] then s
    else
      var last := |ids| - 1;
      var before := RecoverAll(s, ids[..last], boot, alive, known);
      if ids[last] in before.jobs
      then Applied(before, ids[last], RecoveryVerdict(before.jobs[ids[last]], boot, ids[last] in alive, known))
      else before
  }

  /** Only the answers for the listed jobs matter. */
  lemma {:induction false} OnlyListedAnswersMatter(s: Store, ids: seq<nat>, boot: Option<nat>, a: set<nat>,
    b: set<nat>, known: set<string>)
    requires forall k :: 0 <= k < |ids| ==> (ids[k] in a <==> ids[k] in b)
    ensures RecoverAll(s, ids, boot, a, known) == RecoverAll(s, ids, boot, b, known)
  {
    if ids != [] {
      OnlyListedAnswersMatter(s, ids[..|ids| - 1], boot, a, b, known);
    }
  }

  /** The row a verdict leaves behind. */
  ghost predicate Carried(row: Job, row': Job, verdict: Verdict) {
    if verdict.Keep? then row' == row
    else row'.endTime.Some? && row' == row.(state := verdict.to, endTime := row'.endTime, exitCode := None,
                                            reason := Some(verdict.reason))
  }

  lemma {:induction false} EveryVerdictIsCarriedOut(s: Store, ids: seq<nat>, boot: Option<nat>, alive: set<nat>,
    known: set<string>)
    requires forall k :: 0 <= k < |ids| ==> ids[k] in s.jobs
    requires forall i, j :: 0 <= i < j < |ids| ==> ids[i] != ids[j]
    ensures var s' := RecoverAll(s, ids, boot, alive, known);
            && s'.jobs.Keys == s.jobs.Keys && s'.nextId == s.nextId && s'.holds == s.holds
            && (forall id :: id in s.jobs && id !in ids ==> s'.jobs[id] == s.jobs[id])
            && (forall id :: id in s.jobs && id in ids ==>
                  Carried(s.jobs[id], s'.jobs[id], RecoveryVerdict(s.jobs[id], boot, id in alive, known)))
  {
    if ids != [] {
      var last := |ids| - 1;
      EveryVerdictIsCarriedOut(s, ids[..last], boot, alive, known);
      var before := RecoverAll(s, ids[..last], boot, alive, known);
      var s' := RecoverAll(s, ids, boot, alive, known);
      assert ids[last] !in ids[..last];
      forall id | id in s.jobs && id in ids
        ensures Carried(s.jobs[id], s'.jobs[id], RecoveryVerdict(s.jobs[id], boot, id in alive, known))
      {
        if id != ids[last] {
          var k :| 0 <= k < |ids| && ids[k] == id;
          assert ids[..last][k] == id;
        }
      }
    }
  }

  // ---- What recovery and reaping must do, in the columns of a row ----

  /** The boot id on the job's record is not the machine's. */
  predicate ShowsReboot(row: Job, boot: Option<nat>) {
    && row.process.Some? && row.process.value.boot.Some? && boot.Some?
    && row.process.value.boot.value != boot.value
  }

  /** The job has GPU rows, and every one of its devices was seen. */
  predicate AllSeen(row: Job, known: set<string>) {
    row.gpus != [] && forall g :: g in row.gpus ==> g.uuid in known
  }

  /** The row was ended in this state for this reason, without an exit code. */
  ghost predicate EndedFor(row: Job, row': Job, to: JobState, reason: Reason) {
    && row'.state == to && row'.reason == Some(reason) && row'.exitCode.None? && row'.endTime.Some?
    && row'.gpus == row.gpus && row'.process == row.process && row'.spec == row.spec && row'.startTime == row.startTime
  }

  /** What became of one job: a reboot makes it FAILED, even a CANCELLING one; a dead group FAILED, or
      CANCELLED if that was under way; a device that was not seen ORPHANED; else the row is as it was. */
  ghost predicate Recovered(row: Job, row': Job, boot: Option<nat>, alive: bool, known: set<string>) {
    if !Unfinished(row.state) then row' == row
    else if ShowsReboot(row, boot) then EndedFor(row, row', JobState.Failed, MachineRebooted)
    else if !alive then
      EndedFor(row, row', if row.state.Cancelling? then JobState.Cancelled else JobState.Failed, DeadAtRecovery)
    else if !AllSeen(row, known) then EndedFor(row, row', JobState.Orphaned, AllocationMissing)
    else row' == row
  }

  /** The same for a job nobody waits for, while the daemon runs. */
  ghost predicate ReapedAs(row: Job, row': Job, boot: Option<nat>, alive: bool) {
    var to := if row.state.Cancelling? then JobState.Cancelled else JobState.Failed;
    if ShowsReboot(row, boot) then EndedFor(row, row', to, MachineRebooted)
    else if !alive then EndedFor(row, row', to, ExitedAfterRestart)
    else row' == row
  }

  /** Recovery does to every job of the tables what it must. */
  lemma RecoveryIsExact(s: Store, boot: Option<nat>, alive: set<nat>, known: set<string>, id: nat)
    requires IdsOk(s) && id in s.jobs
    ensures var s' := RecoverAll(s, ActiveIds(s), boot, alive, known);
            id in s'.jobs && Recovered(s.jobs[id], s'.jobs[id], boot, id in alive, known)
  {
    EveryVerdictIsCarriedOut(s, ActiveIds(s), boot, alive, known);
    assert id in ActiveIds(s) <==> s.jobs[id].state.Active();
    var s' := RecoverAll(s, ActiveIds(s), boot, alive, known);
    if s.jobs[id].state.Active() {
      CarriedMeansRecovered(s.jobs[id], s'.jobs[id], boot, id in alive, known);
    }
  }

  lemma CarriedMeansRecovered(row: Job, row': Job, boot: Option<nat>, alive: bool, known: set<string>)
    requires row.state.Active() && Carried(row, row', RecoveryVerdict(row, boot, alive, known))
    ensures Recovered(row, row', boot, alive, known)
  {
    assert row.Uuids() <= known <==> forall g :: g in row.gpus ==> g.uuid in known;
  }

  lemma HolderHeldBefore(row: Job, row': Job, boot: Option<nat>, alive: bool, known: set<string>, u: string)
    requires Recovered(row, row', boot, alive, known) && row'.Holds(u)
    ensures row.Holds(u)
  {
  }

  /** Recovery adds no reservation. */
  lemma RecoveryAddsNoReservation(s: Store, boot: Option<nat>, alive: set<nat>, known: set<string>)
    requires IdsOk(s)
    ensures ReservedUuids(RecoverAll(s, ActiveIds(s), boot, alive, known)) <= ReservedUuids(s)
  {
    var s' := RecoverAll(s, ActiveIds(s), boot, alive, known);
    assert s'.jobs.Keys == s.jobs.Keys by { EveryVerdictIsCarriedOut(s, ActiveIds(s), boot, alive, known); }
    forall u | u in ReservedUuids(s') ensures u in ReservedUuids(s) {
      var owner := Assignments(s')[u];
      RecoveryIsExact(s, boot, alive, known, owner);
      HolderHeldBefore(s.jobs[owner], s'.jobs[owner], boot, owner in alive, known, u);
    }
  }

  lemma {:induction false} KeepersStay(s: Store, ids: seq<nat>, boot: Option<nat>, alive: set<nat>, known: set<string>)
    requires forall k :: 0 <= k < |ids| ==>
            ids[k] in s.jobs && RecoveryVerdict(s.jobs[ids[k]], boot, ids[k] in alive, known).Keep?
    ensures RecoverAll(s, ids, boot, alive, known) == s
  {
    if ids != [] {
      KeepersStay(s, ids[..|ids| - 1], boot, alive, known);
    }
  }

  lemma SurvivorIsKeptAgain(row: Job, row': Job, boot: Option<nat>, alive: bool, known: set<string>)
    requires Recovered(row, row', boot, alive, known) && row'.state.Active()
    ensures RecoveryVerdict(row', boot, alive, known).Keep?
  {
    assert row.Uuids() <= known <==> forall g :: g in row.gpus ==> g.uuid in known;
  }

  /** Recovering again with the same answers changes nothing at all. */
  lemma RecoveryIsIdempotent(s: Store, boot: Option<nat>, alive: set<nat>, known: set<string>)
    requires IdsOk(s)
    ensures var s' := RecoverAll(s, ActiveIds(s), boot, alive, known);
            RecoverAll(s', ActiveIds(s'), boot, alive, known) == s'
  {
    var s' := RecoverAll(s, ActiveIds(s), boot, alive, known);
    var ids := ActiveIds(s');
    assert s'.jobs.Keys == s.jobs.Keys by { EveryVerdictIsCarriedOut(s, ActiveIds(s), boot, alive, known); }
    forall k | 0 <= k < |ids|
      ensures ids[k] in s'.jobs && RecoveryVerdict(s'.jobs[ids[k]], boot, ids[k] in alive, known).Keep?
    {
      assert ids[k] in ids;
      RecoveryIsExact(s, boot, alive, known, ids[k]);
      SurvivorIsKeptAgain(s.jobs[ids[k]], s'.jobs[ids[k]], boot, ids[k] in alive, known);
    }
    KeepersStay(s', ids, boot, alive, known);
  }
}
