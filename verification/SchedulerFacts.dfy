/** What the methods of the Scheduler rest on: the answers they give, what a pass, a bulk cancel, a
    retry and a recovery have done so far, and how each turn of their loops keeps that. */
module SchedulerFacts {
  import opened Models
  import opened Sorting
  import opened Allocator
  import opened Tables
  import opened Processes
  import opened Protocol
  import opened Invariants
  import opened Safety
  import opened FailFast
  import Streaks
  import opened Pass
  import opened Recovery
  import opened Answers
  import opened Calls
  import opened KernelModel

  /** A compute process belongs to a job if it was in the group on the job's record when asked about. */
  ghost function ManagedWhenAsked(seen: map<(string, int), World>): Membership {
    (uuid: string, pid: int, job: Job) =>
      WasMember(seen, uuid, pid, job)
  }

  /** When it was asked about, the process was a member of the group on the job's record. */
  ghost predicate WasMember(seen: map<(string, int), World>, uuid: string, pid: int, job: Job) {
    && (uuid, pid) in seen && job.process.Some?
    && pid in seen[(uuid, pid)].procs && seen[(uuid, pid)].procs[pid].pgid == job.process.value.pgid
  }

  /** The status of a readable device that a job holds: RUNNING or RESERVED if all its compute
      processes were members of the job's group, and otherwise UNKNOWN with the others listed. */
  ghost predicate Judged(status: GPUStatus, o: GPUObservation, job: Job, seen: map<(string, int), World>) {
    && status.uuid == o.uuid && status.owner == Some(job.id)
    && (job.state.Orphaned? ==> status.state.Unknown?)
    && (!job.state.Orphaned? ==>
          if forall k :: 0 <= k < |o.processes| ==> WasMember(seen, o.uuid, o.processes[k].pid, job)
          then status.state == (if job.state.Starting? then GPUState.Reserved else GPUState.Running)
          else && status.state.Unknown? && status.detail.Conflicts?
               && forall pid :: pid in status.detail.pids <==> exists k ::
                    && 0 <= k < |o.processes| && o.processes[k].pid == pid
                    && !WasMember(seen, o.uuid, o.processes[k].pid, job))
  }

  lemma DeviceIsJudged(o: GPUObservation, assignments: map<string, nat>, jobs: map<nat, Job>, id: nat,
                       seen: map<(string, int), World>)
    requires Readable(o) && o.uuid in assignments && assignments[o.uuid] == id && id in jobs && jobs[id].id == id
    ensures Judged(StatusOf(o, assignments, jobs, ManagedWhenAsked(seen)), o, jobs[id], seen)
  {
    var pids := ConflictPids(o.uuid, o.processes, jobs[id], ManagedWhenAsked(seen));
    assert pids == [] <==> forall k :: 0 <= k < |o.processes| ==> WasMember(seen, o.uuid, o.processes[k].pid, jobs[id]);
  }

  /** Every readable device that a job holds is listed, judged by the answers. */
  ghost predicate AllJudged(s: Store, observations: seq<GPUObservation>, statuses: seq<GPUStatus>,
                            seen: map<(string, int), World>) {
    forall o, id :: o in observations && Readable(o) && HeldIn(s, o.uuid, id) ==>
      IsJudged(statuses, o, s.jobs[id], seen)
  }

  ghost predicate IsJudged(statuses: seq<GPUStatus>, o: GPUObservation, job: Job, seen: map<(string, int), World>) {
    exists status :: status in statuses && Judged(status, o, job, seen)
  }

  lemma OwnedDevicesAreJudged(h: History, observations: seq<GPUObservation>, seen: map<(string, int), World>)
    requires Legal(h)
    ensures var s := State(h).store;
            AllJudged(s, observations, Classified(observations, Assignments(s), s.jobs, ManagedWhenAsked(seen)), seen)
  {
    var s := State(h).store;
    var statuses := Classified(observations, Assignments(s), s.jobs, ManagedWhenAsked(seen));
    assert IdsOk(s) by { InvariantHolds(h); }
    AssignmentsAreAFunction(h);
    forall o, id | o in observations && Readable(o) && HeldIn(s, o.uuid, id)
      ensures IsJudged(statuses, o, s.jobs[id], seen)
    {
      DeviceIsJudged(o, Assignments(s), s.jobs, id, seen);
      DeviceIsListed(observations, o, Assignments(s), s.jobs, ManagedWhenAsked(seen));
    }
  }

  lemma DeviceIsListed(observations: seq<GPUObservation>, o: GPUObservation, assignments: map<string, nat>,
                       jobs: map<nat, Job>, managed: Membership)
    requires o in observations
    ensures StatusOf(o, assignments, jobs, managed) in Classified(observations, assignments, jobs, managed)
  {
    SortKeepsMembers(observations, (x: GPUObservation) => x.index, o);
    var k :| 0 <= k < |ByIndex(observations)| && ByIndex(observations)[k] == o;
    assert Classified(observations, assignments, jobs, managed)[k] == StatusOf(o, assignments, jobs, managed);
  }

  /** While the job's own group lives, in the boot it was started in, its members are exactly the
      processes of that group. */
  lemma MembersAreOwn(h: History, path: seq<ProcEvent>, moment: World, id: nat, pid: int)
    requires Legal(h) && PathPossible(State(h).world, path) && OnPath(State(h).world, path, moment)
    requires id in State(h).store.jobs && State(h).store.jobs[id].process.Some? && id in State(h).spawned
    requires State(h).spawned[id].boot == State(h).world.boot && GroupAlive(moment, State(h).spawned[id].lifetime)
    ensures pid in moment.procs && moment.procs[pid].pgid == State(h).store.jobs[id].process.value.pgid
       <==> pid in moment.procs && moment.procs[pid].lifetime == State(h).spawned[id].lifetime
  {
    InvariantHolds(h);
    RecordIsTheSpawnedProcess(h, id);
    MomentsAreSound(State(h).world, path, moment, State(h).spawned[id]);
    var q :| q in moment.procs && moment.procs[q].lifetime == State(h).spawned[id].lifetime;
  }

  function GroupOf(job: Job): Option<int> {
    if job.process.Some? then Some(job.process.value.pgid) else None
  }

  /** The questions about one device with this owner. */
  function DeviceQueries(o: GPUObservation, job: Job): (queries: seq<Query>)
    ensures |queries| == |o.processes|
    ensures forall k :: 0 <= k < |queries| ==> queries[k] == Query(o.uuid, o.processes[k].pid, GroupOf(job))
  {
    seq(|o.processes|, k requires 0 <= k < |o.processes| => Query(o.uuid, o.processes[k].pid, GroupOf(job)))
  }

  /** The questions a classification asks: every process of a device that has an owner. */
  function QueriesOf(observations: seq<GPUObservation>, assignments: map<string, nat>, owners: map<nat, Job>)
    : (queries: seq<Query>)
    ensures forall q :: q in queries ==>
              && q.uuid in assignments && assignments[q.uuid] in owners
              && q.pgid == GroupOf(owners[assignments[q.uuid]])
  {
    if observations == [] then []
    else
      var o := observations[0];
      var rest := QueriesOf(observations[1..], assignments, owners);
      if o.uuid in assignments && assignments[o.uuid] in owners
      then DeviceQueries(o, owners[assignments[o.uuid]]) + rest
      else rest
  }

  lemma {:induction false} EveryProcessIsAskedAbout(observations: seq<GPUObservation>, assignments: map<string, nat>,
                                                    owners: map<nat, Job>, o: GPUObservation, k: nat)
    requires o in observations && o.uuid in assignments && assignments[o.uuid] in owners && k < |o.processes|
    ensures Query(o.uuid, o.processes[k].pid, GroupOf(owners[assignments[o.uuid]]))
            in QueriesOf(observations, assignments, owners)
  {
    if observations[0] == o {
      var asked := DeviceQueries(o, owners[assignments[o.uuid]]);
      assert asked[k] in asked;
    } else {
      EveryProcessIsAskedAbout(observations[1..], assignments, owners, o, k);
    }
  }

  lemma AnsweredAlike(observations: seq<GPUObservation>, assignments: map<string, nat>, owners: map<nat, Job>,
                      answers: map<(string, int), bool>, seen: map<(string, int), World>, managed: Membership)
    requires forall q :: q in QueriesOf(observations, assignments, owners) ==>
               && (q.uuid, q.pid) in answers && (q.uuid, q.pid) in seen
               && (answers[(q.uuid, q.pid)] <==> q.pgid.Some? && Member(seen[(q.uuid, q.pid)], q.pid, q.pgid.value))
    requires forall uuid, pid, job :: managed(uuid, pid, job) <==> (uuid, pid) in answers && answers[(uuid, pid)]
    ensures Classified(observations, assignments, owners, managed)
         == Classified(observations, assignments, owners, ManagedWhenAsked(seen))
    ensures forall o :: o in observations && o.uuid in assignments && assignments[o.uuid] in owners ==>
              forall k :: 0 <= k < |o.processes| ==> (o.uuid, o.processes[k].pid) in seen
  {
    forall o, k | o in observations && o.uuid in assignments && assignments[o.uuid] in owners && 0 <= k < |o.processes|
      ensures (o.uuid, o.processes[k].pid) in seen
    {
      EveryProcessIsAskedAbout(observations, assignments, owners, o, k);
    }
    forall o | o in observations ensures AnswerAlike(o, assignments, owners, managed, ManagedWhenAsked(seen)) {
      if o.uuid in assignments && assignments[o.uuid] in owners {
        var job := owners[assignments[o.uuid]];
        forall k | 0 <= k < |o.processes|
          ensures managed(o.uuid, o.processes[k].pid, job) == ManagedWhenAsked(seen)(o.uuid, o.processes[k].pid, job)
        {
          EveryProcessIsAskedAbout(observations, assignments, owners, o, k);
        }
      }
    }
    AnswersSuffice(observations, assignments, owners, managed, ManagedWhenAsked(seen));
  }

  /** The daemon knows what a scan found. After a failed scan it still lists every device it knew, each
      with an error and without processes. */
  ghost predicate Scanned(before: seq<GPUObservation>, snapshot: Snapshot, after: seq<GPUObservation>,
                          error: Option<string>) {
    match snapshot
    case Devices(found) => after == found && error.None?
    case ScanFailed(text) =>
      && error == Some(text) && |after| == |before|
      && forall k :: 0 <= k < |after| ==>
           && after[k] == before[k].(processes := [], error := after[k].error)
           && after[k].error.Some? && after[k].error.value != ""
  }

  /** After a failure in these rows the group is held if it was, or if the threshold is set and the newest
      outcomes since its release are a full streak. */
  ghost predicate HeldAsItMust(jobs: map<nat, Job>, holds: map<string, HoldRow>, group: string,
                               before: set<string>, after: set<string>, count: int, limit: int) {
    group in after <==> MustBeHeld(jobs, holds, group, before, count, limit)
  }

  ghost predicate MustBeHeld(jobs: map<nat, Job>, holds: map<string, HoldRow>, group: string, before: set<string>,
                             count: int, limit: int) {
    || group in before
    || (count > 0 && exists last :: Streaks.Streak(Store(jobs, 0, holds, 0), group, last, count, limit))
  }

  lemma FailureIsNoted(h: History, group: string)
    requires Legal(h) && Enabled(State(h), Note) && State(Then(h, Note)).memory.Some?
    requires var s := State(h); var id := s.memory.value.pending.value;
             id in s.store.jobs && s.store.jobs[id].spec.group == Some(group)
    ensures var s := State(h).store; var m := State(h).memory.value;
            HeldAsItMust(s.jobs, s.holds, group, m.held.Keys, State(Then(h, Note)).memory.value.held.Keys,
                         m.failFastCount, m.failFastTime)
  {
    var s, m := State(h).store, State(h).memory.value;
    if group !in m.held {
      Streaks.HeldExactlyForAStreak(h, group);
      forall last ensures Streaks.Streak(s, group, last, m.failFastCount, m.failFastTime)
                     <==> Streaks.Streak(Store(s.jobs, 0, s.holds, 0), group, last, m.failFastCount, m.failFastTime) {
        SameStreak(s, Store(s.jobs, 0, s.holds, 0), group, last, m.failFastCount, m.failFastTime);
      }
    }
  }

  lemma SameStreak(s: Store, t: Store, group: string, last: seq<nat>, count: int, limit: int)
    requires s.jobs == t.jobs && s.holds == t.holds
    ensures Streaks.Streak(s, group, last, count, limit) <==> Streaks.Streak(t, group, last, count, limit)
  {
  }

  /** The FREE statuses are the devices that are allocatable now. */
  ghost predicate StatusesFit(statuses: seq<GPUStatus>, s: System) {
    s.memory.Some? &&
    var free := ObservedSlots(FreeNow(s));
    forall count :: count >= 0 ==>
      SlotsOf(SelectGpus(statuses, count)) == if |free| >= count then free[..count] else []
  }

  lemma OneMoreAnswer(base: History, mid: History, h: History, answers: set<nat>, id: nat, alive: bool)
    requires Legal(base) && Legal(mid) && Legal(h) && Extends(base, mid) && Extends(mid, h)
    requires AllWereAlive(base, mid, answers) && (alive ==> WasAlive(mid, h, id))
    requires State(base).spawned == State(mid).spawned && State(base).world.boot == State(mid).world.boot
    ensures Extends(base, h) && AllWereAlive(base, h, if alive then answers + {id} else answers)
  {
    ExtendsTransitive(base, mid, h);
    AnswersStand(base, base, mid, h, answers);
    if alive {
      AnswerStands(base, mid, h, h, id);
    }
  }

  /** A terminal job of the wanted states that ended before this moment of the tables' clock. */
  predicate EndedBy(job: Job, states: seq<JobState>, moment: int) {
    && HasEnded(job.state) && (states == [] || job.state in states)
    && job.endTime.Some? && job.endTime.value < moment
  }

  /** What became of a job that was unfinished at the first point: what recovery must make of an
      "alive", and then its group was alive or a leaderless successor came by, or what it must make of
      a "dead", and then its group is gone. */
  ghost predicate TakenOver(base: History, h: History, boot: Option<nat>)
    requires Legal(base) && Legal(h)
  {
    && State(h).memory.Some?
    && var observations := State(h).memory.value.observations;
    TakenOverSeeing(base, h, boot, set k | 0 <= k < |observations| :: observations[k].uuid)
  }

  ghost predicate TakenOverSeeing(base: History, h: History, boot: Option<nat>, seen: set<string>)
    requires Legal(base) && Legal(h)
  {
    var before := State(base).store.jobs;
    var after := State(h).store.jobs;
    forall id :: id in before && Unfinished(before[id].state) ==>
      && id in after
      && (|| (Recovered(before[id], after[id], boot, true, seen) && WasAlive(base, h, id))
          || (Recovered(before[id], after[id], boot, false, seen) && Gone(State(h), id)))
  }

  /** A device counts as seen if a scan lists it, be it with an error or without. */
  lemma SeenIsListed(observations: seq<GPUObservation>)
    ensures SeenUuids(observations) == set k | 0 <= k < |observations| :: observations[k].uuid
  {
    forall o | o in observations ensures exists k :: 0 <= k < |observations| && observations[k].uuid == o.uuid {
      var k :| 0 <= k < |observations| && observations[k] == o;
    }
  }

  lemma SurvivorsAreTakenOver(base: History, mid: History, h: History, boot: Option<nat>, answers: set<nat>)
    requires Legal(base) && Legal(mid) && Legal(h) && Quiet(State(mid)) && PassSince(mid, h) && Extends(base, mid)
    requires IdsOk(State(base).store) && State(mid).memory.Some?
    requires State(mid).store == RecoverAll(State(base).store, ActiveIds(State(base).store), boot, answers,
                                            SeenUuids(State(mid).memory.value.observations))
    requires AllWereAlive(base, mid, answers)
    ensures TakenOver(base, h, boot)
  {
    var observations := State(mid).memory.value.observations;
    assert State(h).memory.Some? && State(h).memory.value.observations == observations by {
      PassIsMonotone(mid, h);
    }
    SeenIsListed(observations);
    SurvivorsSeeing(base, mid, h, boot, answers, SeenUuids(observations));
  }

  lemma SurvivorsSeeing(base: History, mid: History, h: History, boot: Option<nat>, answers: set<nat>,
                        seen: set<string>)
    requires Legal(base) && Legal(mid) && Legal(h) && Quiet(State(mid)) && PassSince(mid, h) && Extends(base, mid)
    requires IdsOk(State(base).store)
    requires State(mid).store == RecoverAll(State(base).store, ActiveIds(State(base).store), boot, answers, seen)
    requires AllWereAlive(base, mid, answers)
    ensures TakenOverSeeing(base, h, boot, seen)
  {
    var first := State(base).store;
    assert AllWereAlive(base, h, answers) by {
      PassExtends(mid, h);
      AnswersStand(base, base, mid, h, answers);
    }
    forall id | id in first.jobs && Unfinished(first.jobs[id].state)
      ensures id in State(h).store.jobs
      ensures Recovered(first.jobs[id], State(h).store.jobs[id], boot, id in answers, seen)
      ensures id !in answers ==> Gone(State(h), id)
    {
      SurvivorIsKept(first, mid, h, boot, answers, seen, id);
      EndedIsGone(h, id);
    }
  }

  lemma EndedIsGone(h: History, id: nat)
    requires Legal(h) && id in State(h).store.jobs
    ensures !State(h).store.jobs[id].state.Holding() ==> Gone(State(h), id)
  {
    InvariantHolds(h);
    assert RecordOk(State(h), id);
  }

  lemma SurvivorIsKept(first: Store, mid: History, h: History, boot: Option<nat>, answers: set<nat>,
                       seen: set<string>, id: nat)
    requires Legal(mid) && Legal(h) && Quiet(State(mid)) && PassSince(mid, h)
    requires IdsOk(first) && State(mid).store == RecoverAll(first, ActiveIds(first), boot, answers, seen)
    requires id in first.jobs && Unfinished(first.jobs[id].state)
    ensures id in State(h).store.jobs && Recovered(first.jobs[id], State(h).store.jobs[id], boot, id in answers, seen)
    ensures id !in answers ==> !State(h).store.jobs[id].state.Holding()
  {
    RecoveryIsExact(first, boot, answers, seen, id);
    TakenRowStays(first.jobs[id], mid, h, boot, id in answers, seen, id);
  }

  lemma TakenRowStays(row: Job, mid: History, h: History, boot: Option<nat>, alive: bool, seen: set<string>, id: nat)
    requires Legal(mid) && Legal(h) && Quiet(State(mid)) && PassSince(mid, h)
    requires id in State(mid).store.jobs && Unfinished(row.state)
    requires Recovered(row, State(mid).store.jobs[id], boot, alive, seen)
    ensures id in State(h).store.jobs && Recovered(row, State(h).store.jobs[id], boot, alive, seen)
    ensures !alive ==> !State(h).store.jobs[id].state.Holding()
  {
    PassKeepsRow(mid, h, id);
  }

  /** Unfinished jobs without a monitor became what they must for an "alive", and then their group was
      alive or a leaderless successor came by, or what they must for a "dead", and then it is gone. */
  ghost predicate UnwatchedWereAlive(base: History, h: History, watched: set<nat>, boot: Option<nat>)
    requires Legal(base) && Legal(h)
  {
    var before := State(base).store.jobs;
    var after := State(h).store.jobs;
    forall id :: id in before && Unfinished(before[id].state) && id !in watched ==>
      && id in after
      && (|| (ReapedAs(before[id], after[id], boot, true) && WasAlive(base, h, id))
          || (ReapedAs(before[id], after[id], boot, false) && Gone(State(h), id)))
  }

  lemma UnwatchedAreReaped(base: History, scanned: History, mid: History, h: History, watched: set<nat>,
                           boot: Option<nat>, answers: set<nat>)
    requires Legal(base) && Legal(scanned) && Legal(mid) && Legal(h)
    requires Quiet(State(mid)) && PassSince(mid, h) && Extends(scanned, mid)
    requires scanned.Then? && scanned.past == base && scanned.event.Scan?
    requires Reaped(State(scanned).store.jobs, State(mid).store.jobs, State(scanned).store.jobs.Keys, watched,
                    boot, answers)
    requires AllWereAlive(scanned, mid, answers)
    ensures UnwatchedWereAlive(base, h, watched, boot)
  {
    assert AllWereAlive(base, h, answers) by {
      PassExtends(mid, h);
      AnswersStand(base, scanned, mid, h, answers);
    }
    var first := State(base).store;
    assert State(scanned).store == first;
    forall id | id in first.jobs && Unfinished(first.jobs[id].state) && id !in watched
      ensures id in State(h).store.jobs
      ensures ReapedAs(first.jobs[id], State(h).store.jobs[id], boot, id in answers)
      ensures id !in answers ==> Gone(State(h), id)
    {
      UnwatchedRowIsReaped(first.jobs, mid, h, watched, boot, answers, id);
    }
  }

  lemma UnwatchedRowIsReaped(before: map<nat, Job>, mid: History, h: History, watched: set<nat>, boot: Option<nat>,
                             answers: set<nat>, id: nat)
    requires Legal(mid) && Legal(h) && Quiet(State(mid)) && PassSince(mid, h)
    requires Reaped(before, State(mid).store.jobs, before.Keys, watched, boot, answers)
    requires id in before && Unfinished(before[id].state) && id !in watched
    ensures id in State(h).store.jobs
    ensures ReapedAs(before[id], State(h).store.jobs[id], boot, id in answers)
    ensures id !in answers ==> Gone(State(h), id)
  {
    ReapedRowStays(before[id], mid, h, id, boot, id in answers);
    EndedIsGone(h, id);
  }

  lemma ReapedRowStays(row: Job, mid: History, h: History, id: nat, boot: Option<nat>, alive: bool)
    requires Legal(mid) && Legal(h) && Quiet(State(mid)) && PassSince(mid, h) && Unfinished(row.state)
    requires id in State(mid).store.jobs && Carried(row, State(mid).store.jobs[id], ReapVerdict(row, boot, alive))
    ensures id in State(h).store.jobs && ReapedAs(row, State(h).store.jobs[id], boot, alive)
    ensures !alive ==> !State(h).store.jobs[id].state.Holding()
  {
    PassKeepsRow(mid, h, id);
  }

  /** Within `done`, unwatched active jobs were judged; every other row is as it was. */
  ghost predicate Reaped(before: map<nat, Job>, after: map<nat, Job>, done: set<nat>, watched: set<nat>,
                         boot: Option<nat>, answers: set<nat>) {
    && after.Keys == before.Keys
    && forall id :: id in before ==>
         if id in done && before[id].state.Active() && id !in watched
         then Carried(before[id], after[id], ReapVerdict(before[id], boot, id in answers))
         else after[id] == before[id]
  }

  ghost predicate ReapedUpTo(first: Store, now: Store, ids: seq<nat>, i: nat, watched: set<nat>,
                             boot: Option<nat>, answers: set<nat>) {
    && ids == ActiveIds(first) && i <= |ids| && answers <= Ids(ids[..i])
    && Reaped(first.jobs, now.jobs, Ids(ids[..i]), watched, boot, answers)
  }

  lemma NextToReap(first: Store, now: Store, ids: seq<nat>, i: nat, watched: set<nat>, boot: Option<nat>,
                   answers: set<nat>)
    requires ReapedUpTo(first, now, ids, i, watched, boot, answers) && i < |ids|
    ensures ids[i] in now.jobs && now.jobs[ids[i]].state.Active()
  {
    ListedAreThere(first, ids);
    assert ids[i] !in ids[..i];
  }

  lemma RowReaped(first: map<nat, Job>, before: map<nat, Job>, now: map<nat, Job>, done: set<nat>, id: nat,
                  watched: set<nat>,
                  boot: Option<nat>, answers: set<nat>, alive: bool)
    requires Reaped(first, before, done, watched, boot, answers) && answers <= done
    requires id in before && id !in done && first[id].state.Active() && now.Keys == before.Keys
    requires forall j :: j in before && j != id ==> now[j] == before[j]
    requires if id in watched then now[id] == before[id]
             else Carried(before[id], now[id], ReapVerdict(before[id], boot, alive))
    ensures Reaped(first, now, done + {id}, watched, boot, if alive then answers + {id} else answers)
  {
  }

  lemma ReapedOneMore(first: Store, before: Store, now: Store, ids: seq<nat>, i: nat, watched: set<nat>,
                      boot: Option<nat>, answers: set<nat>, alive: bool)
    requires ReapedUpTo(first, before, ids, i, watched, boot, answers) && i < |ids|
    requires ids[i] in before.jobs
    requires if ids[i] in watched then now == before && !alive
             else now == Applied(before, ids[i], ReapVerdict(before.jobs[ids[i]], boot, alive))
    ensures ReapedUpTo(first, now, ids, i + 1, watched, boot, if alive then answers + {ids[i]} else answers)
  {
    var id := ids[i];
    assert Ids(ids[..i + 1]) == Ids(ids[..i]) + {id} by { assert ids[..i + 1] == ids[..i] + [id]; }
    assert id !in Ids(ids[..i]) && id in first.jobs && first.jobs[id].state.Active() by { ListedAreThere(first, ids); }
    RowReaped(first.jobs, before.jobs, now.jobs, Ids(ids[..i]), id, watched, boot, answers, alive);
  }

  lemma ReapingIsLegal(h: History, id: nat, boot: Option<nat>, alive: bool)
    requires Legal(h) && id in State(h).store.jobs && State(h).store.jobs[id].state.Active()
    requires !State(h).store.jobs[id].state.Starting?
    requires boot.Some? ==> boot.value == State(h).world.boot
    requires !alive ==> Gone(State(h), id)
    ensures var v := ReapVerdict(State(h).store.jobs[id], boot, alive);
            v.End? ==> MayFinish(State(h), id, v.to, None)
  {
    if Rebooted(State(h).store.jobs[id], boot) {
      RebootedIsGone(h, id, boot);
    }
  }

  ghost predicate RecoveredUpTo(first: Store, now: Store, ids: seq<nat>, i: nat, boot: Option<nat>,
                                answers: set<nat>, known: set<string>) {
    && ids == ActiveIds(first) && i <= |ids|
    && now == RecoverAll(first, ids[..i], boot, answers, known)
    && forall id :: id in answers ==> id in ids[..i] && id in first.jobs && first.jobs[id].process.Some?
  }

  /** The next job on the list is still as it was listed. */
  lemma NextToRecover(first: Store, now: Store, ids: seq<nat>, i: nat, boot: Option<nat>, answers: set<nat>,
                      known: set<string>)
    requires RecoveredUpTo(first, now, ids, i, boot, answers, known) && i < |ids|
    ensures ids[i] in first.jobs && ids[i] in now.jobs && now.jobs[ids[i]] == first.jobs[ids[i]]
    ensures now.jobs[ids[i]].state.Active() && ids[i] !in answers
  {
    ListedAreThere(first, ids);
    EveryVerdictIsCarriedOut(first, ids[..i], boot, answers, known);
    assert ids[i] !in ids[..i];
  }

  lemma RecoveredOneMore(first: Store, before: Store, now: Store, ids: seq<nat>, i: nat, boot: Option<nat>,
                         answers: set<nat>, known: set<string>, alive: bool)
    requires RecoveredUpTo(first, before, ids, i, boot, answers, known) && i < |ids|
    requires ids[i] in before.jobs
    requires now == Applied(before, ids[i], RecoveryVerdict(before.jobs[ids[i]], boot, alive, known))
    requires ids[i] !in answers && ids[i] in first.jobs && (alive ==> first.jobs[ids[i]].process.Some?)
    ensures RecoveredUpTo(first, now, ids, i + 1, boot, if alive then answers + {ids[i]} else answers, known)
  {
    var next := if alive then answers + {ids[i]} else answers;
    assert ids[..i + 1] == ids[..i] + [ids[i]];
    assert ids[i] !in ids[..i] by { ListedAreThere(first, ids); }
    OnlyListedAnswersMatter(first, ids[..i], boot, answers, next, known);
    RecoverLast(first, ids[..i], ids[i], boot, next, known);
  }

  lemma RecoverLast(s: Store, ids: seq<nat>, id: nat, boot: Option<nat>, answers: set<nat>, known: set<string>)
    requires id in RecoverAll(s, ids, boot, answers, known).jobs
    ensures var before := RecoverAll(s, ids, boot, answers, known);
            RecoverAll(s, ids + [id], boot, answers, known)
            == Applied(before, id, RecoveryVerdict(before.jobs[id], boot, id in answers, known))
  {
    assert (ids + [id])[..|ids|] == ids;
  }

  lemma ListedAreThere(s: Store, ids: seq<nat>)
    requires ids == ActiveIds(s)
    ensures forall k :: 0 <= k < |ids| ==> ids[k] in s.jobs && s.jobs[ids[k]].state.Active()
    ensures forall i, j :: 0 <= i < j < |ids| ==> ids[i] != ids[j]
  {
    forall k | 0 <= k < |ids| ensures ids[k] in s.jobs && s.jobs[ids[k]].state.Active() {
      assert ids[k] in ids;
    }
  }

  /** A job of an earlier boot has no process left. */
  lemma RebootedIsGone(h: History, id: nat, boot: Option<nat>)
    requires Legal(h) && id in State(h).store.jobs && Rebooted(State(h).store.jobs[id], boot)
    requires boot.Some? ==> boot.value == State(h).world.boot
    ensures Gone(State(h), id)
  {
    InvariantHolds(h);
    assert RecordOk(State(h), id);
  }

  /** Recovery ends a job only as its state and its process group allow. */
  lemma VerdictIsLegal(h: History, id: nat, boot: Option<nat>, alive: bool, known: set<string>)
    requires Legal(h) && id in State(h).store.jobs && State(h).store.jobs[id].state.Active()
    requires boot.Some? ==> boot.value == State(h).world.boot
    requires !alive ==> Gone(State(h), id)
    requires alive ==> State(h).store.jobs[id].process.Some?
    requires State(h).memory.Some? && known == SeenUuids(State(h).memory.value.observations)
    ensures var v := RecoveryVerdict(State(h).store.jobs[id], boot, alive, known);
            v.End? ==> MayFinish(State(h), id, v.to, None)
  {
    InvariantHolds(h);
    assert RowOk(State(h).store.jobs[id], State(h).store.clock);
    if Rebooted(State(h).store.jobs[id], boot) {
      RebootedIsGone(h, id, boot);
    }
  }

  /** A job without a process on record does not survive recovery. */
  lemma RecoveredAreStarted(s: Store, boot: Option<nat>, answers: set<nat>, known: set<string>)
    requires IdsOk(s) && RowsOk(s) && forall id :: id in answers ==> id in s.jobs && s.jobs[id].process.Some?
    ensures NoneStarting(RecoverAll(s, ActiveIds(s), boot, answers, known))
  {
    EveryVerdictIsCarriedOut(s, ActiveIds(s), boot, answers, known) by { ListedAreThere(s, ActiveIds(s)); }
    var s' := RecoverAll(s, ActiveIds(s), boot, answers, known);
    forall id | id in s'.jobs ensures !s'.jobs[id].state.Starting? {
      RecoveryIsExact(s, boot, answers, known, id);
      assert RowOk(s.jobs[id], s.clock);
    }
  }

  function EndingOf(state: JobState, exitCode: int): (JobState, Option<Reason>) {
    if state.Cancelling? then (JobState.Cancelled, Some(CancelledByUser))
    else if exitCode == 0 then (JobState.Done, None)
    else (JobState.Failed, Some(ExitStatus(exitCode)))
  }

  lemma NoMembersMeansGone(w: World, i: Ident)
    requires WorldOk(w) && Known(w, i)
    ensures MembersOf(w, i.pid) == {} ==> !GroupAlive(w, i.lifetime)
  {
    if GroupAlive(w, i.lifetime) {
      var p :| p in w.procs && w.procs[p].lifetime == i.lifetime;
      assert p in MembersOf(w, i.pid);
    }
  }

  /** The named rows are cancelled as far as their state allows, all others untouched. */
  ghost predicate CancelRows(before: map<nat, Job>, after: map<nat, Job>, ids: seq<nat>) {
    && after.Keys == before.Keys
    && (forall id :: id in before && id !in ids ==> after[id] == before[id])
    && (forall id :: id in before && id in ids ==>
          after[id].state == CancelledState(before[id].state) && after[id].gpus == before[id].gpus)
  }

  /** One list per occurrence: waiting jobs once under `cancelled`, running ones under `cancelling`
      every time, and the rest under `skipped`. */
  ghost predicate CancelLists(before: map<nat, Job>, ids: seq<nat>, cancelled: seq<nat>, cancelling: seq<nat>,
                              skipped: seq<nat>) {
    && multiset(cancelled) + multiset(cancelling) + multiset(skipped) == multiset(ids)
    && (forall id :: id in cancelled <==> id in ids && id in before && before[id].state.Waiting?)
    && (forall i, j :: 0 <= i < j < |cancelled| ==> cancelled[i] != cancelled[j])
    && (forall id :: id in cancelling <==>
          id in ids && id in before && before[id].state.Active())
    && (forall id :: id in skipped ==> !(id in before && before[id].state.Active()))
  }

  /** Each named job is in the state cancelling gave it, none of them started again, and the GPUs
      of those that held some are still assigned to them. */
  ghost predicate CancelsStand(before: map<nat, Job>, s: Store, ids: seq<nat>) {
    && (forall id :: id in ids && id in before ==>
          id in s.jobs && s.jobs[id].state == CancelledState(before[id].state) && s.jobs[id].gpus == before[id].gpus)
    && (forall id :: id in ids && id in before && before[id].state.Active() ==> KeepsGpus(s, id, before[id].Uuids()))
  }

  ghost predicate KeepsGpus(s: Store, id: nat, uuids: set<string>) {
    forall u :: u in uuids ==> u in Assignments(s) && Assignments(s)[u] == id
  }

  /** The pass after a bulk cancel leaves the cancelled jobs alone, and the GPUs of those still
      being cancelled to them. */
  lemma CancelsSurviveThePass(base: History, h: History, before: map<nat, Job>, ids: seq<nat>)
    requires Legal(h) && PassSince(base, h) && Legal(base) && Quiet(State(base))
    requires CancelRows(before, State(base).store.jobs, ids)
    ensures CancelsStand(before, State(h).store, ids)
  {
    var s := State(h).store;
    forall id | id in ids && id in before
      ensures id in s.jobs && s.jobs[id].state == CancelledState(before[id].state) && s.jobs[id].gpus == before[id].gpus
    {
      CancelledRowStands(base, h, id, before[id].state);
    }
    forall id | id in ids && id in before && before[id].state.Active() ensures KeepsGpus(s, id, before[id].Uuids()) {
      StillAssigned(h, id, before[id]);
    }
  }

  lemma CancelledRowStands(base: History, h: History, id: nat, was: JobState)
    requires Legal(h) && PassSince(base, h) && Legal(base) && Quiet(State(base))
    requires id in State(base).store.jobs && State(base).store.jobs[id].state == CancelledState(was)
    ensures id in State(h).store.jobs && State(h).store.jobs[id].state == CancelledState(was)
    ensures State(h).store.jobs[id].gpus == State(base).store.jobs[id].gpus
  {
    PassKeepsRow(base, h, id);
  }

  lemma StillAssigned(h: History, id: nat, row: Job)
    requires Legal(h) && id in State(h).store.jobs && row.state.Active()
    requires State(h).store.jobs[id].state == CancelledState(row.state) && State(h).store.jobs[id].gpus == row.gpus
    ensures KeepsGpus(State(h).store, id, row.Uuids())
  {
    AssignmentsAreAFunction(h);
    assert State(h).store.jobs[id].Uuids() == row.Uuids();
    assert forall u :: u in row.Uuids() ==> State(h).store.jobs[id].Holds(u);
  }

  lemma CancelRowsGrow(before: map<nat, Job>, prior: map<nat, Job>, now: map<nat, Job>, ids: seq<nat>, id: nat)
    requires CancelRows(before, prior, ids) && id in prior && now.Keys == prior.Keys
    requires forall j :: j in prior && j != id ==> now[j] == prior[j]
    requires now[id].state == CancelledState(prior[id].state) && now[id].gpus == prior[id].gpus
    ensures CancelRows(before, now, ids + [id])
  {
  }

  lemma CancelListsGrow(before: map<nat, Job>, ids: seq<nat>, id: nat,
                        cancelled: seq<nat>, cancelling: seq<nat>, skipped: seq<nat>)
    requires CancelLists(before, ids, cancelled, cancelling, skipped)
    ensures id !in before || before[id].state.Terminal() || (before[id].state.Waiting? && id in ids) ==>
              CancelLists(before, ids + [id], cancelled, cancelling, skipped + [id])
    ensures id in before && before[id].state.Waiting? && id !in ids ==>
              CancelLists(before, ids + [id], cancelled + [id], cancelling, skipped)
    ensures id in before && before[id].state.Active() ==>
              CancelLists(before, ids + [id], cancelled, cancelling + [id], skipped)
  {
    assert forall x :: x in ids + [id] <==> x in ids || x == id;
    assert multiset(ids + [id]) == multiset(ids) + multiset{id};
  }

  /** A job not yet named is as it was before the first cancellation. */
  lemma StateWhenReached(before: map<nat, Job>, now: map<nat, Job>, ids: seq<nat>, id: nat)
    requires CancelRows(before, now, ids)
    ensures id in now <==> id in before
    ensures id in now && now[id].state.Waiting? ==> before[id].state.Waiting? && id !in ids
    ensures id in now && now[id].state.Active() ==> before[id].state.Active()
    ensures id in now && now[id].state.Terminal() ==>
              before[id].state.Terminal() || (before[id].state.Waiting? && id in ids)
  {
  }

  lemma CancelRowsStay(before: map<nat, Job>, now: map<nat, Job>, ids: seq<nat>, id: nat)
    requires CancelRows(before, now, ids)
    requires id !in now || now[id].state.Terminal()
    ensures CancelRows(before, now, ids + [id])
  {
  }

  datatype RetryRefusal =
    | Missing
    | NotFailed(state: JobState)
    | AlreadyRetried(newer: nat)
    | NoWorkingDirectory
    | TooFewGpus
    | KeyTaken(holder: nat)

  /** FAILED or CANCELLED, and no newer attempt in its lineage. */
  ghost predicate NewestIsDone(s: Store, id: nat) {
    && id in s.jobs && (s.jobs[id].state.Failed? || s.jobs[id].state.Cancelled?)
    && forall later :: later in s.jobs && later > id ==> FirstAttempt(s.jobs[later]) != FirstAttempt(s.jobs[id])
  }

  /** What a retry needs: the newest attempt is done, its directory and enough GPUs are there, and
      no job takes its key. */
  ghost predicate MayBeRetried(s: Store, id: nat, cwdExists: bool, visible: nat) {
    && NewestIsDone(s, id)
    && cwdExists && s.jobs[id].spec.requestedGpus <= visible
    && (s.jobs[id].spec.key.Some? ==> forall j :: j in s.jobs ==> !Takes(s.jobs[j], s.jobs[id].spec.key.value))
  }

  /** The lineage query finds what there is to find. */
  lemma LineageQueryIsExact(s: Store, id: nat)
    requires IdsOk(s) && LineageOk(s.jobs) && id in s.jobs
    ensures s.jobs[id].Root() == FirstAttempt(s.jobs[id])
    ensures NewestIsDone(s, id)
       <==> s.jobs[id].state.ReleasesKey() && NewerAttempt(s, s.jobs[id].Root(), id).None?
  {
    NewerAttemptMeaning(s, id);
    assert forall a :: a in s.jobs ==> s.jobs[a].Root() == FirstAttempt(s.jobs[a]);
  }

  lemma RetryIsGrounded(h: History, id: nat)
    requires Legal(h) && NewestIsDone(State(h).store, id)
    ensures var s := State(h).store; var job := s.jobs[id];
            && job.spec.requestedGpus >= 1 && job.Root() == FirstAttempt(job) && MayRetry(s, job.spec, job.Root())
            && (job.spec.key.Some? ==>
                  (KeyHolder(s, job.spec.key.value).None? <==>
                     forall j :: j in s.jobs ==> !Takes(s.jobs[j], job.spec.key.value)))
  {
    var s := State(h).store;
    assert IdsOk(s) && LineageOk(s.jobs) by { InvariantHolds(h); }
    LineageQueryIsExact(s, id);
    if s.jobs[id].spec.key.Some? {
      KeyIsFree(s, s.jobs[id].spec.key.value);
    }
  }

  function HeldGroupOf(job: Job, held: set<string>): seq<string> {
    if job.spec.group.Some? && job.spec.group.value in held then [job.spec.group.value] else []
  }

  function Groups(names: seq<string>): set<string> {
    set g | g in names
  }

  lemma OneMoreRelease(base: History, mid: History, h: History, released: seq<string>, more: seq<string>)
    requires Within(base, mid, Releasing(Groups(released))) && Within(mid, h, Releasing(Groups(more)))
    ensures Within(base, h, Releasing(Groups(released + more)))
    ensures Extends(base, mid) && Extends(mid, h)
  {
    assert Groups(released + more) == Groups(released) + Groups(more);
    WithinWider(base, mid, Releasing(Groups(released)), Releasing(Groups(released + more)));
    WithinWider(mid, h, Releasing(Groups(more)), Releasing(Groups(released + more)));
    WithinJoins(base, mid, h, Releasing(Groups(released + more)));
  }

  ghost predicate GroupRetried(before: map<nat, Job>, created: seq<(nat, nat)>, group: string) {
    exists k :: 0 <= k < |created| && created[k].0 in before && before[created[k].0].InGroup(group)
  }

  /** The groups that were held and of which a job was retried, each of them once. */
  ghost predicate ReleasedExactly(before: map<nat, Job>, held: set<string>, created: seq<(nat, nat)>,
                                  released: seq<string>) {
    && (forall g :: g in released <==> g in held && GroupRetried(before, created, g))
    && (forall i, j :: 0 <= i < j < |released| ==> released[i] != released[j])
  }

  lemma OneMoreRetried(before: map<nat, Job>, created: seq<(nat, nat)>, pair: (nat, nat), group: string)
    requires pair.0 in before
    ensures GroupRetried(before, created + [pair], group)
           <==> GroupRetried(before, created, group) || before[pair.0].InGroup(group)
  {
    var longer := created + [pair];
    if GroupRetried(before, created, group) {
      var k :| 0 <= k < |created| && created[k].0 in before && before[created[k].0].InGroup(group);
      assert longer[k] == created[k];
    }
    assert longer[|created|] == pair;
  }

  lemma ReleasedGrows(before: map<nat, Job>, held: set<string>, created: seq<(nat, nat)>, released: seq<string>,
                      pair: (nat, nat), more: seq<string>)
    requires ReleasedExactly(before, held, created, released) && pair.0 in before
    requires more == HeldGroupOf(before[pair.0], held - Groups(released))
    ensures ReleasedExactly(before, held, created + [pair], released + more)
  {
    var longer := released + more;
    forall g ensures g in longer <==> g in held && GroupRetried(before, created + [pair], g) {
      OneMoreRetried(before, created, pair, g);
    }
  }

  datatype RetryResult = Retried(id: nat) | Refused(why: RetryRefusal)

  datatype CancelOutcome = CancelledWaiting | InProgress | Requested(sent: bool)

  /** What cancelling makes of a state. */
  function CancelledState(state: JobState): JobState {
    match state
    case Waiting => JobState.Cancelled
    case Running => JobState.Cancelling
    case Starting => JobState.Cancelling
    case _ => state
  }

  predicate AttemptOf(attempt: Job, original: Job) {
    attempt.state.Waiting? && attempt.spec == original.spec && attempt.retryOf == Some(FirstAttempt(original))
  }

  /** One new row was added: another attempt at this job. */
  ghost predicate AttemptMade(before: Store, after: Store, id: nat, attempt: nat) {
    && attempt == before.nextId && after.nextId == attempt + 1 && attempt in after.jobs
    && after.jobs == before.jobs[attempt := after.jobs[attempt]]
    && id in before.jobs && after.jobs[attempt].id == attempt && AttemptOf(after.jobs[attempt], before.jobs[id])
  }

  /** Every pair names an old job and its new copy, no two of one lineage. */
  ghost predicate OneAttemptEach(before: Store, after: map<nat, Job>, created: seq<(nat, nat)>) {
    && (forall k :: 0 <= k < |created| ==>
          && created[k].0 in before.jobs && created[k].1 in after && created[k].1 >= before.nextId
          && after[created[k].1].spec == before.jobs[created[k].0].spec
          && after[created[k].1].retryOf == Some(FirstAttempt(before.jobs[created[k].0])))
    && (forall j, k :: 0 <= j < k < |created| ==>
          FirstAttempt(before.jobs[created[j].0]) != FirstAttempt(before.jobs[created[k].0]))
  }

  function Originals(created: seq<(nat, nat)>): (ids: seq<nat>)
    ensures |ids| == |created| && forall k :: 0 <= k < |ids| ==> ids[k] == created[k].0
  {
    seq(|created|, k requires 0 <= k < |created| => created[k].0)
  }

  /** Each id is in exactly one of the lists, once per occurrence. */
  ghost predicate RetryLists(ids: seq<nat>, created: seq<(nat, nat)>, skipped: seq<nat>) {
    multiset(Originals(created)) + multiset(skipped) == multiset(ids)
  }

  lemma RetryListsGrow(ids: seq<nat>, created: seq<(nat, nat)>, skipped: seq<nat>, id: nat, attempt: nat)
    requires RetryLists(ids, created, skipped)
    ensures RetryLists(ids + [id], created + [(id, attempt)], skipped)
    ensures RetryLists(ids + [id], created, skipped + [id])
  {
    assert multiset(ids + [id]) == multiset(ids) + multiset{id};
    assert Originals(created + [(id, attempt)]) == Originals(created) + [id];
  }

  ghost predicate NothingToRetry(s: Store, ids: seq<nat>, cwdExists: nat -> bool, visible: nat) {
    forall k :: 0 <= k < |ids| ==> !MayBeRetried(s, ids[k], cwdExists(ids[k]), visible)
  }

  /** A new attempt makes no other job fit for a retry, and the retried job unfit. */
  lemma AttemptSettles(s: Store, s': Store, id: nat, attempt: nat, other: nat, cwdExists: bool, visible: nat)
    requires IdsOk(s) && AttemptMade(s, s', id, attempt)
    requires other == id || !MayBeRetried(s, other, cwdExists, visible)
    ensures !MayBeRetried(s', other, cwdExists, visible)
  {
    assert FirstAttempt(s'.jobs[attempt]) == FirstAttempt(s.jobs[id]) && id < attempt;
    assert forall j :: j in s.jobs ==> j in s'.jobs && s'.jobs[j] == s.jobs[j];
  }

  lemma HolderMeansTaken(s: Store, key: string, holder: nat)
    requires holder < s.nextId && holder in s.jobs
    requires s.jobs[holder].spec.key == Some(key) && !s.jobs[holder].state.ReleasesKey()
    ensures KeyHolder(s, key).Some?
  {
    assert holder in Where(s, (job: Job) => job.spec.key == Some(key) && !job.state.ReleasesKey());
  }

  ghost predicate RetriedSoFar(before: Store, now: Store, ids: seq<nat>, created: seq<(nat, nat)>, skipped: seq<nat>,
                               cwdExists: nat -> bool, visible: nat) {
    && RetryLists(ids, created, skipped)
    && RetryProgress(before, now, created)
    && NothingToRetry(now, ids, cwdExists, visible)
  }

  lemma RetryAnswered(h: History, before: Store, now: Store, ids: seq<nat>, id: nat, r: RetryResult,
                      created: seq<(nat, nat)>, skipped: seq<nat>, cwdExists: nat -> bool, visible: nat)
    requires Legal(h) && RetriedSoFar(before, State(h).store, ids, created, skipped, cwdExists, visible)
    requires r.Retried? <==> MayBeRetried(State(h).store, id, cwdExists(id), visible)
    requires r.Retried? ==> AttemptMade(State(h).store, now, id, r.id)
    requires r.Refused? ==> now.jobs == State(h).store.jobs && now.nextId == State(h).store.nextId
    ensures r.Retried? ==> RetriedSoFar(before, now, ids + [id], created + [(id, r.id)], skipped, cwdExists, visible)
    ensures r.Refused? ==> RetriedSoFar(before, now, ids + [id], created, skipped + [id], cwdExists, visible)
  {
    RetryListsGrow(ids, created, skipped, id, if r.Retried? then r.id else 0);
    RetrySettles(h, now, ids, id, r, cwdExists, visible);
    if r.Retried? {
      RetryAdds(h, before, now, created, id, r.id, cwdExists(id), visible);
    }
  }

  ghost predicate HeldSoFar(before: map<nat, Job>, first: set<string>, now: set<string>, created: seq<(nat, nat)>,
                            released: seq<string>) {
    ReleasedExactly(before, first, created, released) && now == first - Groups(released)
  }

  lemma HoldsAnswered(s: Store, before: Store, created: seq<(nat, nat)>, skipped: seq<nat>, ids: seq<nat>, id: nat,
                      r: RetryResult,
                      first: set<string>, prior: set<string>, now: set<string>,
                      released: seq<string>, more: seq<string>,
                      cwdExists: nat -> bool, visible: nat)
    requires RetriedSoFar(before, s, ids, created, skipped, cwdExists, visible)
    requires HeldSoFar(before.jobs, first, prior, created, released)
    requires r.Retried? ==> id in s.jobs && s.jobs[id].state.ReleasesKey() && more == HeldGroupOf(s.jobs[id], prior)
    requires r.Refused? ==> more == []
    requires now == prior - Groups(more)
    ensures HeldSoFar(before.jobs, first, now, if r.Retried? then created + [(id, r.id)] else created, released + more)
  {
    assert Groups(released + more) == Groups(released) + Groups(more);
    if r.Retried? {
      ReleasedGrows(before.jobs, first, created, released, (id, r.id), more);
    } else {
      assert released + more == released;
    }
  }

  lemma RetrySettles(h: History, s': Store, ids: seq<nat>, id: nat, r: RetryResult, cwdExists: nat -> bool,
                     visible: nat)
    requires Legal(h) && NothingToRetry(State(h).store, ids, cwdExists, visible)
    requires r.Retried? <==> MayBeRetried(State(h).store, id, cwdExists(id), visible)
    requires r.Retried? ==> AttemptMade(State(h).store, s', id, r.id)
    requires r.Refused? ==> s'.jobs == State(h).store.jobs && s'.nextId == State(h).store.nextId
    ensures NothingToRetry(s', ids + [id], cwdExists, visible)
  {
    var s := State(h).store;
    assert IdsOk(s) by { InvariantHolds(h); }
    var all := ids + [id];
    forall k | 0 <= k < |all| ensures !MayBeRetried(s', all[k], cwdExists(all[k]), visible) {
      if r.Retried? {
        AttemptSettles(s, s', id, r.id, all[k], cwdExists(all[k]), visible);
      }
    }
  }

  /** Old rows are as they were, and what is new was created by the retries and waits. */
  ghost predicate RetryProgress(before: Store, now: Store, created: seq<(nat, nat)>) {
    && before.nextId <= now.nextId
    && OneAttemptEach(before, now.jobs, created)
    && (forall j :: j in before.jobs ==> j < before.nextId && j in now.jobs && now.jobs[j] == before.jobs[j])
    && (forall j :: j in now.jobs && j !in before.jobs ==> now.jobs[j].state.Waiting?)
    && (forall k :: 0 <= k < |created| ==> now.jobs[created[k].1].state.Waiting? && created[k].1 < now.nextId)
  }

  lemma ProgressGrows(before: Store, prior: Store, now: Store, created: seq<(nat, nat)>, id: nat, attempt: nat)
    requires RetryProgress(before, prior, created)
    requires id in before.jobs && AttemptMade(prior, now, id, attempt)
    requires forall k :: 0 <= k < |created| ==>
               FirstAttempt(before.jobs[created[k].0]) != FirstAttempt(before.jobs[id])
    ensures RetryProgress(before, now, created + [(id, attempt)])
  {
  }

  /** A job that may be retried now is in no lineage retried just before. */
  lemma NewAttemptIsFirst(s: Store, before: Store, created: seq<(nat, nat)>, id: nat)
    requires RetryProgress(before, s, created) && NewestIsDone(s, id)
    ensures id in before.jobs
    ensures forall k :: 0 <= k < |created| ==>
              FirstAttempt(before.jobs[created[k].0]) != FirstAttempt(before.jobs[id])
  {
    forall k | 0 <= k < |created|
      ensures FirstAttempt(before.jobs[created[k].0]) != FirstAttempt(before.jobs[id])
    {
      assert created[k].1 > id && FirstAttempt(s.jobs[created[k].1]) == FirstAttempt(before.jobs[created[k].0]);
    }
  }

  lemma RetryAdds(h: History, before: Store, now: Store, created: seq<(nat, nat)>,
                  id: nat, attempt: nat, cwdExists: bool, visible: nat)
    requires Legal(h) && MayBeRetried(State(h).store, id, cwdExists, visible)
    requires RetryProgress(before, State(h).store, created)
    requires AttemptMade(State(h).store, now, id, attempt)
    ensures RetryProgress(before, now, created + [(id, attempt)])
  {
    NewAttemptIsFirst(State(h).store, before, created, id);
    ProgressGrows(before, State(h).store, now, created, id, attempt);
  }

  const MAX_LABEL_LENGTH := 200

  /** What `str.strip` takes away. */
  predicate IsSpace(c: char) {
    var code := c as int;
    || 0x09 <= code <= 0x0d || 0x1c <= code <= 0x20 || code in {0x85, 0xa0, 0x1680}
    || 0x2000 <= code <= 0x200a || code in {0x2028, 0x2029, 0x202f, 0x205f, 0x3000}
  }

  /** The 29 characters of Unicode 15 that Python counts as white space. */
  lemma SpacesAreListed(c: char)
    ensures IsSpace(c) <==> c in "\t\n\U{B}\U{C}\r\U{1C}\U{1D}\U{1E}\U{1F} \U{85}\U{A0}\U{1680}\U{2000}\U{2001}"
                               + "\U{2002}\U{2003}\U{2004}\U{2005}\U{2006}\U{2007}\U{2008}\U{2009}\U{200A}"
                               + "\U{2028}\U{2029}\U{202F}\U{205F}\U{3000}"
  {
  }

  /** A group or key: not blank, not too long, and without control characters. */
  predicate Label(text: string) {
    && (exists c :: c in text && !IsSpace(c))
    && |text| <= MAX_LABEL_LENGTH
    && forall c :: c in text ==> c as int >= 32 && c as int != 127
  }

  /** Labels, a command, at least one GPU, and no NUL in an argument. */
  predicate WellFormed(spec: JobSpec) {
    && (spec.group.Some? ==> Label(spec.group.value)) && (spec.key.Some? ==> Label(spec.key.value))
    && spec.argv != [] && spec.argv[0] != "" && spec.requestedGpus >= 1
    && forall a :: a in spec.argv ==> '\0' !in a
  }

  function LastSlash(path: string): (k: int)
    ensures -1 <= k < |path| && (k >= 0 ==> path[k] == '/')
    ensures forall j :: k < j < |path| ==> path[j] != '/'
  {
    if path == "" then -1
    else if path[|path| - 1] == '/' then |path| - 1
    else LastSlash(path[..|path| - 1])
  }

  /** `Path(path).name`: the last part of a path that is neither empty nor a dot. */
  function ProgramName(path: string): (name: string)
    ensures '/' !in name && name != "."
    decreases |path|
  {
    var k := LastSlash(path);
    var last := path[k + 1..];
    if last != "" && last != "." then last
    else if k < 0 then ""
    else ProgramName(path[..k])
  }

  /** The part of a path between two slashes, or before the first, or after the last. */
  ghost predicate IsPart(path: string, from: int, to: int) {
    && 0 <= from <= to <= |path|
    && (from == 0 || path[from - 1] == '/') && (to == |path| || path[to] == '/')
    && forall j :: from <= j < to ==> path[j] != '/'
  }

  predicate Named(part: string) {
    part != "" && part != "."
  }

  /** The name is the last part of the path that is neither empty nor a dot, and empty if all are. */
  ghost predicate NameOf(path: string, name: string) {
    if forall from, to :: IsPart(path, from, to) ==> !Named(path[from..to]) then name == ""
    else exists from, to :: && IsPart(path, from, to) && path[from..to] == name && Named(name)
                            && forall a, b :: IsPart(path, a, b) && a > from ==> !Named(path[a..b])
  }

  lemma PartsOfPrefix(path: string, k: int)
    requires 0 <= k < |path| && path[k] == '/'
    ensures forall a, b :: 0 <= b <= k ==>
              (IsPart(path, a, b) <==> IsPart(path[..k], a, b)) && (0 <= a <= b ==> path[..k][a..b] == path[a..b])
  {
  }

  lemma LastPart(path: string, k: int)
    requires -1 <= k < |path| && (k >= 0 ==> path[k] == '/') && forall j :: k < j < |path| ==> path[j] != '/'
    ensures IsPart(path, k + 1, |path|)
    ensures forall a, b :: IsPart(path, a, b) && b > k ==> a == k + 1 && b == |path|
  {
  }

  lemma {:induction false} ProgramNameIsLastPart(path: string)
    ensures NameOf(path, ProgramName(path))
    decreases |path|
  {
    var k := LastSlash(path);
    LastPart(path, k);
    if !Named(path[k + 1..]) && k >= 0 {
      ProgramNameIsLastPart(path[..k]);
      PartsOfPrefix(path, k);
      NameOfPrefix(path, k, ProgramName(path[..k]));
    }
  }

  lemma NameOfPrefix(path: string, k: int, name: string)
    requires 0 <= k < |path| && path[k] == '/' && !Named(path[k + 1..]) && NameOf(path[..k], name)
    requires forall j :: k < j < |path| ==> path[j] != '/'
    ensures NameOf(path, name)
  {
    PartsOfPrefix(path, k);
    LastPart(path, k);
    assert path[k + 1..|path|] == path[k + 1..];
    forall a, b | IsPart(path, a, b) && Named(path[a..b])
      ensures IsPart(path[..k], a, b) && path[..k][a..b] == path[a..b]
    {
    }
  }

  /** `_validate_label`, check by check. */
  method ValidateLabel(text: string) returns (ok: bool)
    ensures ok <==> Label(text)
  {
    var blank, control := true, false;
    for i := 0 to |text|
      invariant blank <==> forall k :: 0 <= k < i ==> IsSpace(text[k])
      invariant control <==> exists k :: 0 <= k < i && ((text[k] as int) < 32 || text[k] as int == 127)
    {
      if !IsSpace(text[i]) {
        blank := false;
      }
      if (text[i] as int) < 32 || text[i] as int == 127 {
        control := true;
      }
    }
    ok := !blank && |text| <= MAX_LABEL_LENGTH && !control;
    assert (exists c :: c in text && !IsSpace(c)) ==> !blank;
    if !blank {
      var k :| 0 <= k < |text| && !IsSpace(text[k]);
      assert text[k] in text;
    }
    if control {
      var k :| 0 <= k < |text| && ((text[k] as int) < 32 || text[k] as int == 127);
      assert text[k] in text;
    }
  }

  /** The checks of a submission that look at nothing but what was asked. */
  method CheckAsked(asked: JobSpec) returns (ok: bool)
    ensures ok <==> WellFormed(asked)
  {
    var groupOk, keyOk, nul := true, true, false;
    if asked.group.Some? {
      groupOk := ValidateLabel(asked.group.value);
    }
    if asked.key.Some? {
      keyOk := ValidateLabel(asked.key.value);
    }
    for i := 0 to |asked.argv|
      invariant nul <==> exists k :: 0 <= k < i && '\0' in asked.argv[k]
    {
      if '\0' in asked.argv[i] {
        nul := true;
      }
    }
    ok := groupOk && keyOk && asked.argv != [] && asked.argv[0] != "" && asked.requestedGpus >= 1 && !nul;
    assert nul <==> exists a :: a in asked.argv && '\0' in a by {
      if k :| 0 <= k < |asked.argv| && '\0' in asked.argv[k] {
        assert asked.argv[k] in asked.argv;
      }
    }
  }

  /** What is stored: what was asked, with the directory resolved, and the program's name for none. */
  ghost predicate SubmittedAs(spec: JobSpec, asked: JobSpec, resolved: string) {
    && spec.argv == asked.argv && spec.env == asked.env && spec.requestedGpus == asked.requestedGpus
    && spec.group == asked.group && spec.key == asked.key && spec.cwd == resolved
    && if asked.name != "" then spec.name == asked.name else asked.argv != [] && NameOf(asked.argv[0], spec.name)
  }

  predicate Submittable(spec: JobSpec, cwdExists: bool, visible: nat) {
    WellFormed(spec) && cwdExists && spec.requestedGpus <= visible
  }

  datatype Submission = Rejected | Duplicate(existing: nat) | Accepted(id: nat)

  lemma KeyHolderHolds(s: Store, key: string)
    requires KeyHolder(s, key).Some?
    ensures KeyHolder(s, key).value in s.jobs && Takes(s.jobs[KeyHolder(s, key).value], key)
  {
    var holders := Where(s, (job: Job) => job.spec.key == Some(key) && !job.state.ReleasesKey());
    assert holders[|holders| - 1] in holders;
  }

  lemma KeyIsFree(s: Store, key: string)
    requires IdsOk(s)
    ensures KeyHolder(s, key).None? <==> forall id :: id in s.jobs ==> !Takes(s.jobs[id], key)
  {
    forall id | id in s.jobs && Takes(s.jobs[id], key) ensures KeyHolder(s, key).Some? {
      HolderMeansTaken(s, key, id);
    }
    if KeyHolder(s, key).Some? {
      KeyHolderHolds(s, key);
    }
  }

  lemma CreatedFacts(s: Store, spec: JobSpec, retryOf: Option<nat>)
    requires CreateJob(s, spec, retryOf).1.Created?
    ensures CreateJob(s, spec, retryOf).0.jobs == s.jobs[s.nextId := NewRow(s, spec, retryOf)]
    ensures CreateJob(s, spec, retryOf).1.id == s.nextId
    ensures NoneStarting(s) ==> NoneStarting(CreateJob(s, spec, retryOf).0)
  {
  }

  /** Nothing is selected exactly if too few devices are FREE. */
  lemma SelectionFits(statuses: seq<GPUStatus>, s: System, count: int)
    requires StatusesFit(statuses, s) && count >= 1
    ensures var selected := SelectGpus(statuses, count);
            if selected == [] then |FreeNow(s)| < count
            else count <= |FreeNow(s)| && SlotsOf(selected) == ObservedSlots(FreeNow(s))[..count]
  {
    assert |SlotsOf(SelectGpus(statuses, count))| == |SelectGpus(statuses, count)|;
  }

  /** From place `i` on, the waiting list read at the start of the pass is still as it was, and
      nobody else waits. */
  ghost predicate InLine(first: Store, now: Store, waiting: seq<nat>, i: nat) {
    && i <= |waiting| && now.jobs.Keys == first.jobs.Keys
    && (forall id :: id in first.jobs ==> SameIdentity(now.jobs[id], first.jobs[id]))
    && (forall k :: 0 <= k < |waiting| ==> waiting[k] in first.jobs)
    && (forall k :: i <= k < |waiting| ==> now.jobs[waiting[k]].state.Waiting?)
    && (forall id :: id in now.jobs && now.jobs[id].state.Waiting? ==> id in waiting)
    && (forall a, b :: 0 <= a < b < |waiting| ==> Before(first, waiting[a], waiting[b]))
  }

  lemma QueueStarts(h: History, waiting: seq<nat>)
    requires Legal(h) && waiting == WaitingIds(State(h).store)
    ensures InLine(State(h).store, State(h).store, waiting, 0)
  {
    InvariantHolds(h);
    WaitingListIsExact(State(h).store);
    forall k | 0 <= k < |waiting|
      ensures waiting[k] in State(h).store.jobs && State(h).store.jobs[waiting[k]].state.Waiting? {
      assert waiting[k] in waiting;
    }
  }

  /** Whoever waits and comes before the job at place `i` has been settled. */
  lemma NextInLine(s: System, first: Store, waiting: seq<nat>, i: nat, slots: seq<GpuSlot>)
    requires Quiet(s) && !s.memory.value.paused && !s.memory.value.stopping
    requires InLine(first, s.store, waiting, i) && i < |waiting| && Settled(s, waiting, i)
    requires !HeldBack(s, waiting[i])
    requires var wanted := s.store.jobs[waiting[i]].spec.requestedGpus;
             0 <= wanted <= |FreeNow(s)| && slots == ObservedSlots(FreeNow(s))[..wanted]
    ensures MayReserve(s, waiting[i], slots)
  {
    var id := waiting[i];
    forall w | w in s.store.jobs && s.store.jobs[w].state.Waiting? && Before(s.store, w, id) ensures MustWait(s, w) {
      var k :| 0 <= k < |waiting| && waiting[k] == w;
      assert k > i ==> Before(first, waiting[i], waiting[k]);
      assert k < i;
    }
  }

  /** The job at place `i` was started: all places up to it are settled. */
  lemma TurnIsOver(before: History, h: History, first: Store, waiting: seq<nat>, i: nat)
    requires Legal(before) && Legal(h) && PassSince(before, h) && Quiet(State(before))
    requires InLine(first, State(before).store, waiting, i) && i < |waiting| && Settled(State(before), waiting, i)
    requires LaunchedOnly(State(before).store.jobs, State(h).store.jobs, waiting[i])
    ensures State(h).memory.Some?
    ensures InLine(first, State(h).store, waiting, i + 1) && Settled(State(h), waiting, i + 1)
  {
    SettledStays(before, h, waiting, i, waiting[i]);
    PassIsMonotone(before, h);
    LineMovesOn(first, State(before).store, State(h).store, waiting, i);
  }

  lemma LineIsDone(s: System, first: Store, waiting: seq<nat>)
    requires s.memory.Some? && InLine(first, s.store, waiting, |waiting|) && Settled(s, waiting, |waiting|)
    ensures forall id :: id in s.store.jobs && s.store.jobs[id].state.Waiting? ==> MustWait(s, id)
  {
  }

  lemma LineMovesOn(first: Store, before: Store, now: Store, waiting: seq<nat>, i: nat)
    requires InLine(first, before, waiting, i) && i < |waiting|
    requires LaunchedOnly(before.jobs, now.jobs, waiting[i])
    requires forall id :: id in before.jobs ==> SameIdentity(now.jobs[id], before.jobs[id])
    ensures InLine(first, now, waiting, i + 1)
  {
    forall k | i + 1 <= k < |waiting| ensures now.jobs[waiting[k]].state.Waiting? {
      assert Before(first, waiting[i], waiting[k]);
    }
  }

  /** A job being launched is the only one, and has no process on record. */
  lemma StartingFacts(h: History, id: nat)
    requires Legal(h) && id in State(h).store.jobs && State(h).store.jobs[id].state.Starting?
    ensures State(h).store.jobs[id].process.None? && OneStarting(State(h).store) && WorldOk(State(h).world)
  {
    InvariantHolds(h);
    assert RowOk(State(h).store.jobs[id], State(h).store.clock);
  }

  lemma LaunchEndMayFinish(s: System, id: nat, to: JobState, exitCode: Option<int>)
    requires id in s.store.jobs && s.store.jobs[id].state.Starting? && s.store.jobs[id].process.None?
    requires (to.Done? && exitCode == Some(0) && id in s.spawned) || to.Failed?
    ensures MayFinish(s, id, to, exitCode)
  {
  }

  lemma LaunchEndRows(s: Store, id: nat, to: JobState, exitCode: Option<int>, reason: Option<Reason>)
    requires OneStarting(s) && id in s.jobs && s.jobs[id].state.Starting? && (to.Done? || to.Failed?)
    ensures LaunchedOnly(s.jobs, Tables.Finish(s, id, to, exitCode, reason).jobs, id)
    ensures NoneStarting(Tables.Finish(s, id, to, exitCode, reason))
  {
  }

  lemma RunningRows(s: Store, id: nat, record: ProcessRecord)
    requires OneStarting(s) && id in s.jobs && s.jobs[id].state.Starting?
    ensures LaunchedOnly(s.jobs, Tables.MarkRunning(s, id, record).0.jobs, id)
    ensures NoneStarting(Tables.MarkRunning(s, id, record).0)
  {
  }

  /** RUNNING with its identity if the child could be identified, DONE only for a clean exit, and
      FAILED in every other case. */
  ghost predicate LaunchRecorded(row: Job, started: bool, turn: LaunchTurn, boot: Option<nat>) {
    if !started then row.state.Failed? && row.exitCode.None? && row.reason == Some(LaunchError)
    else match turn.ending
      case None =>
        row.state.Running? && row.process == Some(ProcessRecord(turn.pid, turn.pid, Some(turn.start), boot))
      case Some(Exited(code)) =>
        && row.exitCode == Some(code)
        && if code == 0 then row.state.Done? && row.reason.None?
           else row.state.Failed? && row.reason == Some(ExitStatus(code))
      case Some(Killed(code)) =>
        row.state.Failed? && row.exitCode == Some(code) && row.reason == Some(NoIdentity)
      case Some(Broken) =>
        row.state.Failed? && row.exitCode.None? && row.reason == Some(LaunchError)
  }

  /** Only this job's row changed, and it is past its launch. */
  ghost predicate LaunchedOnly(before: map<nat, Job>, after: map<nat, Job>, id: nat) {
    && id in after && after.Keys == before.Keys
    && (forall j :: j in before && j != id ==> after[j] == before[j])
    && !after[id].state.Waiting? && !after[id].state.Starting?
  }

  /** Each selected device is the observation with its UUID. */
  ghost predicate AreObserved(observations: seq<GPUObservation>, selected: seq<GPUStatus>) {
    forall k :: 0 <= k < |selected| ==>
      selected[k].uuid in ByUuid(observations) && ByUuid(observations)[selected[k].uuid].Slot() == selected[k].Slot()
  }

  method LookUp(observations: seq<GPUObservation>, selected: seq<GPUStatus>) returns (chosen: seq<GPUObservation>)
    requires AreObserved(observations, selected)
    ensures |chosen| == |selected| && forall k :: 0 <= k < |chosen| ==> chosen[k].Slot() == selected[k].Slot()
  {
    var observationsByUuid := ByUuid(observations);
    chosen := [];
    for i := 0 to |selected|
      invariant |chosen| == i
      invariant forall k :: 0 <= k < i ==> chosen[k].Slot() == selected[k].Slot()
    {
      chosen := chosen + [observationsByUuid[selected[i].uuid]];
    }
  }

  lemma SelectedAreObserved(s: System, id: nat, selected: seq<GPUStatus>)
    requires MemoryOk(s) && MayReserve(s, id, SlotsOf(selected))
    ensures AreObserved(s.memory.value.observations, selected)
  {
    var m := s.memory.value;
    var free := FreeNow(s);
    FreeGpusAreDistinct(m.observations, ReservedUuids(s.store));
    ByUuidFinds(m.observations);
    forall k | 0 <= k < |selected|
      ensures selected[k].uuid in ByUuid(m.observations)
      ensures ByUuid(m.observations)[selected[k].uuid].Slot() == selected[k].Slot()
    {
      assert free[k] in free;
      assert SlotsOf(selected)[k] == ObservedSlots(free)[k] == free[k].Slot();
    }
  }
}
