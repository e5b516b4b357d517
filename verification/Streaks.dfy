/** When exactly a failure puts its group on hold, and what deletion does to that. */
module Streaks {
  import opened Models
  import opened Sorting
  import opened Tables
  import opened Protocol
  import opened Invariants
  import opened FailFast
  import opened Safety
  import opened Moments

  // ---- No two jobs end at one time ----

  ghost predicate EndsDiffer(jobs: map<nat, Job>) {
    forall a, b :: a in jobs && b in jobs && a != b && jobs[a].endTime.Some? ==> jobs[a].endTime != jobs[b].endTime
  }

  /** One row changes: it keeps its end, or ends now. */
  lemma RowKeepsEndsApart(s: Store, id: nat, row: Job)
    requires EndedSoFar(s) && EndsDiffer(s.jobs)
    requires row.endTime.None? || row.endTime == Some(s.clock) || (id in s.jobs && row.endTime == s.jobs[id].endTime)
    ensures EndsDiffer(s.jobs[id := row])
  {
  }

  lemma EndsStayApart(s: System, e: Event)
    requires Enabled(s, e) && EndedSoFar(s.store) && EndsDiffer(s.store.jobs)
    ensures EndsDiffer(Next(s, e).store.jobs)
  {
    var t := s.store;
    match e
    case Delete(ids) => DeletionIsAllOrNothing(t.jobs, ids);
    case Create(spec, retryOf) => RowKeepsEndsApart(t, t.nextId, NewRow(t, spec, retryOf));
    case Reserve(id, slots) => RowKeepsEndsApart(t, id, ReservedRow(t, id, slots));
    case MarkRunning(id, boot) =>
      RowKeepsEndsApart(t, id, t.jobs[id].(state := JobState.Running,
                                           process := Some(SpawnedRecord(s.spawned[id], boot))));
    case Finish(id, to, exitCode, reason, _) => RowKeepsEndsApart(t, id, FinishedRow(t, id, to, exitCode, reason));
    case BeginCancel(id) => RowKeepsEndsApart(t, id, t.jobs[id].(state := JobState.Cancelling));
    case _ =>
  }

  lemma {:induction false} EndTimesDiffer(h: History)
    requires Legal(h)
    ensures EndsDiffer(State(h).store.jobs)
  {
    if h.Then? {
      EndTimesDiffer(h.past);
      assert EndedSoFar(State(h.past).store) by { InvariantHolds(h.past); }
      EndsStayApart(State(h.past), h.event);
    }
  }

  // ---- Streaks ----

  /** A DONE or FAILED job of the group that ended after the group's last release, if there was one
      and it is not held since. */
  ghost predicate Counts(s: Store, id: nat, group: string) {
    && id in s.jobs && s.jobs[id].spec.group == Some(group) && s.jobs[id].endTime.Some?
    && (s.jobs[id].state.Done? || s.jobs[id].state.Failed?)
    && (group in s.holds && !s.holds[group].held ==> s.jobs[id].endTime.value > s.holds[group].changedAt)
  }

  /** FAILED, less than `limit` after its reservation. */
  ghost predicate FailedFast(job: Job, limit: int) {
    && job.state.Failed? && job.startTime.Some? && job.endTime.Some?
    && job.endTime.value - job.startTime.value < limit
  }

  /** These many outcomes of the group since its release were all quick failures, and every other
      outcome ended before each of them. */
  ghost predicate Streak(s: Store, group: string, last: seq<nat>, count: int, limit: int) {
    && |last| == count && (forall i, j :: 0 <= i < j < |last| ==> last[i] != last[j])
    && (forall x :: x in last ==> Counts(s, x, group) && FailedFast(s.jobs[x], limit))
    && (forall x, o :: x in last && o !in last && Counts(s, o, group) ==>
          s.jobs[o].endTime.value < s.jobs[x].endTime.value)
  }

  lemma OutcomesCount(s: Store, group: string, id: nat)
    ensures Counts(s, id, group) <==> id in s.jobs && IsOutcome(s.jobs[id], group, ReleasedAt(s, group))
  {
  }

  lemma FastIsQuick(job: Job, limit: int)
    ensures FailedFast(job, limit) <==> QuickFailure(job, limit)
  {
  }

  lemma StreakIsSeen(s: Store, m: Memory, id: nat, group: string, last: seq<nat>)
    requires IdsOk(s) && Streak(s, group, last, m.failFastCount, m.failFastTime)
    requires m.failFastCount > 0 && id in s.jobs && s.jobs[id].InGroup(group) && group !in m.held
    ensures ShouldHold(s, m, id)
  {
    NewestAreLast(s, group, ReleasedAt(s, group), last, m.failFastCount);
  }

  lemma NewestAreStreak(s: Store, group: string, recent: seq<nat>, limit: int)
    requires EndsDiffer(s.jobs) && Distinct(recent)
    requires forall x :: x in recent ==>
               x in s.jobs && IsOutcome(s.jobs[x], group, ReleasedAt(s, group)) && QuickFailure(s.jobs[x], limit)
    requires forall x, o ::
               x in recent && o in s.jobs && o !in recent && IsOutcome(s.jobs[o], group, ReleasedAt(s, group)) ==>
                 !EndedBefore(s, x, o)
    ensures Streak(s, group, recent, |recent|, limit)
  {
    forall x | x in recent ensures Counts(s, x, group) && FailedFast(s.jobs[x], limit) {
      OutcomesCount(s, group, x);
      FastIsQuick(s.jobs[x], limit);
    }
    forall x, o | x in recent && o !in recent && Counts(s, o, group)
      ensures s.jobs[o].endTime.value < s.jobs[x].endTime.value
    {
      OutcomesCount(s, group, o);
      assert !EndedBefore(s, x, o);
      assert s.jobs[o].endTime != s.jobs[x].endTime;
    }
  }

  lemma SeenIsStreak(s: Store, m: Memory, id: nat, group: string)
    requires IdsOk(s) && EndsDiffer(s.jobs) && ShouldHold(s, m, id) && s.jobs[id].InGroup(group)
    ensures var recent := RecentOutcomes(s, group, ReleasedAt(s, group), m.failFastCount);
            Streak(s, group, recent, m.failFastCount, m.failFastTime)
  {
    var recent := RecentOutcomes(s, group, ReleasedAt(s, group), m.failFastCount);
    RecentAreNewest(s, group, ReleasedAt(s, group), m.failFastCount);
    forall x | x in recent ensures x in s.jobs && QuickFailure(s.jobs[x], m.failFastTime) {
      var k :| 0 <= k < |recent| && recent[k] == x;
    }
    NewestAreStreak(s, group, recent, m.failFastTime);
  }

  /** The times of the row are those of the job's reservation and of its end. */
  ghost predicate RanFromTo(h: History, id: nat)
    requires Legal(h) && id in State(h).store.jobs
  {
    var job := State(h).store.jobs[id];
    && job.startTime.Some? && Stamped(h, id, job.startTime.value, Reservations())
    && job.endTime.Some? && Stamped(h, id, job.endTime.value, Finishes())
  }

  /** The check after a failure holds the group exactly if the threshold is set and the newest
      outcomes since the release are a full streak of quick failures. How long a job ran is the time
      from its reservation to its end. */
  lemma HeldExactlyForAStreak(h: History, group: string)
    requires Legal(h) && Enabled(State(h), Note) && group !in State(h).memory.value.held
    ensures var s := State(h).store; var m := State(h).memory.value; var id := m.pending.value;
            group in State(Then(h, Note)).memory.value.held <==>
              && m.failFastCount > 0 && id in s.jobs && s.jobs[id].InGroup(group)
              && exists last :: Streak(s, group, last, m.failFastCount, m.failFastTime)
    ensures var limit := State(h).memory.value.failFastTime;
            forall x :: x in State(h).store.jobs && FailedFast(State(h).store.jobs[x], limit) ==> RanFromTo(h, x)
  {
    var s := State(h).store;
    var m := State(h).memory.value;
    var id := m.pending.value;
    forall x | x in s.jobs && FailedFast(s.jobs[x], m.failFastTime) ensures RanFromTo(h, x) {
      TimesAreMoments(h, x);
    }
    assert IdsOk(s) by { InvariantHolds(h); }
    EndTimesDiffer(h);
    if ShouldHold(s, m, id) && s.jobs[id].InGroup(group) {
      SeenIsStreak(s, m, id, group);
    }
    if m.failFastCount > 0 && id in s.jobs && s.jobs[id].InGroup(group)
       && exists last :: Streak(s, group, last, m.failFastCount, m.failFastTime) {
      var last :| Streak(s, group, last, m.failFastCount, m.failFastTime);
      StreakIsSeen(s, m, id, group, last);
    }
  }

  // ---- Release ----

  lemma HoldTimeGrows(s: System, e: Event, group: string)
    requires Enabled(s, e) && group in s.store.holds && s.store.holds[group].changedAt < s.store.clock
    ensures group in Next(s, e).store.holds && Next(s, e).store.holds[group].changedAt >= s.store.holds[group].changedAt
  {
  }

  lemma {:induction false} HoldTimesGrow(base: History, h: History, group: string)
    requires Legal(h) && Legal(base) && Extends(base, h) && group in State(base).store.holds
    ensures group in State(h).store.holds
    ensures State(h).store.holds[group].changedAt >= State(base).store.holds[group].changedAt
  {
    if h != base {
      HoldTimesGrow(base, h.past, group);
      assert RowsOk(State(h.past).store) by { InvariantHolds(h.past); }
      HoldTimeGrows(State(h.past), h.event, group);
    }
  }

  /** A release starts the count anew: whenever the group is checked later, a job that had ended
      before the release is no outcome any more. */
  lemma ReleaseStartsAnew(released: History, text: Option<string>, h: History, group: string, id: nat)
    requires Legal(released) && Idle(State(released)) && group in HeldGroups(State(released).store)
    requires Legal(h) && Extends(Then(released, Hold(group, false, text)), h) && group !in HeldGroups(State(h).store)
    requires id in State(released).store.jobs && State(released).store.jobs[id].state.Terminal()
    ensures id in State(h).store.jobs ==> !IsOutcome(State(h).store.jobs[id], group, ReleasedAt(State(h).store, group))
  {
    var base := Then(released, Hold(group, false, text));
    HoldTimesGrow(base, h, group);
    assert RowOk(State(released).store.jobs[id], State(released).store.clock) by { InvariantHolds(released); }
    assert State(base).store.jobs == State(released).store.jobs;
    LifecycleIsKept(base, h, id);
  }

  // ---- Deletion ----

  function NotIn(deleted: set<nat>): nat -> bool {
    (x: nat) => x !in deleted
  }

  lemma FilterOfAppend(prior: seq<nat>, last: nat, taken: bool, keep: nat -> bool)
    ensures Filter(if taken then prior + [last] else prior, keep)
         == if taken && keep(last) then Filter(prior, keep) + [last] else Filter(prior, keep)
  {
    FilterJoins(prior, [last], keep);
    FilterFirst(last, [], keep);
    assert [last] + [] == [last];
  }

  lemma {:induction false} RowsLeft(jobs: map<nat, Job>, deleted: set<nat>, keep: Job -> bool, bound: nat)
    ensures IdsBelow(jobs - deleted, keep, bound) == Filter(IdsBelow(jobs, keep, bound), NotIn(deleted))
  {
    if bound != 0 {
      var last: nat := bound - 1;
      RowsLeft(jobs, deleted, keep, last);
      FilterOfAppend(IdsBelow(jobs, keep, last), last, last in jobs && keep(jobs[last]), NotIn(deleted));
      NextId(jobs, keep, last);
      NextId(jobs - deleted, keep, last);
    }
  }

  lemma NextId(jobs: map<nat, Job>, keep: Job -> bool, last: nat)
    ensures IdsBelow(jobs, keep, last + 1)
         == if last in jobs && keep(jobs[last]) then IdsBelow(jobs, keep, last) + [last] else IdsBelow(jobs, keep, last)
  {
  }

  lemma {:induction false} FilterOfReverse(s: seq<nat>, keep: nat -> bool)
    ensures Filter(Reverse(s), keep) == Reverse(Filter(s, keep))
  {
    if s != [] {
      FilterOfReverse(s[1..], keep);
      assert Reverse(s) == Reverse(s[1..]) + [s[0]];
      FilterJoins(Reverse(s[1..]), [s[0]], keep);
    }
  }

  /** Deleting jobs takes them out of the list of outcomes and leaves the others in their order. */
  lemma OutcomesLeft(s: Store, ids: seq<nat>, group: string, since: Option<nat>)
    requires DeleteRows(s.jobs, ids).Some?
    ensures NewestOutcomes(DeleteJobs(s, ids).0, group, since)
         == Filter(NewestOutcomes(s, group, since), NotIn(Ids(ids)))
  {
    DeletionIsAllOrNothing(s.jobs, ids);
    var after := DeleteJobs(s, ids).0;
    assert after.jobs == s.jobs - Ids(ids);
    var outcome := (job: Job) => IsOutcome(job, group, since);
    var keep := NotIn(Ids(ids));
    RowsLeft(s.jobs, Ids(ids), outcome, s.nextId);
    FilterOfSort(Where(s, outcome), EndTimes(s), EndTimes(after), keep);
    FilterOfReverse(SortBy(Where(s, outcome), EndTimes(s)), keep);
  }

  function First(list: seq<nat>, limit: nat): seq<nat> {
    if |list| <= limit then list else list[..limit]
  }

  /** Filtering changes the first elements of a list exactly if one of them goes. */
  lemma FirstOfFilter(list: seq<nat>, limit: nat, keep: nat -> bool)
    ensures First(Filter(list, keep), limit) == First(list, limit) <==> forall x :: x in First(list, limit) ==> keep(x)
  {
    var first := First(list, limit);
    assert list == first + list[|first|..];
    FilterJoins(first, list[|first|..], keep);
    if forall x :: x in first ==> keep(x) {
      FilterKeepsAll(first, keep);
    } else {
      FilterMembers(list, keep);
    }
  }

  /** What can be told before a deletion: it changes the outcomes that the next check looks at
      exactly if one of them is deleted. Then older outcomes move up into their places. */
  lemma DeletionChangesTheWindowExactly(s: Store, ids: seq<nat>, group: string, since: Option<nat>, limit: nat)
    requires DeleteRows(s.jobs, ids).Some?
    ensures RecentOutcomes(DeleteJobs(s, ids).0, group, since, limit) == RecentOutcomes(s, group, since, limit)
       <==> forall x :: x in ids ==> x !in RecentOutcomes(s, group, since, limit)
  {
    OutcomesLeft(s, ids, group, since);
    var newest := NewestOutcomes(s, group, since);
    FirstOfFilter(newest, limit, NotIn(Ids(ids)));
    assert First(newest, limit) == RecentOutcomes(s, group, since, limit);
  }

  /** If no outcome it looks at is deleted, the check after a failure comes out the same. */
  lemma CheckAfterDeletion(s: Store, m: Memory, ids: seq<nat>, group: string, id: nat)
    requires DeleteRows(s.jobs, ids).Some? && m.failFastCount > 0
    requires id in s.jobs && id !in ids && s.jobs[id].InGroup(group)
    requires forall x :: x in ids ==> x !in RecentOutcomes(s, group, ReleasedAt(s, group), m.failFastCount)
    ensures ShouldHold(DeleteJobs(s, ids).0, m, id) <==> ShouldHold(s, m, id)
  {
    DeletionChangesTheWindowExactly(s, ids, group, ReleasedAt(s, group), m.failFastCount);
    var after := DeleteJobs(s, ids).0;
    assert after == s.(jobs := s.jobs - Ids(ids)) by { DeletionIsAllOrNothing(s.jobs, ids); }
    var recent := RecentOutcomes(s, group, ReleasedAt(s, group), m.failFastCount);
    assert RecentOutcomes(after, group, ReleasedAt(after, group), m.failFastCount) == recent;
    forall k | 0 <= k < |recent|
      ensures (recent[k] in after.jobs && QuickFailure(after.jobs[recent[k]], m.failFastTime))
         <==> (recent[k] in s.jobs && QuickFailure(s.jobs[recent[k]], m.failFastTime))
    {
      assert recent[k] in recent;
    }
  }
}
