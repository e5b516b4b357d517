/** The durable tables as a value, and each transaction of the daemon on them
    (src/gq/database.py). Times are what `utc_now` returns; reading it moves the clock on. */
module Tables {
  import opened Models
  import opened Sorting

  datatype HoldRow = HoldRow(held: bool, reason: Option<string>, changedAt: nat)

  datatype Store = Store(jobs: map<nat, Job>, nextId: nat, holds: map<string, HoldRow>, clock: nat)

  const EMPTY := Store(map[], 1, map[], 0)

  // ---- Queries ----

  /** The ids of the rows a WHERE clause keeps, in id order. */
  function IdsBelow(jobs: map<nat, Job>, keep: Job -> bool, bound: nat): (ids: seq<nat>)
    ensures forall id :: id in ids <==> id < bound && id in jobs && keep(jobs[id])
    ensures forall i, j :: 0 <= i < j < |ids| ==> ids[i] < ids[j]
  {
    if bound == 0 then []
    else
      var prior := IdsBelow(jobs, keep, bound - 1);
      assert forall k :: 0 <= k < |prior| ==> prior[k] in prior;
      if bound - 1 in jobs && keep(jobs[bound - 1]) then prior + [bound - 1] else prior
  }

  function Where(s: Store, keep: Job -> bool): seq<nat> {
    IdsBelow(s.jobs, keep, s.nextId)
  }

  function ActiveIds(s: Store): seq<nat> {
    Where(s, (job: Job) => job.state.Active())
  }

  function SubmitTimes(s: Store): nat -> int {
    (id: nat) => if id in s.jobs then s.jobs[id].submitTime else 0
  }

  function EndTimes(s: Store): nat -> int {
    (id: nat) => if id in s.jobs && s.jobs[id].endTime.Some? then s.jobs[id].endTime.value else 0
  }

  /** ORDER BY submit_time, id */
  function WaitingIds(s: Store): seq<nat> {
    SortBy(Where(s, (job: Job) => job.state.Waiting?), SubmitTimes(s))
  }

  /** Newest job that keeps `key` taken. */
  function KeyHolder(s: Store, key: string): Option<nat> {
    var holders := Where(s, (job: Job) => job.spec.key == Some(key) && !job.state.ReleasesKey());
    if holders == [] then None else Some(holders[|holders| - 1])
  }

  function NewerAttempt(s: Store, root: nat, after: nat): Option<nat> {
    var later := Where(s, (job: Job) => (job.id == root || job.retryOf == Some(root)) && job.id > after);
    if later == [] then None else Some(later[0])
  }

  function AssignmentsBelow(jobs: map<nat, Job>, bound: nat): (owners: map<string, nat>)
    ensures forall u :: u in owners ==> owners[u] < bound && owners[u] in jobs && jobs[owners[u]].Holds(u)
    ensures forall id, u :: id < bound && id in jobs && jobs[id].Holds(u) ==> u in owners
  {
    if bound == 0 then map[]
    else
      var prior := AssignmentsBelow(jobs, bound - 1);
      if bound - 1 in jobs && jobs[bound - 1].state.Holding() then
        var mine := jobs[bound - 1].Uuids();
        prior + map u | u in mine :: bound - 1
      else prior
  }

  /** uuid -> job over the rows of STARTING, RUNNING, CANCELLING and ORPHANED jobs. */
  function Assignments(s: Store): map<string, nat> {
    AssignmentsBelow(s.jobs, s.nextId)
  }

  function ReservedUuids(s: Store): set<string> {
    Assignments(s).Keys
  }

  function HeldGroups(s: Store): map<string, string> {
    map g | g in s.holds && s.holds[g].held ::
      if s.holds[g].reason.Some? then s.holds[g].reason.value else ""
  }

  function ReleasedAt(s: Store, group: string): Option<nat> {
    if group in s.holds && !s.holds[group].held then Some(s.holds[group].changedAt) else None
  }

  predicate IsOutcome(job: Job, group: string, since: Option<nat>) {
    && job.InGroup(group) && (job.state.Done? || job.state.Failed?) && job.endTime.Some?
    && (since.Some? ==> job.endTime.value > since.value)
  }

  function Reverse<T>(s: seq<T>): (r: seq<T>)
    ensures |r| == |s| && forall k :: 0 <= k < |s| ==> r[k] == s[|s| - 1 - k]
  {
    seq(|s|, k requires 0 <= k < |s| => s[|s| - 1 - k])
  }

  /** ORDER BY end_time DESC, id DESC */
  function NewestOutcomes(s: Store, group: string, since: Option<nat>): seq<nat> {
    Reverse(SortBy(Where(s, (job: Job) => IsOutcome(job, group, since)), EndTimes(s)))
  }

  function RecentOutcomes(s: Store, group: string, since: Option<nat>, limit: nat): seq<nat> {
    var newest := NewestOutcomes(s, group, since);
    if |newest| <= limit then newest else newest[..limit]
  }

  // ---- Transactions ----

  datatype Creation = Created(id: nat) | KeyInUse(holder: nat)

  function NewRow(s: Store, spec: JobSpec, retryOf: Option<nat>): Job {
    Job(s.nextId, spec, JobState.Waiting, s.clock, None, None, None, None, None, [], retryOf)
  }

  function Ticked(s: Store): Store {
    s.(clock := s.clock + 1)
  }

  function CreateJob(s: Store, spec: JobSpec, retryOf: Option<nat>): (Store, Creation) {
    var holder := if spec.key.Some? then KeyHolder(s, spec.key.value) else None;
    if holder.Some? then (Ticked(s), KeyInUse(holder.value))
    else (Ticked(s).(jobs := s.jobs[s.nextId := NewRow(s, spec, retryOf)], nextId := s.nextId + 1),
          Created(s.nextId))
  }

  /** UPDATE ... WHERE id = ?, in a transaction that read the clock. */
  function WithRow(s: Store, id: nat, row: Job): Store {
    Ticked(s).(jobs := s.jobs[id := row])
  }

  function ReservedRow(s: Store, id: nat, slots: seq<GpuSlot>): Job
    requires id in s.jobs
  {
    var job := s.jobs[id];
    job.(state := JobState.Starting, startTime := Some(s.clock), gpus := job.gpus + slots)
  }

  function Reserve(s: Store, id: nat, slots: seq<GpuSlot>): (Store, bool) {
    if id in s.jobs && s.jobs[id].state.Waiting?
    then (WithRow(s, id, ReservedRow(s, id, slots)), true)
    else (Ticked(s), false)
  }

  function MarkRunning(s: Store, id: nat, process: ProcessRecord): (Store, bool) {
    if id in s.jobs && s.jobs[id].state.Starting?
    then (s.(jobs := s.jobs[id := s.jobs[id].(state := JobState.Running, process := Some(process))]), true)
    else (s, false)
  }

  function SetCancelling(s: Store, id: nat): (Store, bool) {
    if id in s.jobs && (s.jobs[id].state.Starting? || s.jobs[id].state.Running?)
    then (s.(jobs := s.jobs[id := s.jobs[id].(state := JobState.Cancelling)]), true)
    else (s, false)
  }

  function FinishedRow(s: Store, id: nat, to: JobState, exitCode: Option<int>, reason: Option<Reason>): Job
    requires id in s.jobs
  {
    s.jobs[id].(state := to, endTime := Some(s.clock), exitCode := exitCode, reason := reason)
  }

  /** No guard on the current state: the caller decides. */
  function Finish(s: Store, id: nat, to: JobState, exitCode: Option<int>, reason: Option<Reason>): Store {
    if id in s.jobs then WithRow(s, id, FinishedRow(s, id, to, exitCode, reason)) else Ticked(s)
  }

  /** Row by row, giving up (and rolling back) at the first missing or active one. */
  function DeleteRows(jobs: map<nat, Job>, ids: seq<nat>): Option<map<nat, Job>> {
    if ids == [] then Some(jobs)
    else if ids[0] in jobs && jobs[ids[0]].state.Terminal() then DeleteRows(jobs - {ids[0]}, ids[1..])
    else None
  }

  function DeleteJobs(s: Store, ids: seq<nat>): (Store, bool) {
    var rows := DeleteRows(s.jobs, ids);
    if rows.Some? then (s.(jobs := rows.value), true) else (s, false)
  }

  function SetGroupHold(s: Store, group: string, held: bool, reason: Option<string>): (Store, bool) {
    if (if group in s.holds then s.holds[group].held == held else !held) then (s, false)
    else (Ticked(s).(holds := s.holds[group := HoldRow(held, reason, s.clock)]), true)
  }

  // ---- Facts about the queries ----

  /** (submit_time, id) order. */
  predicate Before(s: Store, a: nat, b: nat)
    requires a in s.jobs && b in s.jobs
  {
    s.jobs[a].submitTime < s.jobs[b].submitTime || (s.jobs[a].submitTime == s.jobs[b].submitTime && a < b)
  }

  ghost predicate LexSorted(ids: seq<nat>, key: nat -> int) {
    forall i, j :: 0 <= i < j < |ids| ==> key(ids[i]) < key(ids[j]) || (key(ids[i]) == key(ids[j]) && ids[i] < ids[j])
  }

  lemma {:induction false} InsertSortsLex(x: nat, ids: seq<nat>, key: nat -> int)
    requires LexSorted(ids, key) && forall k :: 0 <= k < |ids| ==> x < ids[k]
    ensures LexSorted(Insert(x, ids, key), key)
  {
    if ids != [] && key(x) > key(ids[0]) {
      InsertSortsLex(x, ids[1..], key);
      InsertPermutes(x, ids[1..], key);
      var rest := Insert(x, ids[1..], key);
      forall j | 0 <= j < |rest|
        ensures key(ids[0]) < key(rest[j]) || (key(ids[0]) == key(rest[j]) && ids[0] < rest[j])
      {
        assert rest[j] in multiset(rest);
        assert rest[j] in [x] + ids[1..];
      }
    }
  }

  /** A stable sort of ascending ids orders ties by id. */
  lemma {:induction false} SortSortsLex(ids: seq<nat>, key: nat -> int)
    requires forall i, j :: 0 <= i < j < |ids| ==> ids[i] < ids[j]
    ensures LexSorted(SortBy(ids, key), key)
  {
    if ids != [] {
      SortSortsLex(ids[1..], key);
      var rest := SortBy(ids[1..], key);
      SortPermutes(ids[1..], key);
      forall k | 0 <= k < |rest| ensures ids[0] < rest[k] {
        assert rest[k] in multiset(rest);
        assert rest[k] in ids[1..];
      }
      InsertSortsLex(ids[0], rest, key);
    }
  }

  /** What was set is what is read: the group is held with the reason it was held with first, or it
      is free and counts anew from its release; other groups are as before, and setting the same
      again changes nothing. */
  lemma HoldsAreReadBack(s: Store, group: string, held: bool, reason: Option<string>)
    ensures var (s', changed) := SetGroupHold(s, group, held, reason);
            && (changed <==> held != (group in HeldGroups(s)))
            && (held && changed ==> HeldGroups(s') == HeldGroups(s)[group := if reason.Some? then reason.value else ""])
            && (!held ==> HeldGroups(s') == HeldGroups(s) - {group})
            && (!held && changed ==> ReleasedAt(s', group) == Some(s.clock))
            && (!changed ==> s' == s)
            && (forall g :: g != group ==> ReleasedAt(s', g) == ReleasedAt(s, g))
            && s'.jobs == s.jobs && s'.nextId == s.nextId
            && forall again :: SetGroupHold(s', group, held, again) == (s', false)
  {
    assert group in HeldGroups(s) <==> group in s.holds && s.holds[group].held;
  }

  /** The waiting list is exactly the WAITING jobs, in (submit_time, id) order. */
  lemma WaitingListIsExact(s: Store)
    requires forall id :: id in s.jobs ==> id < s.nextId
    ensures forall id :: id in WaitingIds(s) <==> id in s.jobs && s.jobs[id].state.Waiting?
    ensures forall i, j :: 0 <= i < j < |WaitingIds(s)| ==>
              WaitingIds(s)[i] in s.jobs && WaitingIds(s)[j] in s.jobs && Before(s, WaitingIds(s)[i], WaitingIds(s)[j])
  {
    var key := SubmitTimes(s);
    var ids := Where(s, (job: Job) => job.state.Waiting?);
    SortSortsLex(ids, key);
    forall id ensures id in WaitingIds(s) <==> id in ids {
      SortKeepsMembers(ids, key, id);
    }
    var sorted := WaitingIds(s);
    forall i, j | 0 <= i < j < |sorted|
      ensures sorted[i] in s.jobs && sorted[j] in s.jobs && Before(s, sorted[i], sorted[j]) {
      assert sorted[i] in sorted && sorted[j] in sorted;
    }
  }

  /** A job that keeps its key taken: any but a FAILED or CANCELLED one. */
  predicate Takes(job: Job, key: string) {
    job.spec.key == Some(key) && job.state !in {JobState.Failed, JobState.Cancelled}
  }

  /** STARTING, RUNNING or CANCELLING. */
  predicate Unfinished(state: JobState) {
    state in {JobState.Starting, JobState.Running, JobState.Cancelling}
  }

  /** DONE, FAILED, CANCELLED or ORPHANED. */
  predicate HasEnded(state: JobState) {
    state in {JobState.Done, JobState.Failed, JobState.Cancelled, JobState.Orphaned}
  }

  /** Deletion is all or nothing: it succeeds exactly for distinct ids of terminal jobs. */
  lemma {:induction false} DeletionIsAllOrNothing(jobs: map<nat, Job>, ids: seq<nat>)
    ensures DeleteRows(jobs, ids).Some? <==>
              && (forall k :: 0 <= k < |ids| ==> ids[k] in jobs && HasEnded(jobs[ids[k]].state))
              && (forall i, j :: 0 <= i < j < |ids| ==> ids[i] != ids[j])
    ensures DeleteRows(jobs, ids).Some? ==> DeleteRows(jobs, ids).value == jobs - (set id | id in ids)
  {
    if ids != [] && ids[0] in jobs && jobs[ids[0]].state.Terminal() {
      var fewer := jobs - {ids[0]};
      DeletionIsAllOrNothing(fewer, ids[1..]);
      assert (set id | id in ids) == {ids[0]} + (set id | id in ids[1..]);
      if forall k :: 0 <= k < |ids[1..]| ==> ids[1..][k] in fewer && fewer[ids[1..][k]].state.Terminal() {
        forall k | 0 <= k < |ids| ensures ids[k] in jobs && jobs[ids[k]].state.Terminal() {
          if k > 0 { assert ids[1..][k - 1] in fewer; }
        }
      }
      if (forall k :: 0 <= k < |ids| ==> ids[k] in jobs && jobs[ids[k]].state.Terminal())
         && (forall i, j :: 0 <= i < j < |ids| ==> ids[i] != ids[j]) {
        forall k | 0 <= k < |ids[1..]| ensures ids[1..][k] in fewer && fewer[ids[1..][k]].state.Terminal() {
          assert ids[1..][k] == ids[k + 1] && ids[0] != ids[k + 1];
        }
      }
    }
  }
}
