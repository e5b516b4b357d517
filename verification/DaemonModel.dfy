/** The daemon around the scheduler (src/gq/daemon.py): requests, the reconciliation loop and the
    coroutines that follow a job take the lock one after another, in any order. */
module DaemonModel {
  import opened Models
  import opened Protocol
  import opened Safety
  import opened Calls
  import opened Timestamps
  import opened SchedulerFacts
  import opened SchedulerModel

  /** One use of the scheduler. `WatchJob` and `FollowCancellation` are turns of the coroutines of
      other jobs: one look, and the lock hold that follows if the group is gone. */
  datatype Request =
    | SubmitJob(spec: JobSpec, cwdExists: bool, resolved: string, snapshot: Snapshot)
    | RetryJobs(ids: seq<nat>, directories: nat -> bool, snapshot: Snapshot)
    | CancelJob(id: nat)
    | CancelJobs(ids: seq<nat>)
    | PauseQueue(pause: bool)
    | HoldGroup(group: string, hold: bool, reason: Option<string>)
    | DeleteThese(ids: seq<nat>)
    | CleanOld(cutoff: string, states: seq<JobState>, stamp: nat -> Stamp)
    | Reconcile(snapshot: Snapshot)
    | WatchJob(id: nat, exitCode: int, snapshot: Snapshot)
    | FollowCancellation(id: nat, snapshot: Snapshot)
    | Shutdown
  {
    /** What it may do on the way. A retry releases the groups of what it retries. */
    function Needs(): Scope {
      match this
      case RetryJobs(_, _, _) => Scope(None, false, false)
      case HoldGroup(group, hold, _) => if hold then PLAIN else Releasing({group})
      case PauseQueue(pause) => if pause then PLAIN else RESUMING
      case _ => PLAIN
    }

    /** A scan reports no device twice. */
    ghost predicate Sound() {
      (SubmitJob? || RetryJobs? || Reconcile? || WatchJob? || FollowCancellation?) && snapshot.Devices? ==>
        DistinctUuids(snapshot.observations)
    }
  }

  method Serve(s: Scheduler, r: Request)
    requires s.Ready() && r.Sound()
    modifies s, s.db, s.kernel
    ensures s.Ready() && Within(old(s.history), s.history, r.Needs())
  {
    match r
    case SubmitJob(spec, cwdExists, resolved, snapshot) =>
      var answer := s.Submit(spec, cwdExists, resolved, snapshot);
    case RetryJobs(ids, directories, snapshot) =>
      ghost var base := s.history;
      var created, skipped, released := s.Retry(ids, directories, snapshot);
      WithinWider(base, s.history, Releasing(Groups(released)), r.Needs());
    case CancelJob(id) =>
      var outcome := s.Cancel(id);
    case CancelJobs(ids) =>
      var cancelled, cancelling, skipped := s.CancelMany(ids);
    case PauseQueue(pause) =>
      s.SetPaused(pause);
    case HoldGroup(group, hold, reason) =>
      var changed := s.SetGroupHeld(group, hold, reason);
    case DeleteThese(ids) =>
      var ok := s.DeleteJobs(ids);
    case CleanOld(cutoff, states, stamp) =>
      var removed := s.CleanJobs(cutoff, states, stamp);
    case Reconcile(snapshot) =>
      s.Tick(snapshot);
    case WatchJob(id, exitCode, snapshot) =>
      WatchTurn(s, id, exitCode, snapshot);
    case FollowCancellation(id, snapshot) =>
      FollowTurn(s, id, snapshot);
    case Shutdown =>
      s.Close();
  }

  method WatchTurn(s: Scheduler, id: nat, exitCode: int, snapshot: Snapshot)
    requires s.Ready() && (snapshot.Devices? ==> DistinctUuids(snapshot.observations))
    modifies s, s.db, s.kernel
    ensures s.Ready() && Within(old(s.history), s.history, PLAIN)
  {
    if id in s.processes {
      ghost var base := s.history;
      var gone := s.MonitorLooks(id);
      ghost var mid := s.history;
      if gone {
        s.MonitorEnds(id, exitCode, snapshot);
        WithinJoins(base, mid, s.history, PLAIN);
      }
    }
  }

  method FollowTurn(s: Scheduler, id: nat, snapshot: Snapshot)
    requires s.Ready() && (snapshot.Devices? ==> DistinctUuids(snapshot.observations))
    modifies s, s.db, s.kernel
    ensures s.Ready() && Within(old(s.history), s.history, PLAIN)
  {
    if id !in s.processes {
      ghost var base := s.history;
      var gone := s.CancellationLooks(id);
      ghost var mid := s.history;
      if gone {
        s.CancellationEnds(id, snapshot);
        WithinJoins(base, mid, s.history, PLAIN);
      }
    }
  }

  method ServeAll(s: Scheduler, requests: seq<Request>, ghost scope: Scope)
    requires s.Ready() && forall r :: r in requests ==> r.Sound() && Wider(r.Needs(), scope)
    modifies s, s.db, s.kernel
    ensures s.Ready() && Within(old(s.history), s.history, scope)
  {
    ghost var base := s.history;
    for i := 0 to |requests|
      invariant s.Ready() && Within(base, s.history, scope)
    {
      ghost var mid := s.history;
      Serve(s, requests[i]);
      WithinWider(mid, s.history, requests[i].Needs(), scope);
      WithinJoins(base, mid, s.history, scope);
    }
  }

  // ---- Following a job to its end ----

  /** All that requests can do to one daemon. */
  const ANYTHING := Scope(None, true, false)


  /** The job reached RUNNING once; its row, if it is still there, says so. */
  ghost predicate Recorded(s: System, id: nat) {
    id < s.store.nextId && (id in s.store.jobs ==> s.store.jobs[id].process.Some?)
  }

  lemma StaysRecorded(base: History, h: History, id: nat)
    requires Legal(h) && Legal(base) && Extends(base, h) && Recorded(State(base), id)
    ensures Recorded(State(h), id)
  {
    if id in State(base).store.jobs {
      LifecycleIsKept(base, h, id);
    } else {
      DeletedStaysDeleted(base, h, id);
    }
  }

  /** The coroutine that waits for a job this daemon started, after its process has exited: it looks
      for the group without the lock, again and again, and when it finds nobody takes the lock.
      Between any look and what follows, other requests may be served. */
  method Monitor(s: Scheduler, id: nat, exitCode: int, snapshot: Snapshot, meanwhile: seq<seq<Request>>)
    returns (ended: bool)
    requires s.Ready() && id in s.spawned && Recorded(s.Sys(), id)
    requires snapshot.Devices? ==> DistinctUuids(snapshot.observations)
    requires forall i, r :: 0 <= i < |meanwhile| && r in meanwhile[i] ==> r.Sound()
    modifies s, s.db, s.kernel
    ensures s.Ready() && Within(old(s.history), s.history, ANYTHING)
    ensures ended ==> Gone(s.Sys(), id) && (id in s.db.jobs ==> s.db.jobs[id].state.Terminal())
  {
    ghost var base := s.history;
    ended := false;
    var i := 0;
    while i < |meanwhile| && !ended
      invariant 0 <= i <= |meanwhile| && s.Ready() && Within(base, s.history, ANYTHING)
      invariant ended ==> Gone(s.Sys(), id) && (id in s.db.jobs ==> s.db.jobs[id].state.Terminal())
      decreases |meanwhile| - i
    {
      ghost var h := s.history;
      var gone := s.MonitorLooks(id);
      ghost var looked := s.history;
      WithinWider(h, looked, PLAIN, ANYTHING);
      WithinJoins(base, h, looked, ANYTHING);
      ServeAll(s, meanwhile[i], ANYTHING);
      WithinJoins(base, looked, s.history, ANYTHING);
      if gone {
        ghost var mid := s.history;
        StillGone(base, looked, mid, id);
        SpawnedOnce(base, mid, id);
        s.MonitorEnds(id, exitCode, snapshot);
        WithinWider(mid, s.history, PLAIN, ANYTHING);
        WithinJoins(base, mid, s.history, ANYTHING);
        ended := true;
        StillGone(base, looked, s.history, id) by { WithinJoins(looked, mid, s.history, ANYTHING); }
      }
      i := i + 1;
    }
  }

  lemma StillGone(base: History, looked: History, h: History, id: nat)
    requires Legal(base) && Legal(looked) && Legal(h) && Extends(base, looked) && Extends(looked, h)
    requires Recorded(State(base), id) && Gone(State(looked), id)
    ensures Gone(State(h), id)
  {
    StaysRecorded(base, looked, id);
    GoneStaysGone(looked, h, id);
  }

  /** The coroutine that follows a cancellation. In the grace period it looks until the group is
      gone; then it sends SIGKILL. A job that this daemon watches is left to its monitor. */
  method FinishCancellation(s: Scheduler, id: nat, snapshot: Snapshot, grace: seq<seq<Request>>,
                            meanwhile: seq<seq<Request>>)
    returns (ended: bool)
    requires s.Ready() && Recorded(s.Sys(), id)
    requires snapshot.Devices? ==> DistinctUuids(snapshot.observations)
    requires forall i, r :: 0 <= i < |grace| && r in grace[i] ==> r.Sound()
    requires forall i, r :: 0 <= i < |meanwhile| && r in meanwhile[i] ==> r.Sound()
    modifies s, s.db, s.kernel
    ensures s.Ready() && Within(old(s.history), s.history, ANYTHING)
    ensures ended ==> Gone(s.Sys(), id) && (id in s.db.jobs ==> !s.db.jobs[id].state.Cancelling?)
  {
    ghost var base := s.history;
    Grace(s, id, grace);
    ended := false;
    if id in s.processes {
      return;
    }
    var i := 0;
    while i < |meanwhile| && !ended
      invariant 0 <= i <= |meanwhile| && s.Ready() && Within(base, s.history, ANYTHING)
      invariant ended ==> Gone(s.Sys(), id) && (id in s.db.jobs ==> !s.db.jobs[id].state.Cancelling?)
      decreases |meanwhile| - i
    {
      ghost var h := s.history;
      var gone := s.CancellationLooks(id);
      ghost var looked := s.history;
      WithinWider(h, looked, PLAIN, ANYTHING);
      WithinJoins(base, h, looked, ANYTHING);
      ServeAll(s, meanwhile[i], ANYTHING);
      WithinJoins(base, looked, s.history, ANYTHING);
      if gone {
        ghost var mid := s.history;
        StillGone(base, looked, mid, id);
        s.CancellationEnds(id, snapshot);
        WithinWider(mid, s.history, PLAIN, ANYTHING);
        WithinJoins(base, mid, s.history, ANYTHING);
        ended := true;
        StillGone(base, looked, s.history, id) by { WithinJoins(looked, mid, s.history, ANYTHING); }
      }
      i := i + 1;
    }
  }

  method Grace(s: Scheduler, id: nat, grace: seq<seq<Request>>)
    requires s.Ready()
    requires forall i, r :: 0 <= i < |grace| && r in grace[i] ==> r.Sound()
    modifies s, s.db, s.kernel
    ensures s.Ready() && Within(old(s.history), s.history, ANYTHING)
  {
    ghost var base := s.history;
    var gone := false;
    var i := 0;
    while i < |grace| && !gone
      invariant 0 <= i <= |grace| && s.Ready() && Within(base, s.history, ANYTHING)
      decreases |grace| - i, !gone
    {
      ghost var h := s.history;
      gone := s.CancellationLooks(id);
      WithinWider(h, s.history, PLAIN, ANYTHING);
      WithinJoins(base, h, s.history, ANYTHING);
      if !gone {
        ghost var looked := s.history;
        ServeAll(s, grace[i], ANYTHING);
        WithinJoins(base, looked, s.history, ANYTHING);
      }
      i := i + 1;
    }
    if !gone && id in s.db.jobs {
      ghost var h := s.history;
      var sent := s.SignalJob(id);
      WithinWider(h, s.history, PLAIN, ANYTHING);
      WithinJoins(base, h, s.history, ANYTHING);
    }
  }

  // ---- Across restarts ----

  /** The daemon dies and another one starts over the same tables on the same machine. */
  method RestartDaemon(last: Scheduler, failFastCount: int, failFastTime: int, snapshot: Snapshot)
    returns (s: Scheduler)
    requires last.Ready() && (snapshot.Devices? ==> DistinctUuids(snapshot.observations))
    modifies last.db, last.kernel
    ensures fresh(s) && s.db == last.db && s.kernel == last.kernel
    ensures s.Ready() && Within(old(last.history), s.history, RESTARTING)
  {
    ghost var base := last.history;
    ghost var crashed := Then(base, Crash);
    s := new Scheduler(last.db, last.kernel, failFastCount, failFastTime, crashed, last.spawned);
    s.Initialize(snapshot);
    OneEvent(base, Crash);
    WithinJoins(base, crashed, s.history, RESTARTING);
  }

  /** What remains of a bulk cancel for good: a job that waited is CANCELLED; one that held GPUs is
      CANCELLING, ORPHANED, CANCELLED or FAILED, kept its GPUs in the row, and gave them back only
      when its group was gone; a finished job is as it was. */
  ghost predicate CancelsLast(before: map<nat, Job>, s: System, ids: seq<nat>) {
    forall id :: id in ids && id in before && id in s.store.jobs ==>
      && LaterState(CancelledState(before[id].state), s.store.jobs[id].state)
      && s.store.jobs[id].gpus == before[id].gpus
      && (before[id].state.Active() && !s.store.jobs[id].state.Holding() ==> Gone(s, id))
  }

  /** After a bulk cancel any requests may be served, the daemon may be restarted, and more requests
      be served: no pass of any of them starts a job named in it. */
  method CancelForGood(first: Scheduler, ids: seq<nat>, requests: seq<Request>, failFastCount: int, failFastTime: int,
                       snapshot: Snapshot, later: seq<Request>) returns (s: Scheduler)
    requires first.Ready() && (snapshot.Devices? ==> DistinctUuids(snapshot.observations))
    requires forall r :: r in requests + later ==> r.Sound()
    modifies first, first.db, first.kernel
    ensures s.db == first.db && s.Ready() && Extends(old(first.history), s.history)
    ensures CancelsLast(old(first.db.jobs), s.Sys(), ids)
  {
    ghost var before, base := first.db.jobs, first.history;
    var cancelled, cancelling, skipped := first.CancelMany(ids);
    ghost var done := first.history;
    ServeAll(first, requests, ANYTHING);
    ghost var served := first.history;
    s := RestartDaemon(first, failFastCount, failFastTime, snapshot);
    ghost var restarted := s.history;
    ServeAll(s, later, ANYTHING);
    ExtendsTransitive(done, served, restarted);
    ExtendsTransitive(done, restarted, s.history);
    ExtendsTransitive(base, done, s.history);
    CancelsStandForGood(before, done, s.history, ids);
  }

  lemma CancelsStandForGood(before: map<nat, Job>, done: History, h: History, ids: seq<nat>)
    requires Legal(done) && Legal(h) && Extends(done, h) && CancelsStand(before, State(done).store, ids)
    ensures CancelsLast(before, State(h), ids)
  {
    forall id | id in ids && id in before && id in State(h).store.jobs
      ensures LaterState(CancelledState(before[id].state), State(h).store.jobs[id].state)
      ensures State(h).store.jobs[id].gpus == before[id].gpus
      ensures before[id].state.Active() && !State(h).store.jobs[id].state.Holding() ==> Gone(State(h), id)
    {
      LifecycleIsKept(done, h, id);
      EndedIsGone(h, id);
    }
  }

  // ---- Holds, pauses and shutdown, as a client sees them ----

  ghost function ReleasedBy(requests: seq<Request>): set<string> {
    set r | r in requests && r.HoldGroup? && !r.hold :: r.group
  }

  /** All that these requests can do, over restarts, if none of them may release `group`. */
  ghost function HoldingScope(requests: seq<Request>): Scope {
    Scope(Some(ReleasedBy(requests)), true, true)
  }

  lemma HoldingScopeIsWide(requests: seq<Request>, group: string)
    requires forall r :: r in requests ==> !MayRelease(r.Needs(), group)
    ensures forall r :: r in requests ==> Wider(r.Needs(), HoldingScope(requests))
    ensures !MayRelease(HoldingScope(requests), group)
  {
    forall r | r in requests ensures Wider(r.Needs(), HoldingScope(requests)) {
      if r.HoldGroup? && !r.hold {
        assert r.group in ReleasedBy(requests);
      }
    }
  }

  /** A group is held by hand. Any requests that neither release it nor retry jobs may be served, the
      daemon may be restarted, and more such requests be served: the group is still held, and no job
      of it has started, those submitted meanwhile included. */
  method HoldForGood(first: Scheduler, group: string, requests: seq<Request>, failFastCount: int, failFastTime: int,
                     snapshot: Snapshot, later: seq<Request>) returns (s: Scheduler)
    requires first.Ready() && Label(group) && (snapshot.Devices? ==> DistinctUuids(snapshot.observations))
    requires forall r :: r in requests + later ==> r.Sound() && !MayRelease(r.Needs(), group)
    modifies first, first.db, first.kernel
    ensures s.db == first.db && s.Ready() && group in s.held
    ensures NoneStartedIn(old(first.db.jobs), s.db.jobs, group)
  {
    ghost var scope := HoldingScope(requests + later);
    HoldingScopeIsWide(requests + later, group);
    var changed := first.SetGroupHeld(group, true, None);
    ghost var base := first.history;
    HoldsAreMirrored(base, group);
    ServeAll(first, requests, scope);
    ghost var served := first.history;
    s := RestartDaemon(first, failFastCount, failFastTime, snapshot);
    ghost var restarted := s.history;
    WithinWider(served, restarted, RESTARTING, scope);
    WithinJoins(base, served, restarted, scope);
    ServeAll(s, later, scope);
    WithinJoins(base, restarted, s.history, scope);
    HoldLasts(base, s.history, scope, group);
  }

  /** A paused queue starts nothing, whatever is served, until it is resumed. */
  method PauseForGood(s: Scheduler, requests: seq<Request>)
    requires s.Ready() && forall r :: r in requests ==> r.Sound() && !r.Needs().resumes
    modifies s, s.db, s.kernel
    ensures s.Ready() && NoneStarted(old(s.db.jobs), s.db.jobs)
  {
    ghost var scope := Scope(None, false, false);
    s.SetPaused(true);
    ghost var base := s.history;
    ServeAll(s, requests, scope);
    ShutStartsNothing(base, s.history, scope);
  }

  /** A daemon that is stopping starts nothing, whatever is served, a resume included. */
  method CloseForGood(s: Scheduler, requests: seq<Request>)
    requires s.Ready() && forall r :: r in requests ==> r.Sound()
    modifies s, s.db, s.kernel
    ensures s.Ready() && NoneStarted(old(s.db.jobs), s.db.jobs)
  {
    s.Close();
    ghost var base := s.history;
    ServeAll(s, requests, ANYTHING);
    ShutStartsNothing(base, s.history, ANYTHING);
  }
}
