/** What a use of the scheduler cannot do on the way: release a hold, reopen a paused queue, or start
    a new daemon, unless that is what it is for. */
module Calls {
  import opened Models
  import opened Protocol
  import opened Invariants
  import opened Safety
  import opened FailFast

  /** The groups that may be released (None: any), whether a paused queue may be resumed, and whether
      the daemon may be replaced. */
  datatype Scope = Scope(releases: Option<set<string>>, resumes: bool, restarts: bool)

  const PLAIN := Scope(Some({}), false, false)
  const RESUMING := Scope(Some({}), true, false)
  const RESTARTING := Scope(Some({}), false, true)

  function Releasing(groups: set<string>): Scope {
    Scope(Some(groups), false, false)
  }

  predicate MayRelease(scope: Scope, group: string) {
    scope.releases.None? || group in scope.releases.value
  }

  predicate Allowed(e: Event, scope: Scope) {
    match e
    case Hold(group, held, _) => held || MayRelease(scope, group)
    case Pause(paused) => paused || scope.resumes
    case Crash => scope.restarts
    case Reboot => scope.restarts
    case Restart(_, _) => scope.restarts
    case _ => true
  }

  ghost predicate Only(base: History, h: History, scope: Scope) {
    h == base || (h.Then? && Only(base, h.past, scope) && Allowed(h.event, scope))
  }

  /** The run goes on from `base` to `h`, with no event outside the scope. */
  ghost predicate Within(base: History, h: History, scope: Scope) {
    Extends(base, h) && Only(base, h, scope)
  }

  /** What one event needs. */
  function Least(e: Event): Scope {
    match e
    case Hold(group, held, _) => if held then PLAIN else Releasing({group})
    case Pause(paused) => if paused then PLAIN else RESUMING
    case Crash => RESTARTING
    case Reboot => RESTARTING
    case Restart(_, _) => RESTARTING
    case _ => PLAIN
  }

  lemma OneEvent(base: History, e: Event)
    ensures Within(base, Then(base, e), Least(e))
  {
    assert Only(base, base, Least(e)) && Extends(base, base);
  }

  predicate Wider(scope: Scope, wider: Scope) {
    && (wider.releases.None? || (scope.releases.Some? && scope.releases.value <= wider.releases.value))
    && (scope.resumes ==> wider.resumes) && (scope.restarts ==> wider.restarts)
  }

  lemma {:induction false} OnlyWider(base: History, h: History, scope: Scope, wider: Scope)
    requires Only(base, h, scope) && Wider(scope, wider)
    ensures Only(base, h, wider)
  {
    if h != base {
      OnlyWider(base, h.past, scope, wider);
    }
  }

  lemma {:induction false} OnlyJoins(a: History, b: History, c: History, scope: Scope)
    requires Only(a, b, scope) && Only(b, c, scope)
    ensures Only(a, c, scope)
  {
    if c != b {
      OnlyJoins(a, b, c.past, scope);
    }
  }

  lemma WithinWider(base: History, h: History, scope: Scope, wider: Scope)
    requires Within(base, h, scope) && Wider(scope, wider)
    ensures Within(base, h, wider)
  {
    OnlyWider(base, h, scope, wider);
  }

  lemma WithinJoins(a: History, b: History, c: History, scope: Scope)
    requires Within(a, b, scope) && Within(b, c, scope)
    ensures Within(a, c, scope)
  {
    ExtendsTransitive(a, b, c);
    OnlyJoins(a, b, c, scope);
  }

  /** A scheduling pass does nothing of the kind. */
  lemma {:induction false} PassIsPlain(base: History, h: History)
    requires Legal(h) && PassSince(base, h)
    ensures Within(base, h, PLAIN)
  {
    if h != base {
      PassIsPlain(base, h.past);
    }
  }

  // ---- What follows for holds and for a closed queue ----

  lemma {:induction false} NothingReleased(base: History, h: History, scope: Scope, group: string)
    requires Only(base, h, scope) && !MayRelease(scope, group)
    ensures NotReleased(base, h, group)
  {
    if h != base {
      NothingReleased(base, h.past, scope, group);
    }
  }

  /** The daemon is stopping, or its queue is paused and may not be resumed. */
  ghost predicate Shut(s: System, scope: Scope) {
    s.memory.Some? && (s.memory.value.stopping || (s.memory.value.paused && !scope.resumes))
  }

  lemma ShutStep(s: System, e: Event, scope: Scope)
    requires Enabled(s, e) && Allowed(e, scope) && !scope.restarts && Shut(s, scope)
    ensures Shut(Next(s, e), scope)
  {
  }

  /** A queue that is shut stays so, and is closed all the while. */
  lemma {:induction false} StaysShut(base: History, h: History, scope: Scope)
    requires Legal(h) && Legal(base) && Only(base, h, scope) && !scope.restarts && Shut(State(base), scope)
    ensures Shut(State(h), scope) && ClosedSince(base, h)
  {
    if h != base {
      StaysShut(base, h.past, scope);
      ShutStep(State(h.past), h.event, scope);
    }
  }

  /** A held group that may not be released stays held, and no job of it starts. */
  lemma HoldLasts(base: History, h: History, scope: Scope, group: string)
    requires Legal(h) && Legal(base) && Within(base, h, scope) && !MayRelease(scope, group)
    requires group in State(base).store.holds && State(base).store.holds[group].held
    ensures group in State(h).store.holds && State(h).store.holds[group].held
    ensures State(h).memory.Some? ==> group in State(h).memory.value.held
    ensures NoneStartedIn(State(base).store.jobs, State(h).store.jobs, group)
  {
    NothingReleased(base, h, scope, group);
    HeldUntilReleased(base, h, group);
  }

  /** Every job of the group waits or was cancelled, or had started before. */
  ghost predicate NoneStartedIn(before: map<nat, Job>, after: map<nat, Job>, group: string) {
    forall id :: id in after && after[id].InGroup(group) ==>
      after[id].state.Waiting? || after[id].state.Cancelled? || (id in before && !before[id].state.Waiting?)
  }

  /** Every job waits or was cancelled, or had started before. */
  ghost predicate NoneStarted(before: map<nat, Job>, after: map<nat, Job>) {
    forall id :: id in after ==>
      after[id].state.Waiting? || after[id].state.Cancelled? || (id in before && !before[id].state.Waiting?)
  }

  lemma ShutJobStep(s: System, e: Event, scope: Scope, id: nat)
    requires IdsOk(s.store) && RowsOk(s.store) && Enabled(s, e) && Shut(s, scope) && id in Next(s, e).store.jobs
    requires id in s.store.jobs ==> s.store.jobs[id].state.Waiting? || s.store.jobs[id].state.Cancelled?
    ensures Next(s, e).store.jobs[id].state.Waiting? || Next(s, e).store.jobs[id].state.Cancelled?
  {
    if id !in s.store.jobs {
      RowIsNew(s, e, id);
    } else if Touches(e, id) {
      TouchedRow(s, e, id);
      assert !e.Reserve?;
    } else {
      UntouchedRow(s, e, id);
    }
  }

  /** While the queue is shut nothing starts. */
  lemma {:induction false} ShutStartsNothing(base: History, h: History, scope: Scope)
    requires Legal(h) && Legal(base) && Only(base, h, scope) && !scope.restarts && Shut(State(base), scope)
    ensures Shut(State(h), scope) && NoneStarted(State(base).store.jobs, State(h).store.jobs)
  {
    if h != base {
      ShutStartsNothing(base, h.past, scope);
      ShutStep(State(h.past), h.event, scope);
      assert IdsOk(State(h.past).store) && RowsOk(State(h.past).store) by { InvariantHolds(h.past); }
      forall id | && id in State(h).store.jobs
                  && !(id in State(base).store.jobs && !State(base).store.jobs[id].state.Waiting?)
        ensures State(h).store.jobs[id].state.Waiting? || State(h).store.jobs[id].state.Cancelled?
      {
        ShutJobStep(State(h.past), h.event, scope, id);
      }
    }
  }
}
