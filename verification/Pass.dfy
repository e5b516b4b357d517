/** What a scheduling pass may change: the FREE devices never grow while it runs. */
module Pass {
  import opened Models
  import opened Allocator
  import opened Tables
  import opened Protocol
  import opened Invariants
  import opened Safety
  import opened FailFast

  /** Jobs that hold GPUs and are not being launched keep them, groups stay held, and devices,
      flags and the set of jobs stay what they were. */
  ghost predicate PassMonotone(s: System, s': System) {
    && s.memory.Some? && s'.memory.Some?
    && s'.memory.value.observations == s.memory.value.observations
    && s'.memory.value.paused == s.memory.value.paused && s'.memory.value.stopping == s.memory.value.stopping
    && s.memory.value.held.Keys <= s'.memory.value.held.Keys
    && s'.store.nextId == s.store.nextId && s'.store.jobs.Keys == s.store.jobs.Keys
    && (forall id :: id in s.store.jobs ==> SameIdentity(s'.store.jobs[id], s.store.jobs[id]))
    && (forall id :: id in s.store.jobs && s.store.jobs[id].state.Holding() && !s.store.jobs[id].state.Starting? ==>
          s'.store.jobs[id] == s.store.jobs[id])
  }

  /** A step that writes one row of a job that is waiting or being launched. */
  lemma RowStepMonotone(s: System, s': System, id: nat)
    requires s.memory.Some? && s'.memory.Some? && OneRowChanged(s.store, s'.store, id)
    requires s'.memory.value.(pending := None) == s.memory.value.(pending := None)
    requires s.store.jobs[id].state.Waiting? || s.store.jobs[id].state.Starting?
    requires SameIdentity(s'.store.jobs[id], s.store.jobs[id])
    ensures PassMonotone(s, s')
  {
  }

  lemma NoteMonotone(s: System)
    requires Enabled(s, Note)
    ensures PassMonotone(s, Next(s, Note))
  {
    NoteLeavesJobs(s);
  }

  lemma PassStepMonotone(s: System, e: Event)
    requires Enabled(s, e) && PassStep(s, e) && s.memory.Some?
    ensures PassMonotone(s, Next(s, e))
  {
    match e
    case Reserve(id, _) => RowStepMonotone(s, Next(s, e), id);
    case MarkRunning(id, _) => RowStepMonotone(s, Next(s, e), id);
    case Finish(id, _, _, _, _) => RowStepMonotone(s, Next(s, e), id);
    case Note => NoteMonotone(s);
    case _ =>
  }

  lemma {:induction false} PassIsMonotone(base: History, h: History)
    requires Legal(h) && PassSince(base, h) && Legal(base) && State(base).memory.Some?
    ensures PassMonotone(State(base), State(h))
  {
    if h != base {
      PassIsMonotone(base, h.past);
      PassStepMonotone(State(h.past), h.event);
    }
  }

  /** From a quiet moment on, whatever the pass does (launches that fail give their GPUs back),
      no device becomes FREE that was not, and a job that had to wait still has to. */
  lemma FreeNeverGrows(base: History, h: History, id: nat)
    requires Legal(h) && PassSince(base, h) && Legal(base) && Quiet(State(base))
    ensures State(h).memory.Some? && |FreeNow(State(h))| <= |FreeNow(State(base))|
    ensures forall o :: o in FreeNow(State(h)) ==> o in FreeNow(State(base))
    ensures id in State(base).store.jobs && MustWait(State(base), id) ==>
              id in State(h).store.jobs && MustWait(State(h), id)
  {
    PassIsMonotone(base, h);
    var s, s' := State(base), State(h);
    forall u | u in ReservedUuids(s.store) ensures u in ReservedUuids(s'.store) {
      var owner := Assignments(s.store)[u];
      assert s'.store.jobs[owner].Holds(u);
    }
    FreeGpusShrink(s.memory.value.observations, ReservedUuids(s.store), ReservedUuids(s'.store));
  }

  lemma PassGrows(base: History, h: History, e: Event)
    requires Legal(Then(h, e)) && PassSince(base, h) && PassStep(State(h), e)
    ensures PassSince(base, Then(h, e))
  {
  }

  /** The first `count` jobs of the waiting list are settled: started, or bound to wait. */
  ghost predicate Settled(s: System, waiting: seq<nat>, count: nat)
    requires s.memory.Some? && count <= |waiting|
  {
    forall k :: 0 <= k < count ==>
      waiting[k] in s.store.jobs && (s.store.jobs[waiting[k]].state.Waiting? ==> MustWait(s, waiting[k]))
  }

  /** Launching one more job unsettles none of the jobs before it. */
  lemma SettledStays(base: History, h: History, waiting: seq<nat>, count: nat, id: nat)
    requires Legal(h) && PassSince(base, h) && Legal(base) && Quiet(State(base)) && count <= |waiting|
    requires Settled(State(base), waiting, count)
    requires forall j :: j in State(base).store.jobs && j != id ==>
               j in State(h).store.jobs && State(h).store.jobs[j] == State(base).store.jobs[j]
    requires id in State(h).store.jobs && !State(h).store.jobs[id].state.Waiting?
    ensures State(h).memory.Some? && Settled(State(h), waiting, count)
  {
    PassIsMonotone(base, h);
    forall k | 0 <= k < count
      ensures waiting[k] in State(h).store.jobs
      ensures State(h).store.jobs[waiting[k]].state.Waiting? ==> MustWait(State(h), waiting[k])
    {
      FreeNeverGrows(base, h, waiting[k]);
    }
  }

  lemma {:induction false} PassesCompose(a: History, b: History, c: History)
    requires Legal(b) && Legal(c) && PassSince(a, b) && PassSince(b, c)
    ensures PassSince(a, c)
  {
    if c != b {
      PassesCompose(a, b, c.past);
    }
  }

  /** A pass leaves the row of a job alone that is neither waiting nor being launched. */
  lemma PassKeepsRow(base: History, h: History, id: nat)
    requires Legal(h) && PassSince(base, h) && Legal(base) && Quiet(State(base))
    requires id in State(base).store.jobs && !State(base).store.jobs[id].state.Waiting?
    ensures id in State(h).store.jobs && State(h).store.jobs[id] == State(base).store.jobs[id]
  {
    PassIsMonotone(base, h);
    if State(base).store.jobs[id].state.Terminal() {
      PassExtends(base, h);
      LifecycleIsKept(base, h, id);
    }
  }

  lemma {:induction false} PassExtends(base: History, h: History)
    requires Legal(h) && PassSince(base, h)
    ensures Extends(base, h)
  {
    if h != base {
      PassExtends(base, h.past);
    }
  }
}
