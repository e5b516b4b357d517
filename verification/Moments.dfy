/** What the times in the tables are times of. */
module Moments {
  import opened Models
  import opened Tables
  import opened Protocol
  import opened Invariants
  import opened Safety

  /** The run has an event of this kind for the job, at this time of the tables' clock. */
  ghost predicate Stamped(h: History, id: nat, time: nat, kind: Event -> bool)
    requires Legal(h)
  {
    && h.Then?
    && (|| (kind(h.event) && State(h.past).store.clock == time && Concerns(h, id))
        || Stamped(h.past, id, time, kind))
  }

  /** The last event creates, reserves or finishes this job. */
  ghost predicate Concerns(h: History, id: nat)
    requires Legal(h) && h.Then?
  {
    match h.event
    case Create(_, _) => id == State(h.past).store.nextId
    case Reserve(j, _) => j == id
    case Finish(j, _, _, _, _) => j == id
    case _ => false
  }

  function Creations(): Event -> bool { (e: Event) => e.Create? }

  function Reservations(): Event -> bool { (e: Event) => e.Reserve? }

  function Finishes(): Event -> bool { (e: Event) => e.Finish? }

  /** What one event writes into the times of a row. */
  ghost predicate TimesMove(s: Store, e: Event, id: nat, row: Job)
  {
    && row.submitTime == (if id in s.jobs then s.jobs[id].submitTime else s.clock)
    && row.startTime == (if e.Reserve? && e.id == id then Some(s.clock)
                         else if id in s.jobs then s.jobs[id].startTime else None)
    && row.endTime == (if e.Finish? && e.id == id then Some(s.clock)
                       else if id in s.jobs then s.jobs[id].endTime else None)
    && (id !in s.jobs ==> e.Create? && id == s.nextId)
  }

  lemma TimesStep(s: System, e: Event, id: nat)
    requires IdsOk(s.store) && Enabled(s, e) && id in Next(s, e).store.jobs
    ensures TimesMove(s.store, e, id, Next(s, e).store.jobs[id])
  {
    if id in s.store.jobs && !Touches(e, id) {
      UntouchedRow(s, e, id);
    } else if id !in s.store.jobs {
      CreatedTimes(s, e, id);
    } else {
      TouchedTimes(s, e, id);
    }
  }

  lemma CreatedTimes(s: System, e: Event, id: nat)
    requires IdsOk(s.store) && Enabled(s, e) && id in Next(s, e).store.jobs && id !in s.store.jobs
    ensures TimesMove(s.store, e, id, Next(s, e).store.jobs[id])
  {
    match e
    case Create(spec, retryOf) => CreationAddsOneRow(s.store, spec, retryOf);
    case Delete(ids) => DeletionIsAllOrNothing(s.store.jobs, ids);
    case Note => NoteLeavesJobs(s);
    case _ =>
  }

  lemma TouchedTimes(s: System, e: Event, id: nat)
    requires Enabled(s, e) && id in Next(s, e).store.jobs && id in s.store.jobs && Touches(e, id)
    ensures TimesMove(s.store, e, id, Next(s, e).store.jobs[id])
  {
    if e.Delete? {
      DeletedRow(s.store, e.ids, id);
    }
  }

  /** A job's submit time is the moment its row was created, its start time that of its reservation,
      and its end time that of its end. */
  lemma {:induction false} TimesAreMoments(h: History, id: nat)
    requires Legal(h) && id in State(h).store.jobs
    ensures var job := State(h).store.jobs[id];
            && Stamped(h, id, job.submitTime, Creations())
            && (job.startTime.Some? ==> Stamped(h, id, job.startTime.value, Reservations()))
            && (job.endTime.Some? ==> Stamped(h, id, job.endTime.value, Finishes()))
  {
    if h.Then? {
      assert IdsOk(State(h.past).store) by { InvariantHolds(h.past); }
      TimesStep(State(h.past), h.event, id);
      if id in State(h.past).store.jobs {
        TimesAreMoments(h.past, id);
      }
    }
  }

  /** The order of the waiting list, by submit time and then by id, is the order of creation. */
  lemma {:induction false} QueueOrderIsCreationOrder(h: History, a: nat, b: nat)
    requires Legal(h) && a in State(h).store.jobs && b in State(h).store.jobs && a < b
    ensures State(h).store.jobs[a].submitTime < State(h).store.jobs[b].submitTime
    ensures Before(State(h).store, a, b) && !Before(State(h).store, b, a)
  {
    if h.Then? {
      InvariantHolds(h.past);
      assert a in State(h.past).store.jobs ==> RowOk(State(h.past).store.jobs[a], State(h.past).store.clock);
      TimesStep(State(h.past), h.event, a);
      TimesStep(State(h.past), h.event, b);
      if b in State(h.past).store.jobs && a in State(h.past).store.jobs {
        QueueOrderIsCreationOrder(h.past, a, b);
      }
    }
  }

  /** A waiting job has nothing on record of any run. */
  lemma {:induction false} WaitingRowIsBlank(h: History, id: nat)
    requires Legal(h) && id in State(h).store.jobs && State(h).store.jobs[id].state.Waiting?
    ensures var job := State(h).store.jobs[id];
            && job.startTime.None? && job.endTime.None? && job.process.None? && job.gpus == []
            && job.exitCode.None? && job.reason.None?
  {
    if h.Then? {
      assert RowOk(State(h).store.jobs[id], State(h).store.clock) by { InvariantHolds(h); }
      assert IdsOk(State(h.past).store) by { InvariantHolds(h.past); }
      StepIsAnEdge(h, id);
      if id in State(h.past).store.jobs {
        WaitingRowIsBlank(h.past, id);
      } else {
        NewRowIsBlank(State(h.past), h.event, id);
      }
    }
  }

  lemma NewRowIsBlank(s: System, e: Event, id: nat)
    requires Enabled(s, e) && id !in s.store.jobs && id in Next(s, e).store.jobs && IdsOk(s.store)
    ensures Next(s, e).store.jobs[id].exitCode.None? && Next(s, e).store.jobs[id].reason.None?
  {
    match e
    case Create(spec, retryOf) => CreationAddsOneRow(s.store, spec, retryOf);
    case Delete(ids) => DeletionIsAllOrNothing(s.store.jobs, ids);
    case Note => NoteLeavesJobs(s);
    case _ =>
  }
}
