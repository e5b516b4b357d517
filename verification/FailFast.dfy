/** The fail-fast hold stops a mistyped batch inside the scheduling pass that launches it. */
module FailFast {
  import opened Models
  import opened Sorting
  import opened Tables
  import opened Protocol
  import opened Invariants

  /** A launch that ends before the pass goes on. */
  predicate LaunchEnds(s: System, e: Event) {
    e.Finish? && e.watched && e.id in s.store.jobs && s.store.jobs[e.id].state.Starting?
  }

  /** What may happen while one scheduling pass runs. */
  predicate PassStep(s: System, e: Event) {
    e.Reserve? || e.Spawn? || e.MarkRunning? || e.Note? || e.Environment? || e.Advance? || LaunchEnds(s, e)
  }

  ghost predicate PassSince(base: History, h: History)
    requires Legal(h)
  {
    h == base || (h.Then? && PassSince(base, h.past) && PassStep(State(h.past), h.event))
  }

  function FailureLimit(s: System): int {
    if s.memory.Some? then s.memory.value.failFastTime else 0
  }

  /** A launch of the group that ends continues the row of quick failures or breaks it. */
  ghost function NextRow(s: System, e: Event, row: seq<nat>, group: string): seq<nat>
    requires Enabled(s, e)
  {
    if LaunchEnds(s, e) && s.store.jobs[e.id].InGroup(group) then
      if QuickFailure(Next(s, e).store.jobs[e.id], FailureLimit(s)) then row + [e.id] else []
    else row
  }

  /** The launches of the group that failed quickly in a row, up to now, in this pass. Launches
      that go on running are not an outcome and do not interrupt the row. */
  ghost function QuickFailuresInARow(base: History, h: History, group: string): seq<nat>
    requires Legal(h) && PassSince(base, h)
  {
    if h == base then []
    else
      NextRow(State(h.past), h.event, QuickFailuresInARow(base, h.past, group), group)
  }

  ghost predicate Quiet(s: System) {
    Idle(s) && NoneStarting(s.store)
  }

  // ---- The newest outcomes ----

  function Ids(s: seq<nat>): set<nat> {
    set x | x in s
  }

  predicate Distinct(s: seq<nat>) {
    forall i, j :: 0 <= i < j < |s| ==> s[i] != s[j]
  }

  predicate EndedBefore(s: Store, a: nat, b: nat) {
    && a in s.jobs && b in s.jobs && s.jobs[a].endTime.Some? && s.jobs[b].endTime.Some?
    && s.jobs[a].endTime.value < s.jobs[b].endTime.value
  }

  lemma {:induction false} IdCount(s: seq<nat>)
    ensures |Ids(s)| <= |s|
    ensures Distinct(s) ==> |Ids(s)| == |s|
  {
    if s != [] {
      IdCount(s[1..]);
      assert Ids(s) == {s[0]} + Ids(s[1..]);
    }
  }

  lemma LastFitIn(last: seq<nat>, within: seq<nat>)
    requires Distinct(last) && forall x :: x in last ==> x in within
    ensures |last| <= |within|
  {
    IdCount(last);
    IdCount(within);
    assert Ids(within) == Ids(last) + (Ids(within) - Ids(last));
  }

  lemma NewestMembers(s: Store, group: string, since: Option<nat>, x: nat)
    ensures x in NewestOutcomes(s, group, since) <==> x < s.nextId && x in s.jobs && IsOutcome(s.jobs[x], group, since)
  {
    var ids := Where(s, (job: Job) => IsOutcome(job, group, since));
    var sorted := SortBy(ids, EndTimes(s));
    SortKeepsMembers(ids, EndTimes(s), x);
    if x in sorted {
      var p :| 0 <= p < |sorted| && sorted[p] == x;
      assert NewestOutcomes(s, group, since)[|sorted| - 1 - p] == x;
    }
  }

  /** What ended later comes first. */
  lemma NewestFirst(s: Store, group: string, since: Option<nat>, i: int, j: int)
    requires var newest := NewestOutcomes(s, group, since);
             0 <= i < |newest| && 0 <= j < |newest| && EndedBefore(s, newest[i], newest[j])
    ensures j < i
  {
    var ids := Where(s, (job: Job) => IsOutcome(job, group, since));
    var sorted := SortBy(ids, EndTimes(s));
    SortSorts(ids, EndTimes(s));
    PlacesFollowKeys(sorted, EndTimes(s), |sorted| - 1 - i, |sorted| - 1 - j);
  }

  /** If every other outcome ended before each of `last`, the newest outcomes are among `last`. */
  lemma NewestAreLast(s: Store, group: string, since: Option<nat>, last: seq<nat>, limit: nat)
    requires Distinct(last) && |last| >= limit
    requires forall x :: x in last ==> x < s.nextId && x in s.jobs && IsOutcome(s.jobs[x], group, since)
    requires forall x, o :: x in last && o in s.jobs && o !in last && IsOutcome(s.jobs[o], group, since) ==>
            EndedBefore(s, o, x)
    ensures var recent := RecentOutcomes(s, group, since, limit);
            |recent| == limit && forall k :: 0 <= k < limit ==> recent[k] in last
  {
    var newest := NewestOutcomes(s, group, since);
    forall x | x in last ensures x in newest {
      NewestMembers(s, group, since, x);
    }
    LastFitIn(last, newest);
    forall k | 0 <= k < limit ensures newest[k] in last {
      if newest[k] !in last {
        assert newest[k] in newest;
        NewestMembers(s, group, since, newest[k]);
        forall x | x in last ensures x in newest[..k] {
          assert x in newest;
          var p :| 0 <= p < |newest| && newest[p] == x;
          assert EndedBefore(s, newest[k], x);
          NewestFirst(s, group, since, k, p);
          assert newest[..k][p] == x;
        }
        LastFitIn(last, newest[..k]);
      }
    }
  }

  /** The query for recent outcomes is exact: distinct outcomes of the group since its release, as
      many as there are up to the limit, and none left out is newer. */
  lemma RecentAreNewest(s: Store, group: string, since: Option<nat>, limit: nat)
    ensures var recent := RecentOutcomes(s, group, since, limit);
            && Distinct(recent) && |recent| <= limit
            && (forall x :: x in recent ==> x in s.jobs && IsOutcome(s.jobs[x], group, since))
            && (forall o :: o in s.jobs && o < s.nextId && IsOutcome(s.jobs[o], group, since) && o !in recent ==>
                  |recent| == limit && forall x :: x in recent ==> !EndedBefore(s, x, o))
  {
    var newest := NewestOutcomes(s, group, since);
    var recent := RecentOutcomes(s, group, since, limit);
    assert Distinct(newest) by { NewestAreDistinct(s, group, since); }
    forall x | x in recent ensures x in s.jobs && IsOutcome(s.jobs[x], group, since) {
      assert x in newest;
      NewestMembers(s, group, since, x);
    }
    forall o, x | o in s.jobs && o < s.nextId && IsOutcome(s.jobs[o], group, since) && o !in recent && x in recent
      ensures !EndedBefore(s, x, o)
    {
      NewestMembers(s, group, since, o);
      var i :| 0 <= i < |recent| && recent[i] == x;
      var j :| 0 <= j < |newest| && newest[j] == o;
      assert recent == newest[..|recent|];
      if EndedBefore(s, x, o) {
        NewestFirst(s, group, since, i, j);
      }
    }
    forall o | o in s.jobs && o < s.nextId && IsOutcome(s.jobs[o], group, since) && o !in recent
      ensures |recent| == limit {
      NewestMembers(s, group, since, o);
    }
  }

  lemma NewestAreDistinct(s: Store, group: string, since: Option<nat>)
    ensures Distinct(NewestOutcomes(s, group, since))
  {
    var ids := Where(s, (job: Job) => IsOutcome(job, group, since));
    var sorted := SortBy(ids, EndTimes(s));
    SortSortsLex(ids, EndTimes(s));
    assert Distinct(sorted);
  }

  // ---- What a pass keeps ----

  ghost predicate RowFacts(s: Store, row: seq<nat>, group: string, limit: int) {
    && Distinct(row)
    && (forall x :: x in row ==> x in s.jobs && s.jobs[x].InGroup(group) && QuickFailure(s.jobs[x], limit)
                                 && IsOutcome(s.jobs[x], group, ReleasedAt(s, group)))
    && (forall x, o :: x in row && o in s.jobs && o !in row && IsOutcome(s.jobs[o], group, None) ==>
            EndedBefore(s, o, x))
  }

  ghost predicate HoldFacts(s: System, row: seq<nat>, group: string) {
    && s.memory.Some?
    && var m := s.memory.value;
    && m.failFastCount > 0 && |row| <= m.failFastCount
    && (|row| == m.failFastCount ==> m.pending == Some(row[|row| - 1]) || group in m.held)
    && (forall id :: id in s.store.jobs && s.store.jobs[id].state.Starting? && s.store.jobs[id].InGroup(group) ==>
          m.pending.None? && group !in m.held)
  }

  ghost predicate PassFacts(s: System, row: seq<nat>, group: string) {
    RowFacts(s.store, row, group, FailureLimit(s)) && HoldFacts(s, row, group)
  }

  lemma FullRowIsHeld(s: System, row: seq<nat>, group: string)
    requires Inv(s) && PassFacts(s, row, group) && s.memory.value.pending.Some?
    requires |row| == s.memory.value.failFastCount && s.memory.value.pending == Some(row[|row| - 1])
    requires group !in s.memory.value.held
    ensures ShouldHold(s.store, s.memory.value, s.memory.value.pending.value)
  {
    var since := ReleasedAt(s.store, group);
    forall x, o | x in row && o in s.store.jobs && o !in row && IsOutcome(s.store.jobs[o], group, since)
      ensures EndedBefore(s.store, o, x)
    {
      assert IsOutcome(s.store.jobs[o], group, None);
    }
    NewestAreLast(s.store, group, since, row, s.memory.value.failFastCount);
    assert row[|row| - 1] in row;
  }

  /** A hold set in the pass leaves the outcomes alone. */
  lemma HoldKeepsRow(s: Store, s': Store, row: seq<nat>, group: string, limit: int)
    requires RowFacts(s, row, group, limit) && s'.jobs == s.jobs
    requires ReleasedAt(s', group) == ReleasedAt(s, group) || ReleasedAt(s', group).None?
    ensures RowFacts(s', row, group, limit)
  {
    forall x | x in row ensures IsOutcome(s'.jobs[x], group, ReleasedAt(s', group)) {
      assert IsOutcome(s.jobs[x], group, ReleasedAt(s, group));
    }
  }

  lemma CheckKeepsFacts(s: System, id: nat, hold: bool, row: seq<nat>, group: string)
    requires PassFacts(s, row, group) && s.memory.value.pending == Some(id)
    requires hold ==> id in s.store.jobs && s.store.jobs[id].spec.group.Some?
    requires |row| == s.memory.value.failFastCount && group !in s.memory.value.held ==>
               hold && s.store.jobs[id].InGroup(group)
    ensures PassFacts(Checked(s, id, hold), row, group)
  {
    HoldKeepsRow(s.store, Checked(s, id, hold).store, row, group, FailureLimit(s));
  }

  lemma NoteKeepsFacts(s: System, row: seq<nat>, group: string)
    requires Inv(s) && PassFacts(s, row, group) && Enabled(s, Note)
    ensures PassFacts(Next(s, Note), row, group)
  {
    var m := s.memory.value;
    if |row| == m.failFastCount && group !in m.held {
      FullRowIsHeld(s, row, group);
      assert row[|row| - 1] in row;
    }
    CheckKeepsFacts(s, m.pending.value, ShouldHold(s.store, m, m.pending.value), row, group);
  }

  /** Changes of one row that is no outcome of the group, before or after. */
  lemma OtherRowKeepsFacts(s: Store, s': Store, id: nat, row: seq<nat>, group: string, limit: int)
    requires RowFacts(s, row, group, limit) && OneRowChanged(s, s', id)
    requires !IsOutcome(s.jobs[id], group, None) && !IsOutcome(s'.jobs[id], group, None)
    ensures RowFacts(s', row, group, limit)
  {
    forall x | x in row ensures x != id {
      assert IsOutcome(s.jobs[x], group, ReleasedAt(s, group));
    }
  }

  ghost predicate EndedSoFar(s: Store) {
    forall id :: id in s.jobs && s.jobs[id].endTime.Some? ==> s.jobs[id].endTime.value < s.clock
  }

  lemma LaunchEndKeepsRow(s: Store, s': Store, id: nat, row: seq<nat>, group: string, limit: int)
    requires EndedSoFar(s) && RowFacts(s, row, group, limit) && OneRowChanged(s, s', id) && s.jobs[id].endTime.None?
    requires ReleasedAt(s, group).Some? ==> ReleasedAt(s, group).value < s.clock
    requires s'.jobs[id].InGroup(group) && s'.jobs[id].endTime == Some(s.clock) && QuickFailure(s'.jobs[id], limit)
    ensures RowFacts(s', row + [id], group, limit)
  {
    var longer := row + [id];
    assert forall x :: x in longer <==> x in row || x == id;
    assert id !in row;
    assert ReleasedAt(s', group) == ReleasedAt(s, group);
    assert Distinct(longer);
    forall x, o | x in longer && o in s'.jobs && o !in longer && IsOutcome(s'.jobs[o], group, None)
      ensures EndedBefore(s', o, x)
    {
      assert s'.jobs[o] == s.jobs[o];
      assert x != id ==> EndedBefore(s, o, x);
    }
  }

  lemma LaunchEndKeepsFacts(s: System, e: Event, row: seq<nat>, group: string)
    requires Inv(s) && PassFacts(s, row, group) && Enabled(s, e) && LaunchEnds(s, e)
    ensures PassFacts(Next(s, e), NextRow(s, e, row, group), group)
  {
    var s' := Next(s, e);
    assert s'.store.jobs == s.store.jobs[e.id := FinishedRow(s.store, e.id, e.to, e.exitCode, e.reason)];
    assert NoneStarting(s'.store);
    if !s.store.jobs[e.id].InGroup(group) {
      OtherRowKeepsFacts(s.store, s'.store, e.id, row, group, FailureLimit(s));
    } else if QuickFailure(s'.store.jobs[e.id], FailureLimit(s)) {
      assert EndedSoFar(s.store) && RowOk(s.store.jobs[e.id], s.store.clock);
      LaunchEndKeepsRow(s.store, s'.store, e.id, row, group, FailureLimit(s));
    }
  }

  lemma ReserveKeepsFacts(s: System, id: nat, slots: seq<GpuSlot>, row: seq<nat>, group: string)
    requires PassFacts(s, row, group) && MayReserve(s, id, slots)
    ensures PassFacts(Next(s, Event.Reserve(id, slots)), row, group)
  {
    OtherRowKeepsFacts(s.store, Next(s, Event.Reserve(id, slots)).store, id, row, group, FailureLimit(s));
  }

  lemma MarkRunningKeepsFacts(s: System, id: nat, boot: Option<nat>, row: seq<nat>, group: string)
    requires PassFacts(s, row, group) && Enabled(s, Event.MarkRunning(id, boot))
    ensures PassFacts(Next(s, Event.MarkRunning(id, boot)), row, group)
  {
    OtherRowKeepsFacts(s.store, Next(s, Event.MarkRunning(id, boot)).store, id, row, group, FailureLimit(s));
  }

  lemma OutsideStepKeepsFacts(s: System, e: Event, row: seq<nat>, group: string)
    requires PassFacts(s, row, group) && Enabled(s, e) && (e.Spawn? || e.Environment? || e.Advance?)
    ensures PassFacts(Next(s, e), row, group)
  {
    assert Next(s, e).store.jobs == s.store.jobs && Next(s, e).store.holds == s.store.holds;
  }

  lemma PassStepKeepsFacts(s: System, e: Event, row: seq<nat>, group: string)
    requires Inv(s) && PassFacts(s, row, group) && Enabled(s, e) && PassStep(s, e)
    ensures PassFacts(Next(s, e), NextRow(s, e, row, group), group)
  {
    if LaunchEnds(s, e) {
      LaunchEndKeepsFacts(s, e, row, group);
    } else {
      match e
      case Note => NoteKeepsFacts(s, row, group);
      case Reserve(id, slots) => ReserveKeepsFacts(s, id, slots, row, group);
      case MarkRunning(id, boot) => MarkRunningKeepsFacts(s, id, boot, row, group);
      case _ => OutsideStepKeepsFacts(s, e, row, group);
    }
  }

  lemma ThresholdStays(s: System, e: Event)
    requires Enabled(s, e) && PassStep(s, e) && s.memory.Some?
    ensures Next(s, e).memory.Some? && Next(s, e).memory.value.failFastCount == s.memory.value.failFastCount
  {
  }

  lemma {:induction false} PassKeepsFacts(base: History, h: History, group: string)
    requires Legal(h) && PassSince(base, h)
    requires Legal(base) && Quiet(State(base)) && State(base).memory.value.failFastCount > 0
    ensures PassFacts(State(h), QuickFailuresInARow(base, h, group), group)
    ensures State(h).memory.Some? && State(h).memory.value.failFastCount == State(base).memory.value.failFastCount
  {
    if h != base {
      PassKeepsFacts(base, h.past, group);
      InvariantHolds(h.past);
      PassStepKeepsFacts(State(h.past), h.event, QuickFailuresInARow(base, h.past, group), group);
      ThresholdStays(State(h.past), h.event);
    }
  }

  /** Whatever the history before it and however many jobs wait, one pass never launches more
      jobs of a group that fail quickly in a row than the threshold; and once it has launched that
      many and noted the last, the group is held. */
  lemma PassStopsAtTheThreshold(base: History, h: History, group: string)
    requires Legal(h) && PassSince(base, h)
    requires Legal(base) && Quiet(State(base)) && State(base).memory.value.failFastCount > 0
    ensures var n := State(base).memory.value.failFastCount;
            var row := QuickFailuresInARow(base, h, group);
            && |row| <= n
            && (|row| == n && Idle(State(h)) ==> group in State(h).memory.value.held)
  {
    PassKeepsFacts(base, h, group);
  }

  lemma NoGroupExceedsTheThreshold(base: History, h: History)
    requires Legal(h) && PassSince(base, h)
    requires Legal(base) && Quiet(State(base)) && State(base).memory.value.failFastCount > 0
    ensures forall group :: |QuickFailuresInARow(base, h, group)| <= State(base).memory.value.failFastCount
  {
    forall group ensures |QuickFailuresInARow(base, h, group)| <= State(base).memory.value.failFastCount {
      PassStopsAtTheThreshold(base, h, group);
    }
  }
}
