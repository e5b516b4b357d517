/** Which reason the daemon shows for a hold, and which one the table keeps. */
module Reasons {
  import opened Models
  import opened Tables
  import opened Protocol
  import opened Safety

  /** The last event held this group. */
  ghost predicate JustHeld(h: History, group: string)
    requires Legal(h) && h.Then?
  {
    var s := State(h.past);
    match h.event
    case Hold(g, held, _) => held && g == group
    case Note =>
      && ShouldHold(s.store, s.memory.value, s.memory.value.pending.value)
      && s.store.jobs[s.memory.value.pending.value].InGroup(group)
    case _ => false
  }

  function TextOf(e: Event): string {
    if !e.Hold? then FAIL_FAST_REASON else if e.text.Some? then e.text.value else ""
  }

  /** The reason given by the event that took the group from free to held. */
  ghost function FirstReason(h: History, group: string): string
    requires Legal(h)
  {
    match h
    case Start(_) => ""
    case Then(past, e) =>
      if JustHeld(h, group) && group !in HeldGroups(State(past).store) then TextOf(e) else FirstReason(past, group)
  }

  /** The reason given last to this daemon; when it started, it read the table. */
  ghost function LastReason(h: History, group: string): string
    requires Legal(h)
  {
    match h
    case Start(_) => ""
    case Then(past, e) =>
      if JustHeld(h, group) then TextOf(e)
      else if e.Restart? then FirstReason(past, group)
      else LastReason(past, group)
  }

  ghost predicate TableReason(s: System, group: string, reason: string) {
    group in HeldGroups(s.store) ==> HeldGroups(s.store)[group] == reason
  }

  ghost predicate MemoryReason(s: System, group: string, reason: string) {
    s.memory.Some? && group in s.memory.value.held ==> s.memory.value.held[group] == reason
  }

  lemma TableStep(h: History, group: string, before: string)
    requires Legal(h) && h.Then? && TableReason(State(h.past), group, before)
    ensures TableReason(State(h), group,
              if JustHeld(h, group) && group !in HeldGroups(State(h.past).store) then TextOf(h.event) else before)
  {
    if h.event.Hold? {
      HoldInTable(h, group, before);
    } else if h.event.Note? {
      NoteInTable(h, group, before);
    } else {
      OtherEventsKeepHolds(h);
    }
  }

  lemma HoldInTable(h: History, group: string, before: string)
    requires Legal(h) && h.Then? && h.event.Hold? && TableReason(State(h.past), group, before)
    ensures TableReason(State(h), group,
              if JustHeld(h, group) && group !in HeldGroups(State(h.past).store) then TextOf(h.event) else before)
  {
    HoldsAreReadBack(State(h.past).store, h.event.group, h.event.held, if h.event.held then h.event.text else None);
  }

  lemma OtherEventsKeepHolds(h: History)
    requires Legal(h) && h.Then? && !h.event.Hold? && !h.event.Note?
    ensures HeldGroups(State(h).store) == HeldGroups(State(h.past).store)
  {
    assert State(h).store.holds == State(h.past).store.holds;
  }

  lemma NoteInTable(h: History, group: string, before: string)
    requires Legal(h) && h.Then? && h.event.Note? && TableReason(State(h.past), group, before)
    ensures TableReason(State(h), group,
              if JustHeld(h, group) && group !in HeldGroups(State(h.past).store) then FAIL_FAST_REASON else before)
  {
    var s := State(h.past);
    var id := s.memory.value.pending.value;
    if ShouldHold(s.store, s.memory.value, id) {
      HoldsAreReadBack(s.store, s.store.jobs[id].spec.group.value, true, Some(FAIL_FAST_REASON));
    }
  }

  lemma MemoryStep(h: History, group: string, table: string, memory: string)
    requires Legal(h) && h.Then?
    requires TableReason(State(h.past), group, table) && MemoryReason(State(h.past), group, memory)
    ensures MemoryReason(State(h), group,
              if JustHeld(h, group) then TextOf(h.event) else if h.event.Restart? then table else memory)
  {
    if h.event.Note? {
      NoteReason(h, group, memory);
    } else if !h.event.Hold? && !h.event.Restart? {
      OtherEventsKeepReasons(h, group, memory);
    }
  }

  lemma NoteReason(h: History, group: string, memory: string)
    requires Legal(h) && h.Then? && h.event.Note? && MemoryReason(State(h.past), group, memory)
    ensures MemoryReason(State(h), group, if JustHeld(h, group) then TextOf(h.event) else memory)
  {
  }

  lemma OtherEventsKeepReasons(h: History, group: string, memory: string)
    requires Legal(h) && h.Then? && !h.event.Hold? && !h.event.Note? && !h.event.Restart?
    requires MemoryReason(State(h.past), group, memory)
    ensures MemoryReason(State(h), group, memory)
  {
  }

  lemma {:induction false} ReasonsAreKept(h: History, group: string)
    requires Legal(h)
    ensures TableReason(State(h), group, FirstReason(h, group))
    ensures MemoryReason(State(h), group, LastReason(h, group))
  {
    if h.Then? {
      ReasonsAreKept(h.past, group);
      TableStep(h, group, FirstReason(h.past, group));
      MemoryStep(h, group, FirstReason(h.past, group), LastReason(h.past, group));
    }
  }

  /** In every reachable state the daemon shows the reason that was given last and the table keeps
      the one the hold began with: the two agree exactly if these are the same. */
  lemma ReasonsAgreeExactly(h: History, group: string)
    requires Legal(h) && State(h).memory.Some? && group in HeldGroups(State(h).store)
    ensures group in State(h).memory.value.held
    ensures State(h).memory.value.held[group] == LastReason(h, group)
    ensures HeldGroups(State(h).store)[group] == FirstReason(h, group)
  {
    HoldsAreMirrored(h, group);
    ReasonsAreKept(h, group);
  }
}
