/** What an "alive" answer says about the job it was given for, over the part of a run in which the
    question was asked. */
module Answers {
  import opened Processes
  import opened Protocol
  import opened Invariants
  import opened Safety

  function Length(h: History): nat {
    match h
    case Start(_) => 0
    case Then(past, _) => 1 + Length(past)
  }

  lemma {:induction false} ExtensionsAreLonger(base: History, h: History)
    requires Extends(base, h)
    ensures Length(base) <= Length(h)
  {
    if h != base {
      ExtensionsAreLonger(base, h.past);
    }
  }

  /** Between the two points of the run a leaderless successor had the id of the job's group. */
  ghost predicate SuccessorDuring(base: History, h: History, i: Ident)
    requires Legal(h)
  {
    && Length(base) < Length(h)
    && (SuccessorDuring(base, h.past, i)
        || (h.event.Environment? && SuccessorSeen(State(h.past).world, h.event.path, i)))
  }

  /** For a job of the running boot: its group lived at the first point, or a leaderless successor
      came by before the second. */
  ghost predicate WasAlive(base: History, h: History, id: nat)
    requires Legal(base) && Legal(h)
  {
    var s := State(base);
    id in s.spawned && (s.spawned[id].boot == s.world.boot ==>
      GroupAlive(s.world, s.spawned[id].lifetime) || SuccessorDuring(base, h, s.spawned[id]))
  }

  lemma {:induction false} SuccessorStays(base: History, mid: History, h: History, i: Ident)
    requires Legal(h) && Legal(mid) && Extends(base, mid) && Extends(mid, h)
    ensures SuccessorDuring(base, mid, i) || SuccessorDuring(mid, h, i) ==> SuccessorDuring(base, h, i)
  {
    ExtensionsAreLonger(base, mid);
    if h != mid {
      ExtensionsAreLonger(mid, h.past);
      SuccessorStays(base, mid, h.past, i);
    }
  }

  /** An answer given in a part of the run is an answer for the whole of it. */
  lemma AnswerStands(base: History, mid: History, end: History, h: History, id: nat)
    requires Legal(h) && Legal(end) && Legal(mid) && Legal(base)
    requires Extends(base, mid) && Extends(mid, end) && Extends(end, h)
    requires WasAlive(mid, end, id) && id in State(base).spawned && State(base).world.boot == State(mid).world.boot
    ensures WasAlive(base, h, id)
  {
    var i := State(base).spawned[id];
    SpawnedOnce(base, mid, id);
    ExtendsTransitive(base, mid, end);
    if i.boot == State(base).world.boot && !GroupAlive(State(base).world, i.lifetime) {
      InvariantHolds(base);
      DeadForEver(base, mid, i.lifetime);
      SuccessorStays(base, mid, end, i);
      SuccessorStays(base, end, h, i);
    }
  }

  ghost predicate AllWereAlive(base: History, h: History, answers: set<nat>)
    requires Legal(base) && Legal(h)
  {
    forall id :: id in answers ==> WasAlive(base, h, id)
  }

  lemma AnswersStand(base: History, mid: History, end: History, h: History, answers: set<nat>)
    requires Legal(h) && Legal(end) && Legal(mid) && Legal(base)
    requires Extends(base, mid) && Extends(mid, end) && Extends(end, h)
    requires State(base).spawned == State(mid).spawned && State(base).world.boot == State(mid).world.boot
    requires AllWereAlive(mid, end, answers)
    ensures AllWereAlive(base, h, answers)
  {
    forall id | id in answers ensures WasAlive(base, h, id) {
      AnswerStands(base, mid, end, h, id);
    }
  }

  /** The group test on the record of a job, as one event. */
  lemma AnswerIsGiven(h: History, path: seq<ProcEvent>, id: nat)
    requires Legal(h) && PathPossible(State(h).world, path) && id in State(h).spawned
    requires var i := State(h).spawned[id];
             i.boot == State(h).world.boot ==>
               GroupAlive(State(h).world, i.lifetime) || SuccessorSeen(State(h).world, path, i)
    ensures WasAlive(h, Then(h, Environment(path)), id)
  {
  }
}
