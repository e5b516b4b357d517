/** The process table, how it may change, and the test that decides whether a job's process
    group is still there (src/gq/processes.py). */
module Processes {
  import opened Models

  /** A live process. `leader` marks a session leader. `lifetime` numbers the lifetime of the
      process group the process is in: numeric group ids come back, lifetimes do not. The
      daemon cannot read it. */
  datatype Proc = Proc(pgid: int, start: int, leader: bool, lifetime: nat)

  /** `used` holds the (pid, start time) pairs of this boot. */
  datatype World = World(procs: map<int, Proc>, used: set<(int, int)>, nextLifetime: nat, boot: nat)

  datatype ProcEvent =
    | Fork(parent: int, child: int, start: int)
    | NewSession(pid: int)
    | NewGroup(pid: int)
    | Join(pid: int, peer: int)
    | Exit(pid: int)

  function MembersOf(w: World, pgid: int): set<int> {
    set p | p in w.procs && w.procs[p].pgid == pgid
  }

  function StartTimeOf(w: World, pid: int): Option<int> {
    if pid in w.procs then Some(w.procs[pid].start) else None
  }

  /** The process is among the members of the group. */
  ghost predicate Member(w: World, pid: int, pgid: int) {
    pid in MembersOf(w, pgid)
  }

  /** `pid_in_process_group` on one snapshot. */
  predicate InGroup(w: World, pid: int, pgid: int) {
    pid in w.procs && w.procs[pid].pgid == pgid
  }

  /** Section 4.14 of the POSIX.1-2017 Base Definitions: a process id is not reused while its
      process lives, nor while a process group with that id exists. Two processes that use the
      same id in one boot differ in start time. */
  predicate FreshPid(w: World, pid: int, start: int) {
    pid !in w.procs && MembersOf(w, pid) == {} && (pid, start) !in w.used
  }

  predicate Possible(w: World, e: ProcEvent) {
    match e
    case Fork(parent, child, start) => parent in w.procs && FreshPid(w, child, start)
    case NewSession(pid) => pid in w.procs && MembersOf(w, pid) == {}
    case NewGroup(pid) => pid in w.procs && !w.procs[pid].leader && MembersOf(w, pid) == {}
    case Join(pid, peer) => pid in w.procs && !w.procs[pid].leader && peer in w.procs
    case Exit(pid) => pid in w.procs
  }

  function After(w: World, e: ProcEvent): World
    requires Possible(w, e)
  {
    match e
    case Fork(parent, child, start) =>
      w.(procs := w.procs[child := w.procs[parent].(start := start, leader := false)],
         used := w.used + {(child, start)})
    case NewSession(pid) =>
      w.(procs := w.procs[pid := w.procs[pid].(pgid := pid, leader := true, lifetime := w.nextLifetime)],
         nextLifetime := w.nextLifetime + 1)
    case NewGroup(pid) =>
      w.(procs := w.procs[pid := w.procs[pid].(pgid := pid, lifetime := w.nextLifetime)],
         nextLifetime := w.nextLifetime + 1)
    case Join(pid, peer) =>
      w.(procs := w.procs[pid := w.procs[pid].(pgid := w.procs[peer].pgid, lifetime := w.procs[peer].lifetime)])
    case Exit(pid) => w.(procs := w.procs - {pid})
  }

  ghost predicate PathPossible(w: World, path: seq<ProcEvent>)
    decreases |path|
  {
    path == [] || (Possible(w, path[0]) && PathPossible(After(w, path[0]), path[1..]))
  }

  function Follow(w: World, path: seq<ProcEvent>): World
    requires PathPossible(w, path)
    decreases |path|
  {
    if path == [] then w else Follow(After(w, path[0]), path[1..])
  }

  /** `start_new_session=True`: the child leads a new session and a new group. */
  function AfterSpawn(w: World, pid: int, start: int): World {
    w.(procs := w.procs[pid := Proc(pid, start, true, w.nextLifetime)],
       used := w.used + {(pid, start)}, nextLifetime := w.nextLifetime + 1)
  }

  /** A freshly started machine; start times begin anew. */
  function Booted(boot: nat, lifetime: nat): World {
    World(map[1 := Proc(1, 0, true, lifetime)], {(1, 0)}, lifetime + 1, boot)
  }

  ghost predicate WorldOk(w: World) {
    && (forall p, q :: p in w.procs && q in w.procs ==>
          (w.procs[p].pgid == w.procs[q].pgid <==> w.procs[p].lifetime == w.procs[q].lifetime))
    && (forall p :: p in w.procs ==>
          && w.procs[p].lifetime < w.nextLifetime
          && (p, w.procs[p].start) in w.used
          && (w.procs[p].leader ==> w.procs[p].pgid == p))
  }

  /** The process a job was started with, and the lifetime of the group it created. */
  datatype Ident = Ident(pid: int, start: int, lifetime: nat, boot: nat)

  ghost predicate GroupAlive(w: World, lifetime: nat) {
    exists p :: p in w.procs && w.procs[p].lifetime == lifetime
  }

  /** What the reuse rule guarantees about a group from its creation on. */
  ghost predicate Known(w: World, i: Ident) {
    && i.lifetime < w.nextLifetime && i.boot <= w.boot
    && (i.boot == w.boot ==>
          && (i.pid, i.start) in w.used
          && (forall p :: p in w.procs && w.procs[p].lifetime == i.lifetime ==> w.procs[p].pgid == i.pid)
          && (i.pid in w.procs && w.procs[i.pid].start == i.start ==>
                w.procs[i.pid].lifetime == i.lifetime && w.procs[i.pid].leader)
          && (i.pid in w.procs && GroupAlive(w, i.lifetime) ==> w.procs[i.pid].start == i.start))
    && (i.boot != w.boot ==> !GroupAlive(w, i.lifetime))
  }

  // ---- The test ----

  predicate IdentityMatches(actual: Option<int>, expected: Option<int>) {
    actual.Some? && (expected.None? || actual == expected)
  }

  /** The decision of `managed_process_group_alive` on what its three reads of /proc gave. */
  predicate GroupTest(record: Option<ProcessRecord>, first: Option<int>, members: set<int>, again: Option<int>) {
    record.Some? &&
    var r := record.value;
    if IdentityMatches(first, r.start) then true
    else if members == {} then false
    else if r.pgid in members then r.pid == r.pgid && IdentityMatches(again, r.start)
    else true
  }

  /** The record `mark_running` keeps of a spawned process. */
  predicate Records(record: ProcessRecord, i: Ident) {
    record.pid == i.pid && record.pgid == i.pid && record.start == Some(i.start)
  }

  // ---- The reuse rule is an invariant of every history ----

  lemma MembersShow(w: World, pid: int)
    requires pid in w.procs
    ensures MembersOf(w, w.procs[pid].pgid) != {}
    ensures GroupAlive(w, w.procs[pid].lifetime)
  {
    assert pid in MembersOf(w, w.procs[pid].pgid);
  }

  lemma StepKeepsOk(w: World, e: ProcEvent)
    requires WorldOk(w) && Possible(w, e)
    ensures WorldOk(After(w, e)) && After(w, e).boot == w.boot && w.nextLifetime <= After(w, e).nextLifetime
  {
    forall p | p in w.procs ensures MembersOf(w, w.procs[p].pgid) != {} {
      MembersShow(w, p);
    }
  }

  /** A group lifetime that ended stays ended. */
  lemma StepKeepsDead(w: World, e: ProcEvent, lifetime: nat)
    requires WorldOk(w) && Possible(w, e)
    requires lifetime < w.nextLifetime && GroupAlive(After(w, e), lifetime)
    ensures GroupAlive(w, lifetime)
  {
    var p :| p in After(w, e).procs && After(w, e).procs[p].lifetime == lifetime;
    var origin := if e.Fork? && p == e.child then e.parent else if e.Join? && p == e.pid then e.peer else p;
    MembersShow(w, origin);
  }

  lemma StepKeepsKnown(w: World, e: ProcEvent, i: Ident)
    requires WorldOk(w) && Possible(w, e) && Known(w, i)
    ensures Known(After(w, e), i)
  {
    var w' := After(w, e);
    if GroupAlive(w', i.lifetime) {
      StepKeepsDead(w, e, i.lifetime);
      var member :| member in w.procs && w.procs[member].lifetime == i.lifetime;
      MembersShow(w, member);
    }
    if i.boot == w.boot && i.pid in w.procs {
      MembersShow(w, i.pid);
    }
  }

  lemma StepKeeps(w: World, e: ProcEvent, i: Ident)
    requires WorldOk(w) && Possible(w, e)
    ensures WorldOk(After(w, e)) && After(w, e).boot == w.boot && w.nextLifetime <= After(w, e).nextLifetime
    ensures Known(w, i) ==> Known(After(w, e), i)
    ensures i.lifetime < w.nextLifetime && !GroupAlive(w, i.lifetime) ==> !GroupAlive(After(w, e), i.lifetime)
  {
    StepKeepsOk(w, e);
    if Known(w, i) {
      StepKeepsKnown(w, e, i);
    }
    if i.lifetime < w.nextLifetime && GroupAlive(After(w, e), i.lifetime) {
      StepKeepsDead(w, e, i.lifetime);
    }
  }

  lemma {:induction false} PathKeeps(w: World, path: seq<ProcEvent>, i: Ident)
    requires WorldOk(w) && PathPossible(w, path)
    ensures WorldOk(Follow(w, path)) && Follow(w, path).boot == w.boot && w.nextLifetime <= Follow(w, path).nextLifetime
    ensures Known(w, i) ==> Known(Follow(w, path), i)
    ensures i.lifetime < w.nextLifetime && !GroupAlive(w, i.lifetime) ==> !GroupAlive(Follow(w, path), i.lifetime)
    decreases |path|
  {
    if path != [] {
      StepKeeps(w, path[0], i);
      PathKeeps(After(w, path[0]), path[1..], i);
    }
  }

  lemma {:induction false} PathJoins(w: World, first: seq<ProcEvent>, second: seq<ProcEvent>)
    requires PathPossible(w, first) && PathPossible(Follow(w, first), second)
    ensures PathPossible(w, first + second) && Follow(w, first + second) == Follow(Follow(w, first), second)
    decreases |first|
  {
    if first == [] {
      assert first + second == second;
    } else {
      PathJoins(After(w, first[0]), first[1..], second);
      assert (first + second)[1..] == first[1..] + second;
    }
  }

  lemma SpawnKeeps(w: World, pid: int, start: int, i: Ident)
    requires WorldOk(w) && FreshPid(w, pid, start)
    ensures WorldOk(AfterSpawn(w, pid, start))
    ensures Known(AfterSpawn(w, pid, start), Ident(pid, start, w.nextLifetime, w.boot))
    ensures Known(w, i) ==> Known(AfterSpawn(w, pid, start), i)
    ensures i.lifetime < w.nextLifetime ==> (GroupAlive(AfterSpawn(w, pid, start), i.lifetime)
           <==> GroupAlive(w, i.lifetime))
  {
    var w' := AfterSpawn(w, pid, start);
    forall g, p | p in w.procs && w.procs[p].pgid == g ensures MembersOf(w, g) != {} {
      assert p in MembersOf(w, g);
    }
    assert forall p :: p in w.procs && w.procs[p].lifetime == i.lifetime ==> GroupAlive(w, i.lifetime);
    if i.lifetime < w.nextLifetime {
      if GroupAlive(w', i.lifetime) {
        var p :| p in w'.procs && w'.procs[p].lifetime == i.lifetime;
        assert p in w.procs;
      }
      if GroupAlive(w, i.lifetime) {
        var p :| p in w.procs && w.procs[p].lifetime == i.lifetime;
        assert p in w'.procs;
      }
    }
  }

  lemma RebootKeeps(w: World, i: Ident)
    requires WorldOk(w)
    ensures WorldOk(Booted(w.boot + 1, w.nextLifetime))
    ensures Known(w, i) ==> Known(Booted(w.boot + 1, w.nextLifetime), i)
    ensures i.lifetime < w.nextLifetime ==> !GroupAlive(Booted(w.boot + 1, w.nextLifetime), i.lifetime)
  {
  }

  // ---- What the test tells ----

  /** Completeness, with the machine running on between the three reads: a test that answers
      "dead" is right about the original group, then and for ever after. */
  lemma NeverReportsDeadWhileAlive(
    spawned: World, pid: int, start: int, life: seq<ProcEvent>, between: seq<ProcEvent>, after: seq<ProcEvent>,
    record: ProcessRecord)
    requires WorldOk(spawned) && FreshPid(spawned, pid, start)
    requires var w0 := AfterSpawn(spawned, pid, start);
             && PathPossible(w0, life)
             && PathPossible(Follow(w0, life), between)
             && PathPossible(Follow(Follow(w0, life), between), after)
    requires Records(record, Ident(pid, start, spawned.nextLifetime, spawned.boot))
    ensures var w1 := Follow(AfterSpawn(spawned, pid, start), life);
            var w2 := Follow(w1, between);
            var w3 := Follow(w2, after);
            GroupAlive(w3, spawned.nextLifetime) ==>
              GroupTest(Some(record), StartTimeOf(w1, pid), MembersOf(w2, pid), StartTimeOf(w3, pid))
  {
    var i := Ident(pid, start, spawned.nextLifetime, spawned.boot);
    SpawnKeeps(spawned, pid, start, i);
    var w0 := AfterSpawn(spawned, pid, start);
    PathKeeps(w0, life, i);
    var w1 := Follow(w0, life);
    DeadMeansDead(w1, between, after, i, record);
  }

  /** The same from any later moment of the group's history. */
  lemma DeadMeansDead(w1: World, between: seq<ProcEvent>, after: seq<ProcEvent>, i: Ident, record: ProcessRecord)
    requires WorldOk(w1) && Known(w1, i) && Records(record, i)
    requires PathPossible(w1, between) && PathPossible(Follow(w1, between), after)
    ensures var w2 := Follow(w1, between);
            var w3 := Follow(w2, after);
            !GroupTest(Some(record), StartTimeOf(w1, i.pid), MembersOf(w2, i.pid), StartTimeOf(w3, i.pid)) ==>
              !GroupAlive(w3, i.lifetime)
  {
    var w2 := Follow(w1, between);
    var w3 := Follow(w2, after);
    PathKeeps(w1, between, i);
    PathKeeps(w2, after, i);
    if GroupAlive(w3, i.lifetime) {
      assert GroupAlive(w2, i.lifetime) && GroupAlive(w1, i.lifetime);
      var p :| p in w2.procs && w2.procs[p].lifetime == i.lifetime;
      assert p in MembersOf(w2, i.pid);
      if i.pid in MembersOf(w2, i.pid) {
        StartTimeStays(w1, between, i);
      }
    }
  }

  /** While the group lives, its leader's pid was not handed out anew. */
  lemma {:induction false} StartTimeStays(w: World, path: seq<ProcEvent>, i: Ident)
    requires WorldOk(w) && Known(w, i) && i.boot == w.boot && PathPossible(w, path)
    requires GroupAlive(Follow(w, path), i.lifetime) && i.pid in Follow(w, path).procs
    ensures StartTimeOf(w, i.pid) == Some(i.start)
    decreases |path|
  {
    PathKeeps(w, path, i);
    if path != [] {
      StepKeeps(w, path[0], i);
      var w' := After(w, path[0]);
      PathKeeps(w', path[1..], i);
      StartTimeStays(w', path[1..], i);
      assert w'.procs[i.pid].start == i.start;
    }
  }

  /** A group that took over the numeric id and whose own leader has since gone. */
  ghost predicate RecycledLeaderless(w: World, i: Ident) {
    && MembersOf(w, i.pid) != {} && i.pid !in MembersOf(w, i.pid)
    && forall p :: p in MembersOf(w, i.pid) ==> w.procs[p].lifetime != i.lifetime
  }

  /** On one snapshot of the boot the job was started in, the test errs in exactly one case. */
  lemma AliveExactly(w: World, i: Ident, record: ProcessRecord)
    requires WorldOk(w) && Known(w, i) && Records(record, i) && i.boot == w.boot
    ensures GroupTest(Some(record), StartTimeOf(w, i.pid), MembersOf(w, i.pid), StartTimeOf(w, i.pid))
       <==> GroupAlive(w, i.lifetime) || RecycledLeaderless(w, i)
  {
    var members := MembersOf(w, i.pid);
    if GroupAlive(w, i.lifetime) {
      var p :| p in w.procs && w.procs[p].lifetime == i.lifetime;
      assert p in members;
      if i.pid in members {
        assert w.procs[i.pid].start == i.start;
      }
    } else {
      assert forall p :: p in members ==> w.procs[p].lifetime != i.lifetime;
    }
  }

  /** Soundness with the machine running on between the reads: "alive" means that the original
      group was there when the test began, or that a leaderless successor was there in the scan. */
  lemma AliveMeansOriginalOrLeaderless(
    w1: World, between: seq<ProcEvent>, after: seq<ProcEvent>, i: Ident, record: ProcessRecord)
    requires WorldOk(w1) && Known(w1, i) && Records(record, i) && i.boot == w1.boot
    requires PathPossible(w1, between) && PathPossible(Follow(w1, between), after)
    ensures var w2 := Follow(w1, between);
            var w3 := Follow(w2, after);
            GroupTest(Some(record), StartTimeOf(w1, i.pid), MembersOf(w2, i.pid), StartTimeOf(w3, i.pid)) ==>
              GroupAlive(w1, i.lifetime) || RecycledLeaderless(w2, i)
  {
    var w2 := Follow(w1, between);
    PathKeeps(w1, between, i);
    PathKeeps(w2, after, i);
    var w3 := Follow(w2, after);
    if !GroupAlive(w1, i.lifetime) {
      assert !GroupAlive(w2, i.lifetime) && !GroupAlive(w3, i.lifetime);
      assert forall p :: p in MembersOf(w2, i.pid) ==> p in w2.procs && w2.procs[p].lifetime != i.lifetime;
      assert forall p :: p in w3.procs ==> w3.procs[p].lifetime != i.lifetime;
    }
  }

  /** The machine is in this state at some moment of the path. */
  ghost predicate OnPath(w: World, path: seq<ProcEvent>, moment: World)
    requires PathPossible(w, path)
    decreases |path|
  {
    moment == w || (path != [] && OnPath(After(w, path[0]), path[1..], moment))
  }

  lemma {:induction false} OnLongerPath(w: World, first: seq<ProcEvent>, second: seq<ProcEvent>, moment: World)
    requires PathPossible(w, first) && PathPossible(Follow(w, first), second)
    ensures PathPossible(w, first + second)
    ensures OnPath(w, first, moment) || moment == Follow(w, first) ==> OnPath(w, first + second, moment)
    decreases |first|
  {
    PathJoins(w, first, second);
    if first != [] {
      assert (first + second)[0] == first[0] && (first + second)[1..] == first[1..] + second;
      OnLongerPath(After(w, first[0]), first[1..], second, moment);
    }
  }

  lemma {:induction false} MomentsAreSound(w: World, path: seq<ProcEvent>, moment: World, i: Ident)
    requires WorldOk(w) && Known(w, i) && PathPossible(w, path) && OnPath(w, path, moment)
    ensures WorldOk(moment) && Known(moment, i) && moment.boot == w.boot
    decreases |path|
  {
    if moment != w {
      StepKeeps(w, path[0], i);
      MomentsAreSound(After(w, path[0]), path[1..], moment, i);
    }
  }

  lemma EndOfPath(w: World, path: seq<ProcEvent>)
    requires PathPossible(w, path)
    ensures OnPath(w, path, Follow(w, path))
  {
    OnLongerPath(w, path, [], Follow(w, path));
    assert path + [] == path;
  }

  /** At some moment of the path a leaderless successor has the id. */
  ghost predicate SuccessorSeen(w: World, path: seq<ProcEvent>, i: Ident)
    requires PathPossible(w, path)
    decreases |path|
  {
    RecycledLeaderless(w, i) || (path != [] && SuccessorSeen(After(w, path[0]), path[1..], i))
  }

  lemma {:induction false} SeenOnTheWay(w: World, first: seq<ProcEvent>, second: seq<ProcEvent>, i: Ident)
    requires PathPossible(w, first) && PathPossible(Follow(w, first), second)
    requires RecycledLeaderless(Follow(w, first), i)
    ensures PathPossible(w, first + second) && SuccessorSeen(w, first + second, i)
    decreases |first|
  {
    PathJoins(w, first, second);
    if first == [] {
      assert first + second == second;
    } else {
      assert (first + second)[0] == first[0] && (first + second)[1..] == first[1..] + second;
      SeenOnTheWay(After(w, first[0]), first[1..], second, i);
    }
  }

  lemma {:induction false} SeenBefore(w: World, first: seq<ProcEvent>, second: seq<ProcEvent>, i: Ident)
    requires PathPossible(w, first) && PathPossible(Follow(w, first), second) && SuccessorSeen(w, first, i)
    ensures PathPossible(w, first + second) && SuccessorSeen(w, first + second, i)
    decreases |first|
  {
    PathJoins(w, first, second);
    if first != [] && !RecycledLeaderless(w, i) {
      assert (first + second)[0] == first[0] && (first + second)[1..] == first[1..] + second;
      SeenBefore(After(w, first[0]), first[1..], second, i);
    }
  }

  /** The three reads one after another, from the moment the test begins: "alive" means that the
      original group lived then, or that a leaderless successor came by. */
  lemma AliveAnswersAreSound(w: World, p1: seq<ProcEvent>, p2: seq<ProcEvent>, p3: seq<ProcEvent>, i: Ident,
                             record: ProcessRecord)
    requires WorldOk(w) && Known(w, i) && Records(record, i) && i.boot == w.boot
    requires PathPossible(w, p1) && PathPossible(Follow(w, p1), p2) && PathPossible(Follow(Follow(w, p1), p2), p3)
    requires var w1 := Follow(w, p1); var w2 := Follow(w1, p2); var w3 := Follow(w2, p3);
             GroupTest(Some(record), StartTimeOf(w1, i.pid), MembersOf(w2, i.pid), StartTimeOf(w3, i.pid))
    ensures PathPossible(w, p1 + p2 + p3)
    ensures GroupAlive(w, i.lifetime) || SuccessorSeen(w, p1 + p2 + p3, i)
  {
    var w1 := Follow(w, p1);
    PathKeeps(w, p1, i);
    PathJoins(w, p1, p2);
    PathJoins(w, p1 + p2, p3);
    AliveMeansOriginalOrLeaderless(w1, p2, p3, i, record);
    if RecycledLeaderless(Follow(w1, p2), i) {
      SeenOnTheWay(w, p1 + p2, p3, i);
    }
  }

  /** Whoever is in the group with this number is in the job's own group. */
  ghost predicate OwnGroup(w: World, i: Ident) {
    forall p :: p in MembersOf(w, i.pid) ==> w.procs[p].lifetime == i.lifetime
  }

  /** A signal to a group number goes to the job's own group, all of it and nobody else, exactly if
      that group still lives then; otherwise it goes to nobody of it. */
  lemma SignalReachesExactly(w: World, i: Ident)
    requires WorldOk(w) && Known(w, i) && i.boot == w.boot && MembersOf(w, i.pid) != {}
    ensures OwnGroup(w, i) <==> GroupAlive(w, i.lifetime)
    ensures OwnGroup(w, i) ==>
              forall p :: p in w.procs && w.procs[p].lifetime == i.lifetime ==> p in MembersOf(w, i.pid)
    ensures !OwnGroup(w, i) ==> forall p :: p in MembersOf(w, i.pid) ==> w.procs[p].lifetime != i.lifetime
  {
    var members := MembersOf(w, i.pid);
    if GroupAlive(w, i.lifetime) {
      var q :| q in w.procs && w.procs[q].lifetime == i.lifetime;
      assert forall p :: p in members ==> w.procs[p].pgid == w.procs[q].pgid;
    }
    assert forall p :: p in members && w.procs[p].lifetime == i.lifetime ==> GroupAlive(w, i.lifetime);
    assert !GroupAlive(w, i.lifetime) && OwnGroup(w, i) ==> forall p :: p !in members;
    assert (forall p :: p !in members) ==> members == {};
  }

  lemma FollowOne(w: World, path: seq<ProcEvent>)
    requires path != [] && Possible(w, path[0])
    ensures PathPossible(w, path) <==> PathPossible(After(w, path[0]), path[1..])
    ensures PathPossible(w, path) ==> Follow(w, path) == Follow(After(w, path[0]), path[1..])
  {
  }

  /** The case exists: the job's process 7 exits, a new process 7 leads a new group 7, forks 8
      and exits. The original group is gone and the test still says "alive". */
  lemma LeaderlessSuccessorFoolsTheTest() returns (w: World, path: seq<ProcEvent>, i: Ident, record: ProcessRecord)
    ensures WorldOk(w) && FreshPid(w, i.pid, i.start) && i == Ident(i.pid, i.start, w.nextLifetime, w.boot)
    ensures Records(record, i) && PathPossible(AfterSpawn(w, i.pid, i.start), path)
    ensures var end := Follow(AfterSpawn(w, i.pid, i.start), path);
            && GroupTest(Some(record), StartTimeOf(end, i.pid), MembersOf(end, i.pid), StartTimeOf(end, i.pid))
            && !GroupAlive(end, i.lifetime) && MembersOf(end, i.pid) != {} && !OwnGroup(end, i)
  {
    w := Booted(0, 0);
    i := Ident(7, 5, 1, 0);
    record := ProcessRecord(7, 7, Some(5), Some(0));
    var w0 := AfterSpawn(w, 7, 5);
    assert MembersOf(w, 7) == {};
    path := [Exit(7), Fork(1, 7, 6), NewSession(7), Fork(7, 8, 6), Exit(7)];
    var w1 := After(w0, Exit(7));
    assert MembersOf(w1, 7) == {};
    var w2 := After(w1, Fork(1, 7, 6));
    assert MembersOf(w2, 7) == {};
    var w3 := After(w2, NewSession(7));
    assert MembersOf(w3, 8) == {};
    var w4 := After(w3, Fork(7, 8, 6));
    var w5 := After(w4, Exit(7));
    FollowOne(w0, path);
    FollowOne(w1, path[1..]);
    FollowOne(w2, path[2..]);
    FollowOne(w3, path[3..]);
    FollowOne(w4, path[4..]);
    assert 8 in MembersOf(w5, 7) && 7 !in MembersOf(w5, 7);
  }
}
