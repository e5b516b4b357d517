/** The machine the daemon runs on. It follows a script nobody knows: whatever the rest of the
    machine does between two looks of the daemon, as far as it is possible. */
module KernelModel {
  import opened Models
  import opened Processes

  /** What happens before one look at /proc, and whether the boot id can then be read. */
  datatype Turn = Turn(events: seq<ProcEvent>, bootReadable: bool)

  /** How one launch goes. `ending` is None if the start time of the child can be read. */
  datatype LaunchTurn = LaunchTurn(events: seq<ProcEvent>, pid: int, start: int, ending: Option<Ending>, micros: nat)

  datatype Ending = Exited(code: int) | Killed(code: int) | Broken

  /** The scan of /proc, entry by entry, on an exact snapshot. */
  method ScanGroup(procs: map<int, Proc>, pgid: int) returns (members: set<int>)
    ensures members == set p | p in procs && procs[p].pgid == pgid
  {
    members := {};
    var entries := procs.Keys;
    while entries != {}
      invariant entries <= procs.Keys
      invariant members == set p | p in procs && p !in entries && procs[p].pgid == pgid
      decreases |entries|
    {
      assert (forall p :: p !in entries) ==> entries == {};
      var pid :| pid in entries;
      if procs[pid].pgid == pgid {
        members := members + {pid};
      }
      entries := entries - {pid};
    }
  }

  /** Whether the boot id can be read at the next look. */
  function FirstReadable(turns: seq<Turn>): bool {
    turns == [] || turns[0].bootReadable
  }

  /** Is this compute process of the device in the group? */
  datatype Query = Query(uuid: string, pid: int, pgid: Option<int>)

  class Kernel {
    var world: World
    var turns: seq<Turn>
    var launches: seq<LaunchTurn>

    constructor (world: World, turns: seq<Turn>, launches: seq<LaunchTurn>)
      requires WorldOk(world)
      ensures this.world == world && this.turns == turns && this.launches == launches
    {
      this.world, this.turns, this.launches := world, turns, launches;
    }

    /** The events that are possible happen, one after another. */
    method Happen(events: seq<ProcEvent>) returns (ghost path: seq<ProcEvent>)
      modifies this`world
      ensures PathPossible(old(world), path) && world == Follow(old(world), path)
    {
      path := [];
      for i := 0 to |events|
        invariant PathPossible(old(world), path) && world == Follow(old(world), path)
      {
        if Possible(world, events[i]) {
          PathJoins(old(world), path, [events[i]]) by {
            FollowOne(world, [events[i]]);
          }
          FollowOne(world, [events[i]]);
          world := After(world, events[i]);
          path := path + [events[i]];
        }
      }
    }

    method TakeTurn() returns (bootReadable: bool, ghost path: seq<ProcEvent>)
      modifies this`world, this`turns
      ensures bootReadable == FirstReadable(old(turns))
      ensures PathPossible(old(world), path) && world == Follow(old(world), path)
    {
      path := [];
      bootReadable := true;
      if turns != [] {
        var turn := turns[0];
        turns := turns[1..];
        path := Happen(turn.events);
        bootReadable := turn.bootReadable;
      }
    }

    /** `pid_in_process_group` for one compute process after another, the machine running on between
        any two. Each answer is right about the moment it was asked. */
    method AskGroups(queries: seq<Query>)
      returns (answers: map<(string, int), bool>, ghost seen: map<(string, int), World>,
                                                   ghost path: seq<ProcEvent>)
      requires forall q, r :: q in queries && r in queries && q.uuid == r.uuid && q.pid == r.pid ==> q == r
      modifies this`world, this`turns
      ensures PathPossible(old(world), path) && world == Follow(old(world), path)
      ensures forall key :: key in seen ==> OnPath(old(world), path, seen[key])
      ensures forall q :: q in queries ==>
                && (q.uuid, q.pid) in answers && (q.uuid, q.pid) in seen
                && (answers[(q.uuid, q.pid)] <==> q.pgid.Some? && Member(seen[(q.uuid, q.pid)], q.pid, q.pgid.value))
    {
      answers, seen, path := map[], map[], [];
      for i := 0 to |queries|
        invariant PathPossible(old(world), path) && world == Follow(old(world), path)
        invariant forall key :: key in seen ==> OnPath(old(world), path, seen[key])
        invariant forall q :: q in queries[..i] ==>
                    && (q.uuid, q.pid) in answers && (q.uuid, q.pid) in seen
                    && (answers[(q.uuid, q.pid)] <==>
                          q.pgid.Some? && Member(seen[(q.uuid, q.pid)], q.pid, q.pgid.value))
      {
        var q := queries[i];
        assert queries[..i + 1] == queries[..i] + [q];
        ghost var before, next := path, [];
        var readable;
        readable, next := TakeTurn();
        PathJoins(old(world), before, next);
        path := before + next;
        EndOfPath(old(world), path);
        forall key | key in seen ensures OnPath(old(world), path, seen[key]) {
          OnLongerPath(old(world), before, next, seen[key]);
        }
        answers := answers[(q.uuid, q.pid) := q.pgid.Some? && InGroup(world, q.pid, q.pgid.value)];
        assert q.pgid.Some? ==> (InGroup(world, q.pid, q.pgid.value) <==> Member(world, q.pid, q.pgid.value));
        seen := seen[(q.uuid, q.pid) := world];
      }
      assert queries[..|queries|] == queries;
    }

    method BootId() returns (boot: Option<nat>, ghost path: seq<ProcEvent>)
      modifies this`world, this`turns
      ensures PathPossible(old(world), path) && world == Follow(old(world), path)
      ensures boot == if FirstReadable(old(turns)) then Some(world.boot) else None
    {
      var readable;
      readable, path := TakeTurn();
      boot := if readable then Some(world.boot) else None;
    }

    method ProcessStartTime(pid: int) returns (start: Option<int>, ghost path: seq<ProcEvent>)
      modifies this`world, this`turns
      ensures PathPossible(old(world), path) && world == Follow(old(world), path)
      ensures start == StartTimeOf(world, pid)
    {
      var readable;
      readable, path := TakeTurn();
      start := if pid in world.procs then Some(world.procs[pid].start) else None;
    }

    method ProcessGroupMembers(pgid: int) returns (members: set<int>, ghost path: seq<ProcEvent>)
      modifies this`world, this`turns
      ensures PathPossible(old(world), path) && world == Follow(old(world), path)
      ensures members == MembersOf(world, pgid)
    {
      var readable;
      readable, path := TakeTurn();
      members := ScanGroup(world.procs, pgid);
    }

    /** `managed_process_group_alive`, the machine running on between its reads. Whatever group the
        record may stand for: "dead" means that it is gone, and "alive" that it was there when the
        test began or that a leaderless successor came by. */
    method ManagedProcessGroupAlive(record: Option<ProcessRecord>) returns (alive: bool, ghost path: seq<ProcEvent>)
      requires WorldOk(world)
      modifies this`world, this`turns
      ensures PathPossible(old(world), path) && world == Follow(old(world), path)
      ensures record.None? ==> !alive
      ensures forall i: Ident :: record.Some? && Known(old(world), i) && Records(record.value, i) && !alive ==>
                !GroupAlive(world, i.lifetime)
      ensures forall i: Ident ::
                && alive && record.Some? && i.boot == old(world).boot
                && Known(old(world), i) && Records(record.value, i) ==>
                GroupAlive(old(world), i.lifetime) || SuccessorSeen(old(world), path, i)
    {
      path := [];
      if record.None? {
        return false, path;
      }
      var r := record.value;
      var first, p1 := ProcessStartTime(r.pid);
      if IdentityMatches(first, r.start) {
        ghost var w1 := world;
        forall i | Known(old(world), i) && Records(r, i) && i.boot == old(world).boot
          ensures GroupAlive(old(world), i.lifetime) {
          PathKeeps(old(world), p1, i);
          assert w1.procs[i.pid].lifetime == i.lifetime;
        }
        return true, p1;
      }
      ghost var p2, p3;
      alive, p2, p3 := LookAtMembers(r);
      PathJoins(old(world), p1, p2);
      PathJoins(old(world), p1 + p2, p3);
      path := p1 + p2 + p3;
      ghost var w1 := Follow(old(world), p1);
      forall i | Known(old(world), i) && Records(r, i) && !alive ensures !GroupAlive(world, i.lifetime) {
        PathKeeps(old(world), p1, i);
        DeadMeansDead(w1, p2, p3, i, r);
      }
      forall i | Known(old(world), i) && Records(r, i) && i.boot == old(world).boot && alive
        ensures GroupAlive(old(world), i.lifetime) || SuccessorSeen(old(world), path, i)
      {
        AliveAnswersAreSound(old(world), p1, p2, p3, i, r);
      }
    }

    /** `signal_managed_group`: the test, and then `killpg`, which finds some process in the group or
        none. What the signal does is up to the machine. */
    method SignalManagedGroup(record: Option<ProcessRecord>) returns (sent: bool, ghost path: seq<ProcEvent>)
      requires WorldOk(world)
      modifies this`world, this`turns
      ensures PathPossible(old(world), path) && world == Follow(old(world), path)
      ensures sent ==> record.Some? && MembersOf(world, record.value.pgid) != {}
      ensures forall i: Ident :: record.Some? && Known(old(world), i) && Records(record.value, i) && !sent ==>
                !GroupAlive(world, i.lifetime)
      ensures forall i: Ident ::
                && sent && record.Some? && i.boot == old(world).boot
                && Known(old(world), i) && Records(record.value, i) ==>
                GroupAlive(old(world), i.lifetime) || SuccessorSeen(old(world), path, i)
      ensures forall i: Ident ::
                && sent && record.Some? && i.boot == old(world).boot
                && Known(old(world), i) && Records(record.value, i) ==>
                  (OwnGroup(world, i) <==> GroupAlive(world, i.lifetime))
    {
      ghost var p1, p2;
      sent, p1 := ManagedProcessGroupAlive(record);
      path := p1;
      if sent {
        ghost var w1 := world;
        var readable;
        readable, p2 := TakeTurn();
        PathJoins(old(world), p1, p2);
        path := p1 + p2;
        sent := MembersOf(world, record.value.pgid) != {};
        forall i | Known(old(world), i) && Records(record.value, i) && !sent ensures !GroupAlive(world, i.lifetime) {
          PathKeeps(old(world), path, i);
          assert forall p :: p in world.procs ==> p !in MembersOf(world, i.pid);
        }
        forall i | Known(old(world), i) && Records(record.value, i) && i.boot == old(world).boot && sent
          ensures GroupAlive(old(world), i.lifetime) || SuccessorSeen(old(world), path, i)
        {
          if !GroupAlive(old(world), i.lifetime) {
            SeenBefore(old(world), p1, p2, i);
          }
        }
        forall i | Known(old(world), i) && Records(record.value, i) && i.boot == old(world).boot && sent
          ensures OwnGroup(world, i) <==> GroupAlive(world, i.lifetime)
        {
          PathKeeps(old(world), path, i);
          SignalReachesExactly(world, i);
        }
      }
    }

    /** The second half of the test, once the leader was not found by its start time. */
    method LookAtMembers(r: ProcessRecord) returns (alive: bool, ghost p2: seq<ProcEvent>, ghost p3: seq<ProcEvent>)
      modifies this`world, this`turns
      ensures PathPossible(old(world), p2) && PathPossible(Follow(old(world), p2), p3)
      ensures world == Follow(Follow(old(world), p2), p3)
      ensures alive <==> GroupTest(Some(r), None, MembersOf(Follow(old(world), p2), r.pgid), StartTimeOf(world, r.pid))
    {
      var members;
      members, p2 := ProcessGroupMembers(r.pgid);
      p3 := [];
      if members == {} {
        alive := false;
      } else if r.pgid in members {
        var identity;
        identity, p3 := ProcessStartTime(r.pid);
        alive := r.pid == r.pgid && IdentityMatches(identity, r.start);
      } else {
        alive := true;
      }
    }

    /** Starts a child in a session of its own, if the launch gets that far. */
    method Spawn() returns (started: bool, turn: LaunchTurn, ghost path: seq<ProcEvent>)
      modifies this`world, this`launches
      ensures PathPossible(old(world), path)
      ensures started
             <==> && old(launches) != []
                  && FreshPid(Follow(old(world), path), old(launches)[0].pid, old(launches)[0].start)
      ensures started ==> turn == old(launches)[0]
      ensures var w := Follow(old(world), path);
              world == if started then AfterSpawn(w, turn.pid, turn.start) else w
    {
      started := false;
      path := [];
      turn := LaunchTurn([], 0, 0, None, 0);
      if launches != [] {
        turn := launches[0];
        launches := launches[1..];
        path := Happen(turn.events);
        if FreshPid(world, turn.pid, turn.start) {
          world := AfterSpawn(world, turn.pid, turn.start);
          started := true;
        }
      }
    }
  }
}
