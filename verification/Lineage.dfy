/** The three definitions of an attempt that a later retry replaced, and the group counts
    (src/gq/database.py and src/gq/cli.py). */
module Lineage {
  import opened Models
  import opened Tables
  import opened Protocol
  import opened Invariants

  /** By the lineage query: some newer attempt exists. */
  predicate ReplacedByQuery(s: Store, id: nat)
    requires id in s.jobs
  {
    NewerAttempt(s, s.jobs[id].Root(), id).Some?
  }

  /** By the SQL clause: a later row was retried from this row's root. */
  ghost predicate ReplacedBySql(jobs: map<nat, Job>, id: nat)
    requires id in jobs
  {
    exists later :: later in jobs && jobs[later].id > jobs[id].id && jobs[later].retryOf ==
      Some(if jobs[id].retryOf.Some? then jobs[id].retryOf.value else jobs[id].id)
  }

  /** By the client, on the rows it was sent: a row of the same root has a higher id. */
  ghost predicate ReplacedInListing(rows: seq<Job>, id: nat) {
    exists i, j ::
      0 <= i < |rows| && 0 <= j < |rows| && rows[i].id == id && rows[j].Root() == rows[i].Root() && rows[j].id > id
  }

  /** `_superseded_ids` of the client. */
  method SupersededIds(rows: seq<Job>) returns (superseded: set<nat>)
    ensures forall id :: id in superseded <==> ReplacedInListing(rows, id)
  {
    var latest: map<nat, nat> := map[];
    for i := 0 to |rows|
      invariant forall k :: 0 <= k < i ==> rows[k].Root() in latest && rows[k].id <= latest[rows[k].Root()]
      invariant forall r :: r in latest ==> exists k :: 0 <= k < i && rows[k].Root() == r && rows[k].id == latest[r]
    {
      var root := rows[i].Root();
      var seen := if root in latest then latest[root] else 0;
      latest := latest[root := if rows[i].id > seen then rows[i].id else seen];
      assert rows[i].Root() == root;
    }
    superseded := {};
    for i := 0 to |rows|
      invariant forall id :: id in superseded <==>
                  exists k :: 0 <= k < i && rows[k].id == id && latest[rows[k].Root()] != id
    {
      if latest[rows[i].Root()] != rows[i].id {
        superseded := superseded + {rows[i].id};
      }
    }
    forall id | id in superseded ensures ReplacedInListing(rows, id) {
      var k :| 0 <= k < |rows| && rows[k].id == id && latest[rows[k].Root()] != id;
      var m :| 0 <= m < |rows| && rows[m].Root() == rows[k].Root() && rows[m].id == latest[rows[k].Root()];
    }
  }

  /** On every reachable table the lineage query and the SQL clause agree. */
  lemma QueryAgreesWithSql(h: History, id: nat)
    requires Legal(h) && id in State(h).store.jobs
    ensures ReplacedByQuery(State(h).store, id) <==> ReplacedBySql(State(h).store.jobs, id)
  {
    InvariantHolds(h);
    QueryAgrees(State(h).store, id);
  }

  lemma QueryAgrees(s: Store, id: nat)
    requires IdsOk(s) && LineageOk(s.jobs) && id in s.jobs
    ensures ReplacedByQuery(s, id) <==> ReplacedBySql(s.jobs, id)
    ensures ReplacedBySql(s.jobs, id) <==> exists b :: b in s.jobs && b > id && s.jobs[b].Root() == s.jobs[id].Root()
  {
    NewerAttemptMeaning(s, id);
    if ReplacedBySql(s.jobs, id) {
      var later :| later in s.jobs && s.jobs[later].id > s.jobs[id].id && s.jobs[later].retryOf ==
        Some(if s.jobs[id].retryOf.Some? then s.jobs[id].retryOf.value else s.jobs[id].id);
      assert s.jobs[later].Root() == s.jobs[id].Root();
    }
    forall b | b in s.jobs && b > id && s.jobs[b].Root() == s.jobs[id].Root() ensures ReplacedBySql(s.jobs, id) {
      assert s.jobs[b].retryOf.Some?;
    }
  }

  /** The client, given every job of a group, finds the same attempts. */
  lemma ListingAgreesWithSql(h: History, group: string, rows: seq<Job>, id: nat)
    requires Legal(h)
    requires forall k :: 0 <= k < |rows| ==>
            rows[k].id in State(h).store.jobs && rows[k] == State(h).store.jobs[rows[k].id] && rows[k].InGroup(group)
    requires forall j :: j in State(h).store.jobs && State(h).store.jobs[j].InGroup(group) ==>
            State(h).store.jobs[j] in rows
    ensures ReplacedInListing(rows, id) <==>
              && id in State(h).store.jobs && State(h).store.jobs[id].InGroup(group)
              && ReplacedBySql(State(h).store.jobs, id)
  {
    InvariantHolds(h);
    var s := State(h).store;
    if id in s.jobs && s.jobs[id].InGroup(group) {
      QueryAgrees(s, id);
      var i :| 0 <= i < |rows| && rows[i] == s.jobs[id];
      forall b | b in s.jobs && b > id && s.jobs[b].Root() == s.jobs[id].Root() ensures ReplacedInListing(rows, id) {
        assert s.jobs[b].InGroup(group);
        var j :| 0 <= j < |rows| && rows[j] == s.jobs[b];
      }
    }
  }

  // ---- Counting a group ----

  ghost function GroupIds(jobs: map<nat, Job>, group: string): set<nat> {
    set id | id in jobs && jobs[id].InGroup(group)
  }

  /** The attempts `group_counts` counts. */
  ghost function Latest(jobs: map<nat, Job>, group: string): set<nat> {
    set id | id in jobs && jobs[id].InGroup(group) && !ReplacedBySql(jobs, id)
  }

  /** The attempts `group_retried_counts` counts. */
  ghost function Retried(jobs: map<nat, Job>, group: string): set<nat> {
    set id | id in jobs && jobs[id].InGroup(group) && ReplacedBySql(jobs, id)
  }

  lemma {:induction false} NewestExists(s: Store, id: nat, bound: nat)
    requires IdsOk(s) && LineageOk(s.jobs) && id in s.jobs && s.nextId <= bound + id
    ensures exists top ::
              && top in s.jobs && s.jobs[top].Root() == s.jobs[id].Root() && s.jobs[top].spec == s.jobs[id].spec
                          && !ReplacedBySql(s.jobs, top)
    decreases bound
  {
    QueryAgrees(s, id);
    if ReplacedBySql(s.jobs, id) {
      var b :| b in s.jobs && b > id && s.jobs[b].Root() == s.jobs[id].Root();
      NewestExists(s, b, bound - 1);
    }
  }

  ghost predicate BothLatest(jobs: map<nat, Job>, a: nat, b: nat) {
    && a in jobs && b in jobs && jobs[a].Root() == jobs[b].Root()
    && !ReplacedBySql(jobs, a) && !ReplacedBySql(jobs, b)
  }

  /** Every lineage has exactly one attempt that nothing replaced. */
  lemma OneLatestPerLineage(h: History, id: nat)
    requires Legal(h) && id in State(h).store.jobs
    ensures var jobs := State(h).store.jobs;
            && (exists top :: top in jobs && jobs[top].Root() == jobs[id].Root() && !ReplacedBySql(jobs, top))
            && (forall a, b :: BothLatest(jobs, a, b) ==> a == b)
  {
    InvariantHolds(h);
    NewestExists(State(h).store, id, State(h).store.nextId);
    LatestIsUnique(State(h).store);
  }

  lemma LatestIsUnique(s: Store)
    requires IdsOk(s) && LineageOk(s.jobs)
    ensures forall a, b :: BothLatest(s.jobs, a, b) ==> a == b
  {
    forall a, b | BothLatest(s.jobs, a, b) ensures a == b {
      QueryAgrees(s, a);
      QueryAgrees(s, b);
    }
  }

  ghost function RootsOf(jobs: map<nat, Job>, ids: set<nat>): set<nat>
    requires forall id :: id in ids ==> id in jobs
  {
    set id | id in ids :: jobs[id].Root()
  }

  lemma LatestReachesEveryRoot(s: Store, group: string, id: nat)
    requires IdsOk(s) && LineageOk(s.jobs) && id in GroupIds(s.jobs, group)
    ensures s.jobs[id].Root() in RootsOf(s.jobs, Latest(s.jobs, group))
  {
    NewestExists(s, id, s.nextId);
    var top :| top in s.jobs && s.jobs[top].Root() == s.jobs[id].Root() && s.jobs[top].spec == s.jobs[id].spec
               && !ReplacedBySql(s.jobs, top);
    assert top in Latest(s.jobs, group);
  }

  ghost predicate DistinctRoots(jobs: map<nat, Job>, ids: set<nat>) {
    && (forall id :: id in ids ==> id in jobs)
    && (forall a, b :: a in ids && b in ids && a != b ==> jobs[a].Root() != jobs[b].Root())
  }

  lemma {:induction false} RootsCount(jobs: map<nat, Job>, ids: set<nat>)
    requires DistinctRoots(jobs, ids)
    ensures |RootsOf(jobs, ids)| == |ids|
  {
    if ids != {} {
      var x :| x in ids;
      RootsCount(jobs, ids - {x});
      assert RootsOf(jobs, ids) == RootsOf(jobs, ids - {x}) + {jobs[x].Root()};
    }
  }

  lemma LatestHasAllRoots(s: Store, group: string)
    requires IdsOk(s) && LineageOk(s.jobs)
    ensures RootsOf(s.jobs, Latest(s.jobs, group)) == RootsOf(s.jobs, GroupIds(s.jobs, group))
  {
    forall r | r in RootsOf(s.jobs, GroupIds(s.jobs, group)) ensures r in RootsOf(s.jobs, Latest(s.jobs, group)) {
      var id :| id in GroupIds(s.jobs, group) && s.jobs[id].Root() == r;
      LatestReachesEveryRoot(s, group, id);
    }
    assert Latest(s.jobs, group) <= GroupIds(s.jobs, group);
  }

  /** Per group the latest attempts are as many as the lineages. */
  lemma LatestCountsLineages(s: Store, group: string)
    requires IdsOk(s) && LineageOk(s.jobs)
    ensures |Latest(s.jobs, group)| == |RootsOf(s.jobs, GroupIds(s.jobs, group))|
  {
    LatestHasAllRoots(s, group);
    LatestIsUnique(s);
    forall a, b | a in Latest(s.jobs, group) && b in Latest(s.jobs, group) && a != b
      ensures s.jobs[a].Root() != s.jobs[b].Root()
    {
      assert !BothLatest(s.jobs, a, b);
    }
    RootsCount(s.jobs, Latest(s.jobs, group));
  }

  /** The sum of the counts of the listed states. */
  ghost function Among(jobs: map<nat, Job>, ids: set<nat>, states: seq<JobState>): nat
    requires forall id :: id in ids ==> id in jobs
  {
    if states == [] then 0
    else |set id | id in ids && jobs[id].state == states[0]| + Among(jobs, ids, states[1..])
  }

  /** Counting state by state over distinct states counts every job whose state is listed. */
  lemma {:induction false} StateCountsAddUp(jobs: map<nat, Job>, ids: set<nat>, states: seq<JobState>)
    requires forall id :: id in ids ==> id in jobs
    requires forall i, j :: 0 <= i < j < |states| ==> states[i] != states[j]
    ensures Among(jobs, ids, states) == |set id | id in ids && jobs[id].state in states|
  {
    if states == [] {
      assert (set id | id in ids && jobs[id].state in states) == {};
    } else {
      StateCountsAddUp(jobs, ids, states[1..]);
      var first := set id | id in ids && jobs[id].state == states[0];
      var later := set id | id in ids && jobs[id].state in states[1..];
      assert (set id | id in ids && jobs[id].state in states) == first + later;
      assert first !! later;
    }
  }

  const ALL_STATES: seq<JobState> :=
    [JobState.Waiting, JobState.Starting, JobState.Running, JobState.Cancelling,
     JobState.Done, JobState.Failed, JobState.Cancelled, JobState.Orphaned]

  /** Per group the state counts add up to the number of lineages, and together with the retried
      attempts to all its jobs. */
  lemma GroupCountsAddUp(h: History, group: string)
    requires Legal(h)
    ensures var jobs := State(h).store.jobs;
            && Among(jobs, Latest(jobs, group), ALL_STATES) == |RootsOf(jobs, GroupIds(jobs, group))|
            && Among(jobs, Latest(jobs, group), ALL_STATES) + |Retried(jobs, group)| == |GroupIds(jobs, group)|
  {
    InvariantHolds(h);
    LatestCountsLineages(State(h).store, group);
    LatestAndRetried(State(h).store.jobs, group);
  }

  lemma LatestAndRetried(jobs: map<nat, Job>, group: string)
    ensures Among(jobs, Latest(jobs, group), ALL_STATES) == |Latest(jobs, group)|
    ensures |Latest(jobs, group)| + |Retried(jobs, group)| == |GroupIds(jobs, group)|
  {
    var latest := Latest(jobs, group);
    StateCountsAddUp(jobs, latest, ALL_STATES);
    forall id | id in latest ensures jobs[id].state in ALL_STATES {
      EveryStateIsListed(jobs[id].state);
    }
    assert (set id | id in latest && jobs[id].state in ALL_STATES) == latest;
    assert GroupIds(jobs, group) == latest + Retried(jobs, group) && latest !! Retried(jobs, group);
  }

  lemma EveryStateIsListed(state: JobState)
    ensures state in ALL_STATES
  {
    assert ALL_STATES[0] == JobState.Waiting && ALL_STATES[1] == JobState.Starting && ALL_STATES[2] == JobState.Running
      && ALL_STATES[3] == JobState.Cancelling && ALL_STATES[4] == JobState.Done && ALL_STATES[5] == JobState.Failed
      && ALL_STATES[6] == JobState.Cancelled && ALL_STATES[7] == JobState.Orphaned;
  }
}
