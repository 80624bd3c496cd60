/** A run of the manager after which shutdown strands a job that waits for its retry. */
module JobStrand {
  import opened JobModel
  import opened JobSched
  import opened JobRuns
  import opened JobShutdown
  import opened JobStall

  const FAILED_ONCE := Record(Standby, 1, false, false)

  function Retrying(key: string): Definition { Definition(key, [], [], [], "", 0, 1, true) }

  /** Nothing runs or is queued; every job waits for its retry. */
  ghost predicate Waiting(s: Sched) { s.queue == [] && s.active == {} && forall id | id in s.recs :: Waits(s.recs, id) }

  lemma {:induction false} AllAlive(h: seq<nat>, recs: Records, max: nat)
    requires forall i | 0 <= i < |h| :: Unfinished(recs, h[i])
    ensures Trim(h, recs, max) == h
  {
    FirstDeadIsDead(h, recs);
  }

  lemma ReachableStandBy(c: Config, s: Sched, id: nat)
    requires Reachable(c, s) && Settled(c, s) && Enabled(c, s, StandBy(id))
    ensures Reachable(c, StoodBy(s, id))
  {
    ReachableSound(c, s);
    ReachableNext(c, s, StandBy(id));
  }

  lemma OneAdded(c: Config, s: Sched, id: nat, key: string) returns (t: Sched)
    requires ValidConfig(c) && Reachable(c, s) && Waiting(s) && id !in s.recs && key !in s.owner
    requires forall x | x in s.history :: x in s.recs
    ensures t == Added(c, s, id, Retrying(key)) && Reachable(c, t) && t.history == s.history + [id]
  {
    ReachableAdd(c, s, id, Retrying(key));
    t := Added(c, s, id, Retrying(key));
    AllAlive(s.history + [id], t.recs, c.maxHistory);
  }

  lemma MayRun(c: Config, s: Sched, id: nat, key: string)
    requires Reachable(c, s) && s.queue == [id] && s.active == {} && id in s.defs && s.defs[id] == Retrying(key)
    ensures Enabled(c, s, Launch(0))
  {
    ReachableSound(c, s);
    IdleTables(c, s);
    assert DefinitionOk(c, s.defs, id);
    IdleRunnable(c, s.queue, s.defs, s.owner.Keys, id);
  }

  lemma StartsAndFails(c: Config, s: Sched, id: nat, key: string) returns (t: Sched)
    requires Reachable(c, s) && s.queue == [id] && s.active == {} && id in s.defs && s.defs[id] == Retrying(key)
    requires id in s.recs && s.recs[id] == Record(Queued, 0, false, false) && id in s.runs
    ensures Reachable(c, t) && t.queue == [] && t.active == {} && t.history == s.history && t.owner == s.owner
    ensures t.recs == s.recs[id := FAILED_ONCE]
  {
    MayRun(c, s, id, key);
    ReachableLaunch(c, s, 0);
    t := Launched(s, 0);
    assert t.queue == [];
    ReachableStandBy(c, t, id);
    t := StoodBy(t, id);
  }

  /** One more job is enqueued, starts, fails and waits. */
  lemma OneMoreWaits(c: Config, s: Sched, id: nat, key: string) returns (t: Sched)
    requires ValidConfig(c) && Reachable(c, s) && Waiting(s) && id !in s.recs && key !in s.owner
    requires forall x | x in s.history :: x in s.recs
    ensures Reachable(c, t) && Waiting(t) && t.history == s.history + [id] && t.recs == s.recs[id := FAILED_ONCE]
    ensures t.owner.Keys == s.owner.Keys + {key}
  {
    t := OneAdded(c, s, id, key);
    t := StartsAndFails(c, t, id, key);
  }

  /** With three such jobs in a history of two, the middle one is never aborted. */
  lemma MiddleIsMissed(h: seq<nat>, recs: Records)
    requires h == [0, 1, 2] && recs == map[0 := FAILED_ONCE, 1 := FAILED_ONCE, 2 := FAILED_ONCE]
    ensures exists id :: Waits(Swept(h, 0, h, recs, 2), id)
  {
    assert h[..0] == [];
    assert MissAt(h, recs, 1, 0);
    assert h[0] in h && h[1] in h && h[2] in h;
    ShutdownMisses(h, recs, 2);
  }

  /** And three jobs can come to wait at once. */
  lemma ShutdownStrandsJob(c: Config) returns (s: Sched)
    requires ValidConfig(c) && c.maxHistory == 2
    ensures Reachable(c, s) && Waiting(s) && s.history == [0, 1, 2] && s.recs.Keys == {0, 1, 2}
    ensures exists id :: Waits(Swept(s.history, 0, s.history, s.recs, c.maxHistory), id)
  {
    ReachableStart(c);
    s := OneMoreWaits(c, Start(), 0, "a");
    s := OneMoreWaits(c, s, 1, "b");
    s := OneMoreWaits(c, s, 2, "c");
    MiddleIsMissed(s.history, s.recs);
  }
}
