/** Jobs that each write what the other reads: how the scheduler comes to a stall, and that it stays there. */
module JobStall {
  import opened JobModel
  import opened JobSched
  import opened JobRuns

  /** Two queued jobs of which each writes a key that the other reads. */
  ghost predicate Crossed(s: Sched, a: nat, b: nat) {
    && a != b && a in s.queue && b in s.queue && a in s.defs && b in s.defs
    && Meets(s.defs[a].exclusive, s.defs[b].shared) && Meets(s.defs[b].exclusive, s.defs[a].shared)
  }

  ghost predicate BothReady(s: Sched, a: nat, b: nat) {
    a in s.defs && b in s.defs && Ready(s.owner.Keys, s.defs[a]) && Ready(s.owner.Keys, s.defs[b])
  }

  /** The step starts or aborts this queued job. */
  ghost predicate Launches(s: Sched, e: Step, id: nat) { e.Launch? && e.index < |s.queue| && s.queue[e.index] == id }

  ghost predicate Aborts(s: Sched, e: Step, id: nat) { e.AbortQueued? && e.index < |s.queue| && s.queue[e.index] == id }

  /** Along every run, while both are queued and dependency-ready, neither is launched. */
  lemma CrossedNeverLaunched(c: Config, states: seq<Sched>, steps: seq<Step>, n: nat, a: nat, b: nat)
    requires Run(c, states, steps) && n < |steps| && Crossed(states[n], a, b) && BothReady(states[n], a, b)
    ensures !Launches(states[n], steps[n], a) && !Launches(states[n], steps[n], b)
  {
    var s := states[n];
    RunSound(c, states, steps, n);
    assert Next(c, s, steps[n], states[n + 1]);
    assert BlockedBy(s.defs, s.owner.Keys, a, b) && BlockedBy(s.defs, s.owner.Keys, b, a);
  }

  lemma StepKeepsCrossed(c: Config, s: Sched, e: Step, a: nat, b: nat)
    requires Sound(c, s) && Enabled(c, s, e) && Crossed(s, a, b)
    requires !Launches(s, e, a) && !Launches(s, e, b) && !Aborts(s, e, a) && !Aborts(s, e, b)
    ensures Crossed(Do(c, s, e), a, b) && Do(c, s, e).defs[a] == s.defs[a] && Do(c, s, e).defs[b] == s.defs[b]
  {
    RecordsThere(c, s, a);
    RecordsThere(c, s, b);
    if e.Launch? || e.AbortQueued? {
      WithoutQueue(s.queue, e.index, a);
      WithoutQueue(s.queue, e.index, b);
    }
  }

  /** Two crossed jobs without dependencies stay queued in every run, until one of them is aborted. */
  lemma {:induction false} CrossedStayQueued(c: Config, states: seq<Sched>, steps: seq<Step>, n: nat, m: nat, a: nat,
                                             b: nat)
    requires Run(c, states, steps) && n <= m < |states| && Crossed(states[n], a, b)
    requires states[n].defs[a].dependsOn == [] && states[n].defs[b].dependsOn == []
    requires forall k | n <= k < m :: !Aborts(states[k], steps[k], a) && !Aborts(states[k], steps[k], b)
    ensures Crossed(states[m], a, b) && states[m].defs[a] == states[n].defs[a] && states[m].defs[b] == states[n].defs[b]
    decreases m - n
  {
    if n < m {
      CrossedStayQueued(c, states, steps, n, m - 1, a, b);
      var s := states[m - 1];
      assert !Aborts(s, steps[m - 1], a) && !Aborts(s, steps[m - 1], b);
      RunSound(c, states, steps, m - 1);
      assert Next(c, s, steps[m - 1], states[m]);
      CrossedNeverLaunched(c, states, steps, m - 1, a, b);
      StepKeepsCrossed(c, s, steps[m - 1], a, b);
    }
  }

  // ---------------------------------------------------------------- reaching a stall

  /** A run as the manager makes it: whatever may start is started before anything else happens. */
  ghost predicate EagerRun(c: Config, states: seq<Sched>, steps: seq<Step>) {
    Run(c, states, steps) && forall n | 0 <= n < |steps| && !steps[n].Launch? :: Settled(c, states[n])
  }

  ghost predicate EndsIn(c: Config, states: seq<Sched>, steps: seq<Step>, s: Sched) {
    EagerRun(c, states, steps) && states[|steps|] == s
  }

  ghost predicate Reachable(c: Config, s: Sched) { exists states, steps :: EndsIn(c, states, steps, s) }

  lemma ReachableStart(c: Config)
    requires ValidConfig(c)
    ensures Reachable(c, Start())
  {
    assert EndsIn(c, [Start()], [], Start());
  }

  lemma ReachableSound(c: Config, s: Sched)
    requires Reachable(c, s)
    ensures Sound(c, s)
  {
    var states, steps :| EndsIn(c, states, steps, s);
    RunSound(c, states, steps, |steps|);
  }

  lemma RunNext(c: Config, states: seq<Sched>, steps: seq<Step>, e: Step, t: Sched)
    requires Run(c, states, steps) && Next(c, states[|steps|], e, t)
    ensures Run(c, states + [t], steps + [e])
  {
    forall n | 0 <= n < |steps + [e]| ensures Next(c, (states + [t])[n], (steps + [e])[n], (states + [t])[n + 1]) {
      if n < |steps| { assert Next(c, states[n], steps[n], states[n + 1]); }
    }
  }

  lemma EagerNext(c: Config, states: seq<Sched>, steps: seq<Step>, e: Step, t: Sched)
    requires EagerRun(c, states, steps) && Next(c, states[|steps|], e, t) && (e.Launch? || Settled(c, states[|steps|]))
    ensures EndsIn(c, states + [t], steps + [e], t)
  {
    RunNext(c, states, steps, e, t);
    forall n | 0 <= n < |steps + [e]| && !(steps + [e])[n].Launch? ensures Settled(c, (states + [t])[n]) {
      if n < |steps| { assert steps[n] == (steps + [e])[n]; }
    }
  }

  lemma ReachableNext(c: Config, s: Sched, e: Step)
    requires Reachable(c, s) && Sound(c, s) && Enabled(c, s, e) && (e.Launch? || Settled(c, s))
    ensures Reachable(c, Do(c, s, e))
  {
    var states, steps :| EndsIn(c, states, steps, s);
    EagerNext(c, states, steps, e, Do(c, s, e));
  }

  lemma ReachableAdd(c: Config, s: Sched, id: nat, d: Definition)
    requires Reachable(c, s) && Settled(c, s) && Enabled(c, s, Add(id, d))
    ensures Reachable(c, Added(c, s, id, d))
  {
    ReachableSound(c, s);
    ReachableNext(c, s, Add(id, d));
  }

  lemma ReachableLaunch(c: Config, s: Sched, i: nat)
    requires Reachable(c, s) && Enabled(c, s, Launch(i)) && s.queue[i] in s.defs && s.queue[i] in s.recs
             && s.queue[i] in s.runs
    ensures Reachable(c, Launched(s, i))
  {
    ReachableSound(c, s);
    ReachableNext(c, s, Launch(i));
  }

  const HOLDING := Definition("holding", [], ["x"], [], "", 0, 0, true)
  const FIRST := Definition("first", [], ["x"], ["y"], "", 0, 0, true)
  const SECOND := Definition("second", [], ["y"], ["x"], "", 0, 0, true)

  /** One job runs, holding the first key. */
  ghost predicate Holding(s: Sched) {
    && s.queue == [] && s.active == {0} && s.defs == map[0 := HOLDING] && s.recs.Keys == {0}
    && s.owner == map["holding" := 0] && "x" in s.holder
  }

  lemma HoldingRuns(c: Config) returns (s: Sched)
    requires ValidConfig(c)
    ensures Reachable(c, s) && Holding(s)
  {
    ReachableStart(c);
    ReachableAdd(c, Start(), 0, HOLDING);
    var t := Added(c, Start(), 0, HOLDING);
    assert DefinitionOk(c, t.defs, 0);
    IdleRunnable(c, t.queue, t.defs, t.owner.Keys, 0);
    ReachableLaunch(c, t, 0);
    s := Launched(t, 0);
  }

  lemma HeldKeyBlocks(c: Config, s: Sched, id: nat, d: Definition, k: string)
    requires id in s.defs && s.defs[id] == d && k in s.holder && (k in d.exclusive || k in d.shared)
    ensures !Runnable(c, s.queue, s.defs, s.active, s.owner.Keys, s.holder.Keys, s.shared, id)
  {}

  lemma FirstQueues(c: Config, s: Sched) returns (t: Sched)
    requires Reachable(c, s) && Holding(s)
    ensures Reachable(c, t) && Settled(c, t) && t.queue == [1] && t.active == {0}
            && t.defs == map[0 := HOLDING, 1 := FIRST]
    ensures t.recs.Keys == {0, 1} && t.owner.Keys == {"holding", "first"} && "x" in t.holder
  {
    ReachableAdd(c, s, 1, FIRST);
    t := Added(c, s, 1, FIRST);
    HeldKeyBlocks(c, t, 1, FIRST, "x");
  }

  /** Two jobs that cross over its key queue up behind it. */
  lemma CrossedQueue(c: Config, s: Sched) returns (t: Sched)
    requires Reachable(c, s) && Holding(s)
    ensures Reachable(c, t) && Settled(c, t) && t.queue == [1, 2] && t.active == {0}
    ensures t.defs == map[0 := HOLDING, 1 := FIRST, 2 := SECOND]
  {
    var u := FirstQueues(c, s);
    ReachableAdd(c, u, 2, SECOND);
    t := Added(c, u, 2, SECOND);
    HeldKeyBlocks(c, t, 1, FIRST, "x");
    HeldKeyBlocks(c, t, 2, SECOND, "x");
  }

  lemma CrossedBlocked(s: Sched, a: nat, b: nat)
    requires s.queue == [a, b] && Crossed(s, a, b) && BothReady(s, a, b)
    ensures AllReadyBlocked(s.queue, s.defs, s.owner.Keys)
  {
    assert BlockedBy(s.defs, s.owner.Keys, a, b) && BlockedBy(s.defs, s.owner.Keys, b, a);
  }

  lemma HolderEnds(c: Config, s: Sched) returns (t: Sched)
    requires Reachable(c, s) && Settled(c, s) && s.active == {0}
    ensures Reachable(c, t) && t.active == {} && t.queue == s.queue && t.defs == s.defs
  {
    ReachableSound(c, s);
    ReachableNext(c, s, End(0, false));
    t := Do(c, s, End(0, false));
  }

  /** When it ends, neither of the two can start, though nothing runs any more: a run of the manager that stalls. */
  lemma CrossedKeysStall(c: Config) returns (s: Sched)
    requires ValidConfig(c)
    ensures Reachable(c, s) && Stalled(c, s) && s.queue == [1, 2] && Crossed(s, 1, 2)
    ensures s.defs[1].dependsOn == [] && s.defs[2].dependsOn == []
  {
    s := HoldingRuns(c);
    s := CrossedQueue(c, s);
    s := HolderEnds(c, s);
    assert FIRST.exclusive[0] in SECOND.shared && SECOND.exclusive[0] in FIRST.shared;
    CrossedBlocked(s, 1, 2);
    ReachableSound(c, s);
    StallsExactlyWhenCrossed(c, s);
  }
}
