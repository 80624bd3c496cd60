/** Every run of the job scheduler: what its transitions keep, over any sequence of them. */
module JobRuns {
  import opened JobModel
  import opened JobTables
  import opened JobSched

  datatype Step =
    | Add(id: nat, definition: Definition)
    | Launch(index: nat)
    | StandBy(id: nat)
    | End(id: nat, failed: bool)
    | Retry(id: nat)
    | AbortRunning(id: nat)
    | AbortQueued(index: nat)
    | AbortWaiting(id: nat)

  /** What the manager's operations ask before each transition. */
  ghost predicate Enabled(c: Config, s: Sched, e: Step) {
    match e
    case Add(id, d) => id !in s.recs && d.key !in s.owner && d.hasHandler && Limit(c, d.group) > 0
    case Launch(i) => i < |s.queue|
        && Runnable(c, s.queue, s.defs, s.active, s.owner.Keys, s.holder.Keys, s.shared, s.queue[i])
    case StandBy(id) => id in s.active && id in s.defs && id in s.recs && s.recs[id].retryCount < s.defs[id].retries
    case End(id, _) => id in s.active
    case Retry(id) => id in s.recs && s.recs[id].status == Standby
    case AbortRunning(id) => id in s.active && id in s.recs
    case AbortQueued(i) => i < |s.queue|
    case AbortWaiting(id) => id in s.recs && s.recs[id].status == Standby
  }

  /** The records of a job are there when a step needs them. */
  lemma RecordsThere(c: Config, s: Sched, id: nat)
    requires Sound(c, s) && (id in s.active || id in s.queue || id in s.recs)
    ensures id in s.defs && id in s.recs && id in s.runs && id in s.finishes
  {
    assert Listed(s.history, s.queue, s.recs, s.active, id) && CountsOk(s.defs, s.recs, s.runs, s.finishes, id);
  }

  ghost function Do(c: Config, s: Sched, e: Step): Sched
    requires Sound(c, s) && Enabled(c, s, e)
  {
    match e
    case Add(id, d) => Added(c, s, id, d)
    case Launch(i) => RecordsThere(c, s, s.queue[i]); Launched(s, i)
    case StandBy(id) => StoodBy(s, id)
    case End(id, failed) => RecordsThere(c, s, id); Finish(c, Freed(s, id), id, failed, s.recs[id].aborted)
    case Retry(id) => Requeued(s, id)
    case AbortRunning(id) => MarkedAborted(s, id)
    case AbortQueued(i) =>
      RecordsThere(c, s, s.queue[i]);
      Finish(c, s.(queue := Without(s.queue, i)), s.queue[i], false, true)
    case AbortWaiting(id) => RecordsThere(c, s, id); Finish(c, s, id, false, true)
  }

  lemma StepSound(c: Config, s: Sched, e: Step)
    requires Sound(c, s) && Enabled(c, s, e)
    ensures Sound(c, Do(c, s, e))
  {
    match e
    case Add(id, d) => AddedSound(c, s, id, d);
    case Launch(i) => LaunchedSound(c, s, i);
    case StandBy(id) => StoodBySound(c, s, id);
    case End(id, failed) => EndSound(c, s, id, failed);
    case Retry(id) => RequeuedSound(c, s, id);
    case AbortRunning(id) => MarkedAbortedSound(c, s, id);
    case AbortQueued(i) => UnqueuedDetached(c, s, i); FinishSound(c, s.(queue := Without(s.queue, i)), s.queue[i],
        false, true);
    case AbortWaiting(id) => StandbyDetached(c, s, id); FinishSound(c, s, id, false, true);
  }

  lemma EndSound(c: Config, s: Sched, id: nat, failed: bool)
    requires Sound(c, s) && id in s.active
    ensures id in s.defs && id in s.recs && id in s.finishes
            && Sound(c, Finish(c, Freed(s, id), id, failed, s.recs[id].aborted))
  {
    RecordsThere(c, s, id);
    FreedDetached(c, s, id);
    FinishSound(c, Freed(s, id), id, failed, s.recs[id].aborted);
  }

  /** The state once every queued job has been aborted, first to last. */
  ghost function Drained(c: Config, s: Sched): Sched
    requires Sound(c, s)
    decreases |s.queue|
  {
    if s.queue == [] then s else StepSound(c, s, AbortQueued(0)); Drained(c, Do(c, s, AbortQueued(0)))
  }

  ghost predicate Next(c: Config, s: Sched, e: Step, t: Sched) {
    Sound(c, s) ==> Enabled(c, s, e) && t == Do(c, s, e)
  }

  /** The states of a run, one more than its steps. */
  ghost predicate Run(c: Config, states: seq<Sched>, steps: seq<Step>) {
    && ValidConfig(c) && |states| == |steps| + 1 && states[0] == Start()
    && forall n | 0 <= n < |steps| :: Next(c, states[n], steps[n], states[n + 1])
  }

  lemma {:induction false} RunSound(c: Config, states: seq<Sched>, steps: seq<Step>, n: nat)
    requires Run(c, states, steps) && n < |states|
    ensures Sound(c, states[n])
  {
    if n == 0 {
      StartSound(c);
    } else {
      RunSound(c, states, steps, n - 1);
      assert Next(c, states[n - 1], steps[n - 1], states[n]);
      StepSound(c, states[n - 1], steps[n - 1]);
    }
  }

  /** In every state of every run: no two running jobs share a key that one of them holds exclusively, the
      counters equal the running jobs, and no limit is exceeded. */
  lemma RunsNeverConflict(c: Config, states: seq<Sched>, steps: seq<Step>, n: nat, a: nat, b: nat, k: string)
    requires Run(c, states, steps) && n < |states|
    ensures var s := states[n];
            && (a in s.active && b in s.active && a != b && a in s.defs && b in s.defs && k in s.defs[a].exclusive ==>
                  k !in s.defs[b].exclusive && k !in s.defs[b].shared)
            && (k in s.holder <==> exists id :: id in s.active && id in s.defs && k in s.defs[id].exclusive)
            && Num(s.shared, k) == |SharedSlots(s.defs, s.active, k)|
            && Count(s.groups, k) == |InGroup(s.defs, s.active, k)|
            && (InGroup(s.defs, s.active, k) != {} ==> |InGroup(s.defs, s.active, k)| <= Limit(c, k))
            && |Counted(c, s.defs, s.active)| <= c.maxConcurrent
  {
    var s := states[n];
    RunSound(c, states, steps, n);
    assert HolderOk(s.holder, s.defs, s.active, k) && SharedOk(s.shared, s.defs, s.active, k)
           && GroupOk(c, s.groups, s.defs, s.active, k);
    forall id | id in s.active && id in s.defs && k in s.defs[id].exclusive ensures k in s.holder {
      assert HeldOk(s.holder, s.defs, s.active, id, k);
    }
    if a in s.active && b in s.active && a != b && a in s.defs && b in s.defs && k in s.defs[a].exclusive {
      NoConflicts(c, s.defs, s.active, s.holder, s.shared, s.groups, a, b, k);
    }
  }

  /** In every state of every run: the active keys are those of the unfinished jobs, one each, in the history; every job
      starts at most once more than its retries and finishes at most once. */
  lemma RunsKeepJobs(c: Config, states: seq<Sched>, steps: seq<Step>, n: nat, a: nat, b: nat)
    requires Run(c, states, steps) && n < |states| && a in states[n].recs && b in states[n].recs
    ensures var s := states[n];
            && a in s.defs && a in s.runs && a in s.finishes && b in s.defs
            && s.runs[a] <= s.defs[a].retries + 1 && s.finishes[a] <= 1
                 && (s.finishes[a] == 1 <==> s.recs[a].status == Finished)
            && (Unfinished(s.recs, a) ==> a in s.history && s.defs[a].key in s.owner)
            && (Unfinished(s.recs, a) && Unfinished(s.recs, b) && s.defs[a].key == s.defs[b].key ==> a == b)
            && (forall k | k in s.owner ::
                  Unfinished(s.recs, s.owner[k]) && s.owner[k] in s.defs && s.defs[s.owner[k]].key == k)
  {
    RunSound(c, states, steps, n);
    forall k | k in states[n].owner
      ensures var s := states[n]; Unfinished(s.recs, s.owner[k]) && s.owner[k] in s.defs && s.defs[s.owner[k]].key == k
    {
      assert OwnerOk(states[n].owner, states[n].defs, states[n].recs, k);
    }
    RecordsThere(c, states[n], a);
    RecordsThere(c, states[n], b);
    JobGuarantees(c, states[n], a, b);
  }

  /** In every run a step never starts a job while a queued writer whose dependencies are met wants a key it reads. */
  lemma ReadersWaitForWriters(c: Config, states: seq<Sched>, steps: seq<Step>, n: nat, w: nat, k: string)
    requires Run(c, states, steps) && n < |steps| && steps[n].Launch? && w in states[n].queue
    ensures var s := states[n]; var i := steps[n].index;
            && i < |s.queue| && s.queue[i] in s.defs && w in s.defs
            && (w != s.queue[i] && Ready(s.owner.Keys, s.defs[w]) && k in s.defs[w].exclusive ==>
                   k !in s.defs[s.queue[i]].shared)
  {
    var s := states[n];
    RunSound(c, states, steps, n);
    assert Next(c, s, steps[n], states[n + 1]);
    var id := s.queue[steps[n].index];
    RecordsThere(c, s, id);
    RecordsThere(c, s, w);
    if w != id { assert !BlockedBy(s.defs, s.owner.Keys, id, w); }
  }

  // -------------------------------------------------------- when a job starts, told by jobs

  /** Some unfinished job has this key. */
  ghost predicate Busy(s: Sched, k: string) {
    exists j :: Unfinished(s.recs, j) && j in s.defs && s.defs[j].key == k
  }

  ghost predicate DependenciesDone(s: Sched, d: Definition) { forall k | k in d.dependsOn :: !Busy(s, k) }

  ghost predicate Writes(s: Sched, j: nat, k: string) { j in s.active && j in s.defs && k in s.defs[j].exclusive }

  ghost predicate Reads(s: Sched, j: nat, k: string) { j in s.active && j in s.defs && k in s.defs[j].shared }

  /** No running job writes a key the job uses or reads one it writes. */
  ghost predicate KeysClear(s: Sched, d: Definition) {
    && (forall k, j | k in d.exclusive :: !Writes(s, j, k) && !Reads(s, j, k))
    && (forall k, j | k in d.shared :: !Writes(s, j, k))
  }

  /** Another queued job that could start as far as dependencies go writes a key the job reads. */
  ghost predicate WriterWaits(s: Sched, id: nat, d: Definition, w: nat, k: string) {
    w in s.queue && w in s.defs && w != id && DependenciesDone(s, s.defs[w]) && k in s.defs[w].exclusive
        && k in d.shared
  }

  lemma ReadyMeans(c: Config, s: Sched, d: Definition)
    requires Sound(c, s)
    ensures Ready(s.owner.Keys, d) <==> DependenciesDone(s, d)
  {
    forall k ensures k in s.owner <==> Busy(s, k) {
      assert OwnerOk(s.owner, s.defs, s.recs, k);
      if j :| Unfinished(s.recs, j) && j in s.defs && s.defs[j].key == k { assert OwnedOk(s.owner, s.defs, s.recs, j); }
    }
  }

  lemma HeldMeans(c: Config, s: Sched, k: string)
    requires Sound(c, s)
    ensures k in s.holder <==> exists j :: Writes(s, j, k)
    ensures k in s.shared <==> exists j :: Reads(s, j, k)
  {
    assert HolderOk(s.holder, s.defs, s.active, k) && SharedOk(s.shared, s.defs, s.active, k);
    if k in s.holder { assert Writes(s, s.holder[k], k); }
    if j :| Writes(s, j, k) { assert HeldOk(s.holder, s.defs, s.active, j, k); }
    var slots := SharedSlots(s.defs, s.active, k);
    if k in s.shared {
      var slot :| slot in slots;
      assert SlotOf(s.defs, s.active, k, slot.0, slot.1) && Reads(s, slot.0, k);
    }
    if j :| Reads(s, j, k) {
      var i :| 0 <= i < |s.defs[j].shared| && s.defs[j].shared[i] == k;
      assert SlotOf(s.defs, s.active, k, j, i) && (j, i) in slots;
    }
  }

  lemma KeysMeans(c: Config, s: Sched, d: Definition)
    requires Sound(c, s)
    ensures KeysFree(s.holder.Keys, s.shared, d) <==> KeysClear(s, d)
  {
    forall k
      ensures (k in s.holder <==> exists j :: Writes(s, j, k)) && (k in s.shared <==> exists j :: Reads(s, j, k))
    {
      HeldMeans(c, s, k);
    }
  }

  lemma BlockedMeans(c: Config, s: Sched, id: nat)
    requires Sound(c, s) && id in s.defs
    ensures Blocked(s.queue, s.defs, s.owner.Keys, id) <==> exists w, k :: WriterWaits(s, id, s.defs[id], w, k)
  {
    forall w | w in s.queue && w in s.defs ensures Ready(s.owner.Keys, s.defs[w]) <==> DependenciesDone(s, s.defs[w]) {
      ReadyMeans(c, s, s.defs[w]);
    }
    if w :| w in s.queue && w in s.defs && BlockedBy(s.defs, s.owner.Keys, id, w) {
      var i :| 0 <= i < |s.defs[w].exclusive| && s.defs[w].exclusive[i] in s.defs[id].shared;
      assert WriterWaits(s, id, s.defs[id], w, s.defs[w].exclusive[i]);
    }
    if w, k :| WriterWaits(s, id, s.defs[id], w, k) {
      var i :| 0 <= i < |s.defs[w].exclusive| && s.defs[w].exclusive[i] == k;
      assert BlockedBy(s.defs, s.owner.Keys, id, w);
    }
  }

  /** In every state of every run a queued job may be started exactly if the jobs it depends on are finished, no
      running job is in the way of its keys, no queued writer waits for a key it reads, and its group and, unless
      that is independent, the manager have room. */
  lemma StartsExactlyWhen(c: Config, states: seq<Sched>, steps: seq<Step>, n: nat, i: nat)
    requires Run(c, states, steps) && n < |states| && i < |states[n].queue|
    ensures var s := states[n];
            && s.queue[i] in s.defs
            && var id, d := s.queue[i], s.defs[s.queue[i]];
            Enabled(c, s, Launch(i)) <==>
              && DependenciesDone(s, d) && KeysClear(s, d) && (forall w, k :: !WriterWaits(s, id, d, w, k))
              && |set j | j in s.active && j in s.defs && s.defs[j].group == d.group| < Limit(c, d.group)
              && (d.group in c.independent
                  || |set j | j in s.active && j in s.defs && s.defs[j].group !in c.independent| < c.maxConcurrent)
  {
    var s := states[n];
    RunSound(c, states, steps, n);
    var id := s.queue[i];
    RecordsThere(c, s, id);
    ReadyMeans(c, s, s.defs[id]);
    KeysMeans(c, s, s.defs[id]);
    BlockedMeans(c, s, id);
    assert InGroup(s.defs, s.active, s.defs[id].group)
        == set j | j in s.active && j in s.defs && s.defs[j].group == s.defs[id].group;
    assert Counted(c, s.defs, s.active) == set j | j in s.active && j in s.defs && s.defs[j].group !in c.independent;
  }

  // ----------------------------------------------------- what the manager's loops do

  /** The job at `i` is the first of the highest priority among those that may run. */
  ghost predicate Best(c: Config, s: Sched, i: nat) {
    && i < |s.queue|
    && forall j | 0 <= j < |s.queue| && s.queue[j] in s.defs && s.queue[i] in s.defs
                  && Runnable(c, s.queue, s.defs, s.active, s.owner.Keys, s.holder.Keys, s.shared, s.queue[j]) ::
         s.defs[s.queue[j]].priority <= s.defs[s.queue[i]].priority
         && (j < i ==> s.defs[s.queue[j]].priority < s.defs[s.queue[i]].priority)
  }

  /** There is one best job at most. */
  lemma BestIsUnique(c: Config, s: Sched, i: nat, j: nat)
    requires Best(c, s, i) && Best(c, s, j) && s.queue[i] in s.defs && s.queue[j] in s.defs
    requires Enabled(c, s, Launch(i)) && Enabled(c, s, Launch(j))
    ensures i == j
  {}

  /** Dispatching takes the best job each time; shutting down only aborts. */
  ghost predicate Allowed(c: Config, s: Sched, e: Step, dispatching: bool) {
    if dispatching then e.Launch? && Best(c, s, e.index) else e.AbortQueued? || e.AbortWaiting?
  }

  ghost predicate OneStep(c: Config, s: Sched, e: Step, t: Sched, dispatching: bool) {
    Sound(c, s) && Enabled(c, s, e) && t == Do(c, s, e) && Allowed(c, s, e, dispatching)
  }

  ghost predicate Path(c: Config, states: seq<Sched>, steps: seq<Step>, dispatching: bool) {
    |states| == |steps| + 1 && forall n | 0 <= n < |steps| ::
          OneStep(c, states[n], steps[n], states[n + 1], dispatching)
  }

  ghost predicate PathFrom(c: Config, states: seq<Sched>, steps: seq<Step>, s: Sched, t: Sched, dispatching: bool) {
    Path(c, states, steps, dispatching) && states[0] == s && states[|steps|] == t
  }

  /** From `s` such steps lead to `t`. */
  ghost predicate Leads(c: Config, s: Sched, t: Sched, dispatching: bool) {
    exists states, steps :: PathFrom(c, states, steps, s, t, dispatching)
  }

  lemma LeadsNowhere(c: Config, s: Sched, dispatching: bool)
    ensures Leads(c, s, s, dispatching)
  {
    assert PathFrom(c, [s], [], s, s, dispatching);
  }

  lemma LeadsFurther(c: Config, s: Sched, t: Sched, e: Step, u: Sched, dispatching: bool)
    requires Leads(c, s, t, dispatching) && OneStep(c, t, e, u, dispatching)
    ensures Leads(c, s, u, dispatching)
  {
    var states, steps :| PathFrom(c, states, steps, s, t, dispatching);
    var states', steps' := states + [u], steps + [e];
    forall n | 0 <= n < |steps'| ensures OneStep(c, states'[n], steps'[n], states'[n + 1], dispatching) {
      if n < |steps| { assert OneStep(c, states[n], steps[n], states[n + 1], dispatching); }
    }
    assert PathFrom(c, states', steps', s, u, dispatching);
  }
}
