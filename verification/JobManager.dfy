/**
 The job manager as internal/job/manager.go updates it under its lock.  Its methods perform
 the transitions of JobSched, and what its loops do is a run of the steps of JobRuns, so the
 theorems about runs are theorems about every use of this class.
 */
module JobManager {
  import opened Basics
  import opened JobModel
  import opened JobTables
  import opened JobSched
  import opened JobOutcomes
  import opened JobShutdown
  import JobRuns

  datatype EnqueueError = ManagerShutdown | InvalidDefinition | AlreadyRunning

  ghost function InGroups(defs: Defs, active: set<nat>, names: set<string>): set<nat> {
    set id | id in active && id in defs && defs[id].group in names
  }

  lemma InGroupsSplit(defs: Defs, active: set<nat>, names: set<string>, g: string)
    requires g !in names
    ensures |InGroups(defs, active, names + {g})| == |InGroups(defs, active, names)| + |InGroup(defs, active, g)|
  {
    assert InGroups(defs, active, names + {g}) == InGroups(defs, active, names) + InGroup(defs, active, g);
    assert InGroups(defs, active, names) !! InGroup(defs, active, g);
  }

  lemma CountedIsRest(c: Config, defs: Defs, active: set<nat>)
    requires active <= defs.Keys
    ensures |Counted(c, defs, active)| == |active| - |InGroups(defs, active, c.independent)|
  {
    assert active == Counted(c, defs, active) + InGroups(defs, active, c.independent);
    assert Counted(c, defs, active) !! InGroups(defs, active, c.independent);
  }

  class Manager {
    const config: Config
    var history: seq<nat>
    var queue: seq<nat>
    var defs: Defs
    var recs: Records
    var active: set<nat>
    var activeKeys: set<string>
    var exclusive: set<string>
    var shared: Shares
    var running: int
    var groupRunning: Groups
    var shutdown: bool
    var next: nat
    ghost var owner: map<string, nat>
    ghost var holder: Holder
    ghost var runs: map<nat, nat>
    ghost var finishes: map<nat, nat>

    ghost function Now(): Stage
      reads this
    {
      Stage(S(), shutdown)
    }

    ghost function S(): Sched
      reads this
    {
      Sched(history, queue, defs, recs, active, owner, holder, shared, groupRunning, runs, finishes)
    }

    /** The plain fields agree with what is proved about them. */
    ghost predicate Mirrors()
      reads this
    {
      activeKeys == owner.Keys && exclusive == holder.Keys && running == |active| && forall id | id in recs :: id < next
    }

    ghost predicate Valid()
      reads this
    {
      Sound(config, S()) && Mirrors()
    }

    constructor (config: Config)
      requires ValidConfig(config)
      ensures Valid() && S() == Start() && this.config == config && !shutdown
    {
      this.config := config;
      history, queue, defs, recs, active, activeKeys, exclusive := [], [], map[], map[], {}, {}, {};
      shared, running, groupRunning, shutdown, next := map[], 0, map[], false, 0;
      owner, holder, runs, finishes := map[], map[], map[], map[];
      StartSound(config);
    }

    // ------------------------------------------------------------- choosing a job

    method BlockedByWriter(id: nat) returns (blocked: bool)
      requires id in defs && forall w | w in queue :: w in defs
      ensures blocked == Blocked(queue, defs, activeKeys, id)
    {
      for i := 0 to |queue|
        invariant forall j | 0 <= j < i :: !BlockedBy(defs, activeKeys, id, queue[j])
      {
        var w := queue[i];
        assert w in queue;
        if w == id || defs[w].exclusive == [] { continue; }
        var ready := DependenciesMet(defs[w].dependsOn);
        if !ready { continue; }
        var meets := KeysMeet(defs[w].exclusive, defs[id].shared);
        if meets { return true; }
      }
      return false;
    }

    method DependenciesMet(dependsOn: seq<string>) returns (ready: bool)
      ensures ready == forall i | 0 <= i < |dependsOn| :: dependsOn[i] !in activeKeys
    {
      for i := 0 to |dependsOn|
        invariant forall j | 0 <= j < i :: dependsOn[j] !in activeKeys
      {
        if dependsOn[i] in activeKeys { return false; }
      }
      return true;
    }

    static method KeysMeet(a: seq<string>, b: seq<string>) returns (meets: bool)
      ensures meets == Meets(a, b)
    {
      for i := 0 to |a|
        invariant forall j | 0 <= j < i :: a[j] !in b
      {
        for k := 0 to |b|
          invariant forall j | 0 <= j < k :: b[j] != a[i]
        {
          if a[i] == b[k] { return true; }
        }
      }
      return false;
    }

    method DependenciesSatisfied(d: Definition) returns (ok: bool)
      requires forall k | k in shared :: shared[k] > 0
      ensures ok == (Ready(activeKeys, d) && KeysFree(exclusive, shared, d))
    {
      ok := DependenciesMet(d.dependsOn);
      if !ok { return; }
      for i := 0 to |d.exclusive|
        invariant forall j | 0 <= j < i :: d.exclusive[j] !in exclusive && d.exclusive[j] !in shared
      {
        if d.exclusive[i] in exclusive || Num(shared, d.exclusive[i]) > 0 { return false; }
      }
      for i := 0 to |d.shared|
        invariant forall j | 0 <= j < i :: d.shared[j] !in exclusive
      {
        if d.shared[i] in exclusive { return false; }
      }
    }

    /** The running jobs outside the independent groups. */
    method SharedRunning() returns (n: int)
      requires Valid()
      ensures n == |Counted(config, defs, active)|
    {
      n := running;
      var todo := config.independent;
      ghost var done: set<string> := {};
      while todo != {}
        invariant done !! todo && done + todo == config.independent
        invariant n == |active| - |InGroups(defs, active, done)|
        decreases todo
      {
        var name :| name in todo;
        assert GroupOk(config, groupRunning, defs, active, name);
        InGroupsSplit(defs, active, done, name);
        n := n - Count(groupRunning, name);
        done := done + {name};
        todo := todo - {name};
      }
      assert done == config.independent;
      forall id | id in active ensures id in defs { assert Listed(history, queue, recs, active, id); }
      CountedIsRest(config, defs, active);
    }

    ghost predicate MayRun(id: nat)
      reads this
    {
      Runnable(config, queue, defs, active, activeKeys, exclusive, shared, id)
    }

    method CheckRunnable(id: nat) returns (ok: bool)
      requires Valid() && id in queue
      ensures ok == MayRun(id)
    {
      forall w | w in queue ensures w in defs { assert Listed(history, queue, recs, active, w); }
      forall k | k in shared ensures shared[k] > 0 { assert SharedOk(shared, defs, active, k); }
      var d := defs[id];
      assert GroupOk(config, groupRunning, defs, active, d.group);
      var sharedRunning := SharedRunning();
      if d.group !in config.independent && sharedRunning >= config.maxConcurrent { return false; }
      var limit := Limit(config, d.group);
      if limit <= 0 || Count(groupRunning, d.group) >= limit { return false; }
      var blocked := BlockedByWriter(id);
      if blocked { return false; }
      ok := DependenciesSatisfied(d);
    }

    /** The index of the runnable job of highest priority, the first among equals; -1 if none. */
    method SelectRunnable() returns (selected: int)
      requires Valid()
      ensures -1 <= selected < |queue|
      ensures selected == -1 ==> forall id :: !MayRun(id)
      ensures selected >= 0 ==>
                && MayRun(queue[selected])
                && (forall i | 0 <= i < |queue| && MayRun(queue[i]) && queue[i] in defs && queue[selected] in defs ::
                      defs[queue[i]].priority <= defs[queue[selected]].priority
                      && (i < selected ==> defs[queue[i]].priority < defs[queue[selected]].priority))
    {
      selected := -1;
      for i := 0 to |queue|
        invariant -1 <= selected < i
        invariant selected == -1 ==> forall j | 0 <= j < i :: !MayRun(queue[j])
        invariant selected >= 0 ==> MayRun(queue[selected])
        invariant selected >= 0 ==>
                    forall j | 0 <= j < i && MayRun(queue[j]) && queue[j] in defs && queue[selected] in defs ::
                      defs[queue[j]].priority <= defs[queue[selected]].priority
                      && (j < selected ==> defs[queue[j]].priority < defs[queue[selected]].priority)
      {
        var ok := CheckRunnable(queue[i]);
        if ok && (selected < 0 || defs[queue[i]].priority > defs[queue[selected]].priority) { selected := i; }
      }
    }

    // -------------------------------------------------------- starting and ending

    /** Takes the selected job off the queue and starts its handler. */
    method Launch(i: nat)
      requires Valid() && i < |queue| && MayRun(queue[i]) && queue[i] in recs && queue[i] in runs
      modifies this
      ensures Valid() && S() == Launched(old(S()), i) && shutdown == old(shutdown) && next == old(next)
    {
      LaunchedSound(config, S(), i);
      assert Listed(history, queue, recs, active, queue[i]);
      StartJob(i);
    }

    method StartJob(i: nat)
      requires i < |queue| && queue[i] in defs && queue[i] in recs && queue[i] in runs && queue[i] !in active
               && Mirrors()
      modifies this
      ensures S() == Launched(old(S()), i) && Mirrors() && shutdown == old(shutdown) && next == old(next)
    {
      var id := queue[i];
      var d := defs[id];
      PopQueue(i);
      EnterRunning(id, d.group);
      TakeResources(id, d);
    }

    method TakeResources(id: nat, d: Definition)
      requires Mirrors()
      modifies this`exclusive, this`holder, this`shared
      ensures S() == old(S()).(holder := Hold(old(holder), d.exclusive, id), shared := AddAll(old(shared), d.shared))
      ensures Mirrors()
    {
      TakeKeys(id, d.exclusive);
      TakeShares(d.shared);
    }

    method PopQueue(i: nat)
      requires Mirrors() && i < |queue| && queue[i] in recs
      modifies this`queue, this`recs
      ensures S() == old(S()).(queue := Without(old(queue), i),
                               recs := old(recs)[old(queue)[i] := old(recs)[old(queue)[i]].(status := Running)])
      ensures Mirrors()
    {
      var id := queue[i];
      queue := Without(queue, i);
      SetRecord(id, recs[id].(status := Running));
    }

    method EnterRunning(id: nat, group: string)
      requires Mirrors() && id !in active && id in runs
      modifies this`active, this`running, this`groupRunning, this`runs
      ensures S() == old(S()).(active := old(active) + {id}, groups := Adjust(old(groupRunning), group, 1),
                               runs := old(runs)[id := old(runs)[id] + 1])
      ensures Mirrors()
    {
      active := active + {id};
      running := running + 1;
      groupRunning := Adjust(groupRunning, group, 1);
      runs := runs[id := runs[id] + 1];
    }

    method TakeKeys(id: nat, keys: seq<string>)
      requires exclusive == holder.Keys
      modifies this`exclusive, this`holder
      ensures holder == Hold(old(holder), keys, id) && exclusive == holder.Keys
    {
      for j := 0 to |keys|
        invariant holder == old(holder) && exclusive == old(exclusive) + (set k | k in keys[..j])
      {
        exclusive := exclusive + {keys[j]};
      }
      assert keys[..|keys|] == keys;
      holder := Hold(holder, keys, id);
    }

    method ReturnKeys(keys: seq<string>)
      requires exclusive == holder.Keys
      modifies this`exclusive, this`holder
      ensures holder == Release(old(holder), keys) && exclusive == holder.Keys
    {
      for j := 0 to |keys|
        invariant holder == old(holder) && exclusive == old(exclusive) - (set k | k in keys[..j])
      {
        exclusive := exclusive - {keys[j]};
      }
      assert keys[..|keys|] == keys;
      holder := Release(holder, keys);
    }

    method TakeShares(keys: seq<string>)
      modifies this`shared
      ensures shared == AddAll(old(shared), keys)
    {
      for j := 0 to |keys|
        invariant shared == AddAll(old(shared), keys[..j])
      {
        assert keys[..j + 1][..j] == keys[..j];
        shared := Bump(shared, keys[j]);
      }
      assert keys[..|keys|] == keys;
    }

    method ReturnShares(keys: seq<string>)
      modifies this`shared
      ensures shared == DropAll(old(shared), keys)
    {
      for j := 0 to |keys|
        invariant shared == DropAll(old(shared), keys[..j])
      {
        assert keys[..j + 1][..j] == keys[..j];
        shared := Drop(shared, keys[j]);
      }
      assert keys[..|keys|] == keys;
    }

    /** A running job gives up its keys and its place; its record changes next. */
    method CompleteActive(id: nat)
      requires Mirrors() && id in active && id in defs
      modifies this
      ensures S() == Freed(old(S()), id) && Mirrors() && shutdown == old(shutdown) && next == old(next)
    {
      var d := defs[id];
      LeaveRunning(id, d.group);
      ReturnKeys(d.exclusive);
      ReturnShares(d.shared);
    }

    method LeaveRunning(id: nat, group: string)
      requires Mirrors() && id in active
      modifies this`active, this`running, this`groupRunning
      ensures S() == old(S()).(active := old(active) - {id}, groups := Adjust(old(groupRunning), group, -1))
              && Mirrors()
    {
      active := active - {id};
      running := running - 1;
      groupRunning := Adjust(groupRunning, group, -1);
    }

    method TrimHistory()
      modifies this`history
      ensures history == Trim(old(history), recs, config.maxHistory)
    {
      while |history| > config.maxHistory
        invariant Trim(history, recs, config.maxHistory) == Trim(old(history), recs, config.maxHistory)
      {
        var i := 0;
        while i < |history| && Unfinished(recs, history[i])
          invariant i <= |history| && i + FirstDead(history[i..], recs) == FirstDead(history, recs)
        {
          assert history[i..][1..] == history[i + 1..];
          i := i + 1;
        }
        if i == |history| { return; }
        history := Without(history, i);
      }
    }

    /** Finishes a job that has left the queue and the running set. */
    method FinishLocked(id: nat, failed: bool, aborted: bool)
      requires Detached(config, S(), id) && Mirrors()
      modifies this
      ensures Valid() && S() == Finish(config, old(S()), id, failed, aborted) && shutdown == old(shutdown)
              && next == old(next)
    {
      FinishSound(config, S(), id, failed, aborted);
      EndJob(id, failed, aborted);
    }

    method EndJob(id: nat, failed: bool, aborted: bool)
      requires id in defs && id in recs && id in finishes && Mirrors()
      modifies this
      ensures S() == Finish(config, old(S()), id, failed, aborted) && Mirrors() && shutdown == old(shutdown)
              && next == old(next)
    {
      var r := recs[id];
      SetRecord(id, r.(status := Finished, aborted := r.aborted || aborted,
                       failed := r.failed || (failed && !r.aborted && !aborted)));
      FreeKey(id, defs[id].key);
      TrimHistory();
    }

    method SetRecord(id: nat, r: Record)
      requires Mirrors() && id in recs
      modifies this`recs
      ensures Mirrors() && S() == old(S()).(recs := old(recs)[id := r])
    {
      recs := recs[id := r];
    }

    method FreeKey(id: nat, key: string)
      requires Mirrors() && id in finishes
      modifies this`activeKeys, this`owner, this`finishes
      ensures Mirrors() && S() == old(S()).(owner := old(owner) - {key},
              finishes := old(finishes)[id := old(finishes)[id] + 1])
    {
      activeKeys := activeKeys - {key};
      owner := owner - {key};
      finishes := finishes[id := finishes[id] + 1];
    }

    /** Starts the best runnable job until none is left; nothing else happens. */
    method Dispatch()
      requires Valid()
      modifies this
      ensures Valid() && shutdown == old(shutdown) && next == old(next)
      ensures JobRuns.Leads(config, old(S()), S(), true)
      ensures !shutdown ==> Settled(config, S())
      ensures owner == old(owner)
    {
      JobRuns.LeadsNowhere(config, S(), true);
      while |queue| > 0 && !shutdown
        invariant Valid() && shutdown == old(shutdown) && next == old(next)
        invariant JobRuns.Leads(config, old(S()), S(), true)
        invariant owner == old(owner)
        decreases |queue|
      {
        var selected := SelectRunnable();
        if selected < 0 {
          forall id ensures !Runnable(config, queue, defs, active, owner.Keys, holder.Keys, shared, id) {
            assert !MayRun(id);
          }
          return;
        }
        LaunchBest(selected, old(S()));
      }
    }

    method LaunchBest(i: nat, ghost from: Sched)
      requires Valid() && i < |queue| && MayRun(queue[i]) && JobRuns.Best(config, S(), i)
               && JobRuns.Leads(config, from, S(), true)
      modifies this
      ensures Valid() && shutdown == old(shutdown) && next == old(next) && |queue| < |old(queue)|
      ensures JobRuns.Leads(config, from, S(), true)
      ensures owner == old(owner)
    {
      ghost var s := S();
      LaunchOne(i);
      assert JobRuns.OneStep(config, s, JobRuns.Step.Launch(i), S(), true);
      JobRuns.LeadsFurther(config, from, s, JobRuns.Step.Launch(i), S(), true);
    }

    method LaunchOne(i: nat)
      requires Valid() && i < |queue| && MayRun(queue[i])
      modifies this
      ensures Valid() && shutdown == old(shutdown) && next == old(next) && |queue| < |old(queue)|
      ensures JobRuns.Enabled(config, old(S()), JobRuns.Step.Launch(i))
              && S() == JobRuns.Do(config, old(S()), JobRuns.Step.Launch(i))
      ensures owner == old(owner)
    {
      assert Listed(history, queue, recs, active, queue[i]);
      assert CountsOk(defs, recs, runs, finishes, queue[i]);
      Launch(i);
    }

    // ---------------------------------------------------------------- operations

    method Enqueue(d: Definition) returns (r: Result<nat, EnqueueError>)
      requires Valid()
      modifies this
      ensures Valid() && shutdown == old(shutdown)
      ensures r.Err? <==> old(shutdown) || !Acceptable(config, d) || d.key in old(activeKeys)
      ensures r.Err? ==> S() == old(S())
                         && r.error == (if old(shutdown) then ManagerShutdown
                                        else if !Acceptable(config, d) then InvalidDefinition else AlreadyRunning)
      ensures r.Ok? ==> Operates(config, old(Now()), Enqueued(r.value, d), Now())
                        && Settled(config, S()) && d.key in owner && owner[d.key] == r.value
    {
      if shutdown { return Err(ManagerShutdown); }
      if !Acceptable(config, d) { return Err(InvalidDefinition); }
      if d.key in activeKeys { return Err(AlreadyRunning); }
      var id := next;
      AddedSound(config, S(), id, d);
      Insert(id, d);
      Dispatch();
      return Ok(id);
    }

    method Insert(id: nat, d: Definition)
      requires Mirrors() && id == next
      modifies this
      ensures S() == Added(config, old(S()), id, d) && Mirrors() && shutdown == old(shutdown)
    {
      NewRecord(id, d);
      history := history + [id];
      TrimHistory();
      queue := queue + [id];
      ClaimKey(id, d.key);
    }

    method NewRecord(id: nat, d: Definition)
      requires Mirrors() && id == next
      modifies this`recs, this`defs, this`next, this`runs, this`finishes
      ensures Mirrors() && S() == old(S()).(recs := old(recs)[id := Record(Queued, 0, false, false)],
              defs := old(defs)[id := d],
                                            runs := old(runs)[id := 0], finishes := old(finishes)[id := 0])
    {
      next := next + 1;
      recs := recs[id := Record(Queued, 0, false, false)];
      defs := defs[id := d];
      runs, finishes := runs[id := 0], finishes[id := 0];
    }

    method ClaimKey(id: nat, key: string)
      requires Mirrors()
      modifies this`activeKeys, this`owner
      ensures Mirrors() && S() == old(S()).(owner := old(owner)[key := id])
    {
      activeKeys := activeKeys + {key};
      owner := owner[key := id];
    }

    /** A handler returns: its job waits for a retry or finishes, and the queue moves on. */
    method HandlerReturns(id: nat, outcome: Outcome)
      requires Valid() && id in active && id in defs && id in recs && id in finishes
      modifies this
      ensures Valid() && shutdown == old(shutdown)
      ensures !shutdown ==> Settled(config, S())
      ensures Operates(config, old(Now()), Returned(id, outcome), Now())
    {
      if Retries(recs[id], defs[id], outcome, shutdown) {
        StandBy(id);
      } else {
        EndRun(id, outcome);
      }
      Dispatch();
    }

    method EndRun(id: nat, outcome: Outcome)
      requires Valid() && id in active && id in defs && id in recs && id in finishes
      modifies this
      ensures Valid() && shutdown == old(shutdown) && next == old(next)
      ensures S() == Finish(config, Freed(old(S()), id), id, outcome.Failed?, old(recs)[id].aborted)
    {
      FreedDetached(config, S(), id);
      CompleteActive(id);
      FinishLocked(id, outcome.Failed?, recs[id].aborted);
    }

    method StandBy(id: nat)
      requires Valid() && id in active && id in defs && id in recs && recs[id].retryCount < defs[id].retries
      modifies this
      ensures Valid() && S() == StoodBy(old(S()), id) && shutdown == old(shutdown) && next == old(next)
    {
      StoodBySound(config, S(), id);
      CompleteActive(id);
      SetRecord(id, recs[id].(status := Standby, retryCount := recs[id].retryCount + 1));
    }

    /** A retry's timer runs out. */
    method RetryFires(id: nat)
      requires Valid() && id in recs
      modifies this
      ensures Valid() && shutdown == old(shutdown)
      ensures Operates(config, old(Now()), TimedOut(id), Now())
      ensures if old(recs[id].status == Standby && !recs[id].aborted && !shutdown) then Settled(config, S())
              else S() == old(S())
    {
      if recs[id].status != Standby || recs[id].aborted || shutdown {
        JobRuns.LeadsNowhere(config, S(), true);
        return;
      }
      RequeuedSound(config, S(), id);
      queue := queue + [id];
      SetRecord(id, recs[id].(status := Queued));
      Dispatch();
    }

    /** Aborts an unfinished job: a running one is marked, any other finishes at once. */
    method Abort(id: nat) returns (ok: bool)
      requires Valid()
      modifies this
      ensures Valid() && shutdown == old(shutdown) && (ok <==> Unfinished(old(recs), id))
      ensures Operates(config, old(Now()), Aborted(id), Now())
    {
      assert CountsOk(defs, recs, runs, finishes, id);
      assert Listed(history, queue, recs, active, id);
      if id in active {
        MarkedAbortedSound(config, S(), id);
        SetRecord(id, recs[id].(aborted := true));
        return true;
      }
      var i := IndexOf(queue, id);
      if i < |queue| {
        UnqueuedDetached(config, S(), i);
        RemovedAt(queue, i);
        queue := Without(queue, i);
        FinishLocked(id, false, true);
        return true;
      }
      RemovedAbsent(queue, id);
      i := IndexOf(history, id);
      if i == |history| || recs[id].status != Standby { return false; }
      StandbyDetached(config, S(), id);
      FinishLocked(id, false, true);
      return true;
    }

    static method IndexOf(ids: seq<nat>, id: nat) returns (i: nat)
      ensures i <= |ids| && (i < |ids| ==> ids[i] == id) && (i == |ids| <==> id !in ids)
    {
      i := 0;
      while i < |ids| && ids[i] != id
        invariant i <= |ids| && id !in ids[..i]
      {
        i := i + 1;
      }
    }

    // ------------------------------------------------------------------ shutdown

    /** Shutdown finishes every queued job, and all that is left unfinished is running, unless, the queued jobs
        aborted, the history is over its limit with waiting neighbours that the walk steps over. */
    method Shutdown()
      requires Valid()
      modifies this
      ensures Valid() && shutdown && queue == [] && active == old(active)
      ensures Operates(config, old(Now()), ShutDown, Now())
      ensures var d := JobRuns.Drained(config, old(S()));
              (exists id :: Unfinished(recs, id) && id !in active)
              <==> |d.history| > config.maxHistory && Hazard(d.history, d.recs, |d.history| - config.maxHistory)
      ensures |old(history)| <= config.maxHistory ==> forall id :: Unfinished(recs, id) ==> id in active
    {
      JobRuns.LeadsNowhere(config, S(), false);
      shutdown := true;
      AbortQueued(old(S()));
      AbortStandby(old(S()));
      LeftoversWait(config, S());
    }

    method AbortQueued(ghost from: Sched)
      requires Valid() && JobRuns.Leads(config, from, S(), false)
      modifies this
      ensures Valid() && shutdown == old(shutdown) && queue == [] && active == old(active)
              && |history| <= |old(history)|
      ensures JobRuns.Leads(config, from, S(), false) && S() == JobRuns.Drained(config, old(S()))
    {
      while queue != []
        invariant Valid() && shutdown == old(shutdown) && active == old(active) && |history| <= |old(history)|
        invariant JobRuns.Leads(config, from, S(), false)
                  && JobRuns.Drained(config, S()) == JobRuns.Drained(config, old(S()))
        decreases |queue|
      {
        AbortFirst(from);
      }
    }

    method AbortFirst(ghost from: Sched)
      requires Valid() && queue != [] && JobRuns.Leads(config, from, S(), false)
      modifies this
      ensures Valid() && shutdown == old(shutdown) && |queue| < |old(queue)| && active == old(active)
              && |history| <= |old(history)|
      ensures JobRuns.Leads(config, from, S(), false)
              && JobRuns.Drained(config, S()) == JobRuns.Drained(config, old(S()))
    {
      ghost var s := S();
      var id := queue[0];
      UnqueuedDetached(config, S(), 0);
      queue := Without(queue, 0);
      FinishLocked(id, false, true);
      TrimKeeps(s.history, recs, config.maxHistory, 0);
      JobRuns.LeadsFurther(config, from, s, JobRuns.Step.AbortQueued(0), S(), false);
    }

    /** Walks the history as it was, whose elements move when a finished job is trimmed away. */
    method AbortStandby(ghost from: Sched)
      requires Valid() && JobRuns.Leads(config, from, S(), false)
      modifies this
      ensures Valid() && shutdown == old(shutdown) && queue == old(queue) && active == old(active)
      ensures JobRuns.Leads(config, from, S(), false)
      ensures recs == Swept(old(history), 0, old(history), old(recs), config.maxHistory)
      ensures (exists id :: Waits(recs, id)) <==>
              |old(history)| > config.maxHistory && Hazard(old(history), old(recs), |old(history)| - config.maxHistory)
    {
      forall id ensures Waits(recs, id) ==> id in history { assert Listed(history, queue, recs, active, id); }
      ShutdownMisses(history, recs, config.maxHistory);
      Sweep(from);
    }

    method Sweep(ghost from: Sched)
      requires Valid() && JobRuns.Leads(config, from, S(), false)
      modifies this
      ensures Valid() && shutdown == old(shutdown) && queue == old(queue) && active == old(active)
      ensures JobRuns.Leads(config, from, S(), false)
      ensures recs == Swept(old(history), 0, old(history), old(recs), config.maxHistory)
    {
      var walked, i := history, 0;
      while i < |walked|
        invariant Valid() && shutdown == old(shutdown) && queue == old(queue) && active == old(active)
        invariant |history| <= |walked| && JobRuns.Leads(config, from, S(), false)
        invariant Swept(walked, i, history, recs, config.maxHistory)
               == Swept(old(history), 0, old(history), old(recs), config.maxHistory)
        decreases |walked| - i
      {
        var id := walked[i];
        if id in recs && recs[id].status == Standby {
          walked := AbortWaiting(walked, id, from);
        }
        i := i + 1;
      }
    }

    method AbortWaiting(walked: seq<nat>, id: nat, ghost from: Sched) returns (moved: seq<nat>)
      requires Valid() && |history| <= |walked| && id in recs && recs[id].status == Standby
               && JobRuns.Leads(config, from, S(), false)
      modifies this
      ensures Valid() && shutdown == old(shutdown) && queue == old(queue) && active == old(active)
      ensures JobRuns.Leads(config, from, S(), false)
      ensures recs == old(recs)[id := AbortedRecord(old(recs)[id])]
              && history == Trim(old(history), recs, config.maxHistory)
      ensures moved == Shifted(walked, old(history), recs, config.maxHistory) && |history| <= |moved|
    {
      ghost var s := S();
      var h := history;
      StandbyDetached(config, S(), id);
      FinishLocked(id, false, true);
      TrimKeeps(h, recs, config.maxHistory, 0);
      moved := Shifted(walked, h, recs, config.maxHistory);
      JobRuns.LeadsFurther(config, from, s, JobRuns.Step.AbortWaiting(id), S(), false);
    }
  }

  predicate Acceptable(c: Config, d: Definition) {
    d.key != "" && d.hasHandler && (d.group != "" ==> Limit(c, d.group) > 0)
  }

  /** A definition with a key and a handler is acceptable exactly if an idle manager has room for it. */
  lemma AcceptableExactly(c: Config, d: Definition)
    requires ValidConfig(c)
    ensures Acceptable(c, d) <==> d.key != "" && d.hasHandler && HasRoom(c, map[], {}, d)
  {
    assert Counted(c, map[], {}) == {} && InGroup(map[], {}, d.group) == {};
  }
}
