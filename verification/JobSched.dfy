/** The transitions of the job scheduler, and the invariant that each of them keeps. */
module JobSched {
  import opened JobModel
  import opened JobTables

  /** The scheduler's tables.  The keys of `owner` are the source's activeKeys and the keys of
      `holder` its activeExclusiveKeys; `runs` and `finishes` count handler starts and finishes. */
  datatype Sched = Sched(
    history: seq<nat>,
    queue: seq<nat>,
    defs: Defs,
    recs: Records,
    active: set<nat>,
    owner: map<string, nat>,
    holder: Holder,
    shared: Shares,
    groups: Groups,
    runs: map<nat, nat>,
    finishes: map<nat, nat>)

  /** The history has no job twice, and is over its limit only with unfinished jobs. */
  ghost predicate HistoryOk(h: seq<nat>, recs: Records, max: nat) {
    NoRepeats(h) && (|h| <= max || forall id | id in h :: Unfinished(recs, id))
  }

  ghost predicate Sound(c: Config, s: Sched) {
    && ValidConfig(c) && s.defs.Keys == s.recs.Keys && NoRepeats(s.queue)
    && (forall id :: Listed(s.history, s.queue, s.recs, s.active, id))
    && (forall k :: OwnerOk(s.owner, s.defs, s.recs, k))
    && (forall id :: OwnedOk(s.owner, s.defs, s.recs, id))
    && (forall id :: CountsOk(s.defs, s.recs, s.runs, s.finishes, id))
    && (forall id :: DefinitionOk(c, s.defs, id))
    && TablesOk(c, s.defs, s.active, s.holder, s.shared, s.groups)
    && HistoryOk(s.history, s.recs, c.maxHistory)
  }

  function Start(): Sched { Sched([], [], map[], map[], {}, map[], map[], map[], map[], map[], map[]) }

  lemma StartSound(c: Config)
    requires ValidConfig(c)
    ensures Sound(c, Start())
  {}

  // -------------------------------------------------------------------- history

  function FirstDead(h: seq<nat>, recs: Records): nat {
    if h == [] then 0 else if !Unfinished(recs, h[0]) then 0 else 1 + FirstDead(h[1..], recs)
  }

  lemma {:induction false} FirstDeadIsDead(h: seq<nat>, recs: Records)
    ensures FirstDead(h, recs) <= |h|
    ensures FirstDead(h, recs) < |h| ==> !Unfinished(recs, h[FirstDead(h, recs)])
    ensures forall i | 0 <= i < FirstDead(h, recs) :: Unfinished(recs, h[i])
  {
    if h != [] && Unfinished(recs, h[0]) { FirstDeadIsDead(h[1..], recs); }
  }

  /** The history cut down to the limit by dropping finished jobs, oldest first. */
  ghost function Trim(h: seq<nat>, recs: Records, max: nat): seq<nat>
    decreases |h|
  {
    if |h| <= max || FirstDead(h, recs) >= |h| then h
    else Trim(h[..FirstDead(h, recs)] + h[FirstDead(h, recs) + 1..], recs, max)
  }

  /** Trimming never drops an unfinished job, and invents none. */
  lemma {:induction false} TrimKeeps(h: seq<nat>, recs: Records, max: nat, id: nat)
    ensures id in Trim(h, recs, max) ==> id in h
    ensures id in h && Unfinished(recs, id) ==> id in Trim(h, recs, max)
    ensures |Trim(h, recs, max)| <= |h|
    ensures |Trim(h, recs, max)| <= max || forall x | x in Trim(h, recs, max) :: Unfinished(recs, x)
    decreases |h|
  {
    FirstDeadIsDead(h, recs);
    var i := FirstDead(h, recs);
    if |h| > max && i < |h| { TrimKeeps(h[..i] + h[i + 1..], recs, max, id); }
  }

  lemma {:induction false} TrimOk(h: seq<nat>, recs: Records, max: nat)
    requires NoRepeats(h)
    ensures HistoryOk(Trim(h, recs, max), recs, max)
    decreases |h|
  {
    FirstDeadIsDead(h, recs);
    var i := FirstDead(h, recs);
    if |h| > max && i < |h| { TrimOk(h[..i] + h[i + 1..], recs, max); }
  }

  // ------------------------------------------------------------------- transitions

  ghost function Added(c: Config, s: Sched, id: nat, d: Definition): Sched {
    var recs := s.recs[id := Record(Queued, 0, false, false)];
    s.(history := Trim(s.history + [id], recs, c.maxHistory), queue := s.queue + [id], defs := s.defs[id := d],
        recs := recs,
       owner := s.owner[d.key := id], runs := s.runs[id := 0], finishes := s.finishes[id := 0])
  }

  function Without(q: seq<nat>, i: nat): seq<nat>
    requires i < |q|
  {
    q[..i] + q[i + 1..]
  }

  ghost function Launched(s: Sched, i: nat): Sched
    requires i < |s.queue| && s.queue[i] in s.defs && s.queue[i] in s.recs && s.queue[i] in s.runs
  {
    var id := s.queue[i];
    var d := s.defs[id];
    s.(queue := Without(s.queue, i), recs := s.recs[id := s.recs[id].(status := Running)], active := s.active + {id},
       holder := Hold(s.holder, d.exclusive, id), shared := AddAll(s.shared, d.shared),
       groups := Adjust(s.groups, d.group, 1), runs := s.runs[id := s.runs[id] + 1])
  }

  /** A running job gives up its keys and its place. */
  ghost function Freed(s: Sched, id: nat): Sched
    requires id in s.defs
  {
    var d := s.defs[id];
    s.(active := s.active - {id}, holder := Release(s.holder, d.exclusive), shared := DropAll(s.shared, d.shared),
       groups := Adjust(s.groups, d.group, -1))
  }

  ghost function StoodBy(s: Sched, id: nat): Sched
    requires id in s.defs && id in s.recs
  {
    Freed(s, id).(recs := s.recs[id := s.recs[id].(status := Standby, retryCount := s.recs[id].retryCount + 1)])
  }

  ghost function Finish(c: Config, s: Sched, id: nat, failed: bool, aborted: bool): Sched
    requires id in s.defs && id in s.recs && id in s.finishes
  {
    var r := s.recs[id].(status := Finished, aborted := s.recs[id].aborted || aborted,
                         failed := s.recs[id].failed || (failed && !s.recs[id].aborted && !aborted));
    var recs := s.recs[id := r];
    s.(recs := recs, owner := s.owner - {s.defs[id].key}, finishes := s.finishes[id := s.finishes[id] + 1],
       history := Trim(s.history, recs, c.maxHistory))
  }

  function Requeued(s: Sched, id: nat): Sched
    requires id in s.recs
  {
    s.(queue := s.queue + [id], recs := s.recs[id := s.recs[id].(status := Queued)])
  }

  function MarkedAborted(s: Sched, id: nat): Sched
    requires id in s.recs
  {
    s.(recs := s.recs[id := s.recs[id].(aborted := true)])
  }

  // ------------------------------------------------------------------ preservation

  lemma TablesSameJobs(c: Config, defs: Defs, defs': Defs, active: set<nat>, holder: Holder, shared: Shares,
                       groups: Groups)
    requires TablesOk(c, defs, active, holder, shared, groups)
    requires forall id | id in active :: id in defs && id in defs' && defs[id] == defs'[id]
    ensures TablesOk(c, defs', active, holder, shared, groups)
  {
    forall k ensures HolderOk(holder, defs', active, k) { assert HolderOk(holder, defs, active, k); }
    forall id, k ensures HeldOk(holder, defs', active, id, k) { assert HeldOk(holder, defs, active, id, k); }
    forall id, k ensures ReaderOk(holder, defs', active, id, k) { assert ReaderOk(holder, defs, active, id, k); }
    forall k ensures SharedOk(shared, defs', active, k) {
      assert SharedOk(shared, defs, active, k);
      forall x: nat, i: nat ensures SlotOf(defs', active, k, x, i) == SlotOf(defs, active, k, x, i) {}
      assert SharedSlots(defs', active, k) == SharedSlots(defs, active, k);
    }
    forall g ensures GroupOk(c, groups, defs', active, g) {
      assert GroupOk(c, groups, defs, active, g);
      assert InGroup(defs', active, g) == InGroup(defs, active, g);
    }
    assert Counted(c, defs', active) == Counted(c, defs, active);
  }

  /** A new job with a key of its own joins the queue. */
  lemma AddedSound(c: Config, s: Sched, id: nat, d: Definition)
    requires Sound(c, s) && id !in s.recs && d.key !in s.owner && d.hasHandler && Limit(c, d.group) > 0
    ensures Sound(c, Added(c, s, id, d))
  {
    var s' := Added(c, s, id, d);
    TrimOk(s.history + [id], s'.recs, c.maxHistory);
    assert Listed(s.history, s.queue, s.recs, s.active, id);
    forall x ensures Listed(s'.history, s'.queue, s'.recs, s'.active, x) {
      assert Listed(s.history, s.queue, s.recs, s.active, x);
      TrimKeeps(s.history + [id], s'.recs, c.maxHistory, x);
    }
    forall k ensures OwnerOk(s'.owner, s'.defs, s'.recs, k) { assert OwnerOk(s.owner, s.defs, s.recs, k); }
    forall x ensures OwnedOk(s'.owner, s'.defs, s'.recs, x) { assert OwnedOk(s.owner, s.defs, s.recs, x); }
    forall x ensures CountsOk(s'.defs, s'.recs, s'.runs, s'.finishes, x) {
      assert CountsOk(s.defs, s.recs, s.runs, s.finishes, x);
    }
    forall x ensures DefinitionOk(c, s'.defs, x) { assert DefinitionOk(c, s.defs, x); }
    forall x | x in s.active ensures x in s.defs && x in s'.defs && s.defs[x] == s'.defs[x] {
      assert Listed(s.history, s.queue, s.recs, s.active, x);
    }
    TablesSameJobs(c, s.defs, s'.defs, s.active, s.holder, s.shared, s.groups);
  }

  lemma WithoutQueue(q: seq<nat>, i: nat, x: nat)
    requires NoRepeats(q) && i < |q|
    ensures NoRepeats(Without(q, i))
    ensures x in Without(q, i) <==> x in q && x != q[i]
  {}

  /** Starting a runnable job. */
  lemma LaunchedSound(c: Config, s: Sched, i: nat)
    requires Sound(c, s) && i < |s.queue|
    requires Runnable(c, s.queue, s.defs, s.active, s.owner.Keys, s.holder.Keys, s.shared, s.queue[i])
    ensures s.queue[i] in s.recs && s.queue[i] in s.runs && Sound(c, Launched(s, i))
  {
    var id := s.queue[i];
    assert Listed(s.history, s.queue, s.recs, s.active, id) && CountsOk(s.defs, s.recs, s.runs, s.finishes, id);
    var s' := Launched(s, i);
    WithoutQueue(s.queue, i, id);
    forall x ensures Listed(s'.history, s'.queue, s'.recs, s'.active, x) {
      assert Listed(s.history, s.queue, s.recs, s.active, x);
      WithoutQueue(s.queue, i, x);
    }
    forall k ensures OwnerOk(s'.owner, s'.defs, s'.recs, k) { assert OwnerOk(s.owner, s.defs, s.recs, k); }
    forall x ensures OwnedOk(s'.owner, s'.defs, s'.recs, x) { assert OwnedOk(s.owner, s.defs, s.recs, x); }
    forall x ensures CountsOk(s'.defs, s'.recs, s'.runs, s'.finishes, x) {
      assert CountsOk(s.defs, s.recs, s.runs, s.finishes, x);
    }
    AcquireKeys(c, s.defs, s.active, s.holder, s.shared, s.groups, id);
    AcquireRoom(c, s.defs, s.active, s.groups, id);
  }

  lemma FreedTables(c: Config, s: Sched, id: nat)
    requires Sound(c, s) && id in s.active
    ensures id in s.defs && id in s.recs && id in s.finishes && s.recs[id].status == Running
    ensures var f := Freed(s, id); TablesOk(c, s.defs, f.active, f.holder, f.shared, f.groups)
  {
    assert Listed(s.history, s.queue, s.recs, s.active, id) && CountsOk(s.defs, s.recs, s.runs, s.finishes, id);
    ReleaseKeys(c, s.defs, s.active, s.holder, s.shared, s.groups, id);
    ReleaseRoom(c, s.defs, s.active, s.groups, id);
  }

  /** A failed run with retries left waits for its next one. */
  lemma StoodBySound(c: Config, s: Sched, id: nat)
    requires Sound(c, s) && id in s.active && id in s.defs && id in s.recs && s.recs[id].retryCount < s.defs[id].retries
    ensures Sound(c, StoodBy(s, id))
  {
    var s' := StoodBy(s, id);
    FreedTables(c, s, id);
    forall x ensures Listed(s'.history, s'.queue, s'.recs, s'.active, x) {
      assert Listed(s.history, s.queue, s.recs, s.active, x);
    }
    forall k ensures OwnerOk(s'.owner, s'.defs, s'.recs, k) { assert OwnerOk(s.owner, s.defs, s.recs, k); }
    forall x ensures OwnedOk(s'.owner, s'.defs, s'.recs, x) { assert OwnedOk(s.owner, s.defs, s.recs, x); }
    forall x ensures CountsOk(s'.defs, s'.recs, s'.runs, s'.finishes, x) {
      assert CountsOk(s.defs, s.recs, s.runs, s.finishes, x);
    }
  }

  /** Finishing an unfinished job that is out of the queue and the running set. */
  ghost predicate Detached(c: Config, s: Sched, id: nat) {
    && ValidConfig(c) && s.defs.Keys == s.recs.Keys && NoRepeats(s.queue)
    && id in s.recs && id in s.finishes && s.recs[id].status != Finished && id !in s.queue && id !in s.active
    && (forall x :: x == id || Listed(s.history, s.queue, s.recs, s.active, x))
    && id in s.history
    && (forall k :: OwnerOk(s.owner, s.defs, s.recs, k))
    && (forall x :: OwnedOk(s.owner, s.defs, s.recs, x))
    && (forall x :: CountsOk(s.defs, s.recs, s.runs, s.finishes, x))
    && (forall x :: DefinitionOk(c, s.defs, x))
    && TablesOk(c, s.defs, s.active, s.holder, s.shared, s.groups)
    && NoRepeats(s.history)
  }

  lemma FinishSound(c: Config, s: Sched, id: nat, failed: bool, aborted: bool)
    requires Detached(c, s, id)
    ensures Sound(c, Finish(c, s, id, failed, aborted))
  {
    var s' := Finish(c, s, id, failed, aborted);
    TrimOk(s.history, s'.recs, c.maxHistory);
    forall x ensures Listed(s'.history, s'.queue, s'.recs, s'.active, x) {
      assert x == id || Listed(s.history, s.queue, s.recs, s.active, x);
      TrimKeeps(s.history, s'.recs, c.maxHistory, x);
    }
    assert OwnedOk(s.owner, s.defs, s.recs, id);
    forall k ensures OwnerOk(s'.owner, s'.defs, s'.recs, k) { assert OwnerOk(s.owner, s.defs, s.recs, k); }
    forall x ensures OwnedOk(s'.owner, s'.defs, s'.recs, x) { assert OwnedOk(s.owner, s.defs, s.recs, x); }
    forall x ensures CountsOk(s'.defs, s'.recs, s'.runs, s'.finishes, x) {
      assert CountsOk(s.defs, s.recs, s.runs, s.finishes, x);
    }
  }

  lemma FreedDetached(c: Config, s: Sched, id: nat)
    requires Sound(c, s) && id in s.active
    ensures id in s.defs && Detached(c, Freed(s, id), id)
  {
    FreedTables(c, s, id);
    var f := Freed(s, id);
    forall x ensures x == id || Listed(f.history, f.queue, f.recs, f.active, x) {
      assert Listed(s.history, s.queue, s.recs, s.active, x);
    }
    assert Listed(s.history, s.queue, s.recs, s.active, id);
  }

  lemma UnqueuedDetached(c: Config, s: Sched, i: nat)
    requires Sound(c, s) && i < |s.queue|
    ensures Detached(c, s.(queue := Without(s.queue, i)), s.queue[i])
  {
    var id := s.queue[i];
    var f := s.(queue := Without(s.queue, i));
    WithoutQueue(s.queue, i, id);
    forall x ensures x == id || Listed(f.history, f.queue, f.recs, f.active, x) {
      assert Listed(s.history, s.queue, s.recs, s.active, x);
      WithoutQueue(s.queue, i, x);
    }
    assert Listed(s.history, s.queue, s.recs, s.active, id) && CountsOk(s.defs, s.recs, s.runs, s.finishes, id);
  }

  lemma StandbyDetached(c: Config, s: Sched, id: nat)
    requires Sound(c, s) && id in s.recs && s.recs[id].status == Standby
    ensures Detached(c, s, id)
  {
    assert Listed(s.history, s.queue, s.recs, s.active, id) && CountsOk(s.defs, s.recs, s.runs, s.finishes, id);
  }

  lemma RequeuedSound(c: Config, s: Sched, id: nat)
    requires Sound(c, s) && id in s.recs && s.recs[id].status == Standby
    ensures Sound(c, Requeued(s, id))
  {
    var s' := Requeued(s, id);
    assert Listed(s.history, s.queue, s.recs, s.active, id);
    forall x ensures Listed(s'.history, s'.queue, s'.recs, s'.active, x) {
      assert Listed(s.history, s.queue, s.recs, s.active, x);
    }
    forall k ensures OwnerOk(s'.owner, s'.defs, s'.recs, k) { assert OwnerOk(s.owner, s.defs, s.recs, k); }
    forall x ensures OwnedOk(s'.owner, s'.defs, s'.recs, x) { assert OwnedOk(s.owner, s.defs, s.recs, x); }
    forall x ensures CountsOk(s'.defs, s'.recs, s'.runs, s'.finishes, x) {
      assert CountsOk(s.defs, s.recs, s.runs, s.finishes, x);
    }
  }

  lemma MarkedAbortedSound(c: Config, s: Sched, id: nat)
    requires Sound(c, s) && id in s.recs
    ensures Sound(c, MarkedAborted(s, id))
  {
    var s' := MarkedAborted(s, id);
    forall x ensures Listed(s'.history, s'.queue, s'.recs, s'.active, x) {
      assert Listed(s.history, s.queue, s.recs, s.active, x);
    }
    forall k ensures OwnerOk(s'.owner, s'.defs, s'.recs, k) { assert OwnerOk(s.owner, s.defs, s.recs, k); }
    forall x ensures OwnedOk(s'.owner, s'.defs, s'.recs, x) { assert OwnedOk(s.owner, s.defs, s.recs, x); }
    forall x ensures CountsOk(s'.defs, s'.recs, s'.runs, s'.finishes, x) {
      assert CountsOk(s.defs, s.recs, s.runs, s.finishes, x);
    }
  }

  // ------------------------------------------------------------- what soundness says

  /** At most one unfinished job per key; it is in the history, its handler has started at most once
      more than its retries, and it has not finished before. */
  lemma JobGuarantees(c: Config, s: Sched, a: nat, b: nat)
    requires Sound(c, s) && a in s.recs && b in s.recs
    ensures s.runs.Keys >= {a} && s.runs[a] <= s.defs[a].retries + 1
    ensures a in s.finishes && s.finishes[a] <= 1 && (s.finishes[a] == 1 <==> s.recs[a].status == Finished)
    ensures Unfinished(s.recs, a) ==> a in s.history && s.defs[a].key in s.owner
    ensures Unfinished(s.recs, a) && Unfinished(s.recs, b) && s.defs[a].key == s.defs[b].key ==> a == b
  {
    assert CountsOk(s.defs, s.recs, s.runs, s.finishes, a);
    assert Listed(s.history, s.queue, s.recs, s.active, a);
    assert OwnedOk(s.owner, s.defs, s.recs, a) && OwnedOk(s.owner, s.defs, s.recs, b);
  }

  /** No queued job may run, as dispatching leaves it. */
  ghost predicate Settled(c: Config, s: Sched) {
    forall id :: !Runnable(c, s.queue, s.defs, s.active, s.owner.Keys, s.holder.Keys, s.shared, id)
  }

  /** Nothing runs, something is queued, and nothing may start. */
  ghost predicate Stalled(c: Config, s: Sched) { s.active == {} && s.queue != [] && Settled(c, s) }

  lemma IdleTables(c: Config, s: Sched)
    requires Sound(c, s) && s.active == {}
    ensures s.holder.Keys == {} && s.shared == map[]
  {
    forall k ensures k !in s.holder && k !in s.shared {
      assert HolderOk(s.holder, s.defs, s.active, k) && SharedOk(s.shared, s.defs, s.active, k);
      assert SharedSlots(s.defs, s.active, k) == {};
    }
  }

  /** An idle scheduler with a queue is stalled exactly when every dependency-ready queued job reads a key that
      another dependency-ready queued job writes. */
  lemma StallsExactlyWhenCrossed(c: Config, s: Sched)
    requires Sound(c, s) && s.active == {} && s.queue != []
    ensures Stalled(c, s) <==> AllReadyBlocked(s.queue, s.defs, s.owner.Keys)
  {
    IdleTables(c, s);
    forall id
      ensures Runnable(c, s.queue, s.defs, s.active, s.owner.Keys, s.holder.Keys, s.shared, id)
              <==> id in s.queue && id in s.defs && Ready(s.owner.Keys, s.defs[id]) && !Blocked(s.queue, s.defs,
                  s.owner.Keys, id)
    {
      assert DefinitionOk(c, s.defs, id);
      IdleRunnable(c, s.queue, s.defs, s.owner.Keys, id);
    }
  }

  /** Dependencies are acyclic and no job waits for a retry. */
  ghost predicate Unobstructed(s: Sched, rank: nat -> nat) {
    && (forall id | Unfinished(s.recs, id) :: s.recs[id].status != Standby)
    && (forall id | id in s.queue :: Descends(s.defs, s.owner, rank, id))
  }

  lemma IdleOwners(c: Config, s: Sched, rank: nat -> nat)
    requires Sound(c, s) && s.active == {} && Unobstructed(s, rank)
    ensures forall k | k in s.owner :: s.owner[k] in s.queue
  {
    forall k | k in s.owner ensures s.owner[k] in s.queue {
      assert OwnerOk(s.owner, s.defs, s.recs, k) && Listed(s.history, s.queue, s.recs, s.active, s.owner[k]);
    }
  }

  /** Then a stall always is a crossing: some ready job reads what another ready job writes. */
  lemma StallIsCrossing(c: Config, s: Sched, rank: nat -> nat) returns (reader: nat, writer: nat)
    requires Sound(c, s) && Unobstructed(s, rank) && Stalled(c, s)
    ensures reader in s.queue && writer in s.queue && reader in s.defs && writer in s.defs
    ensures Ready(s.owner.Keys, s.defs[reader]) && BlockedBy(s.defs, s.owner.Keys, reader, writer)
  {
    IdleOwners(c, s, rank);
    StallsExactlyWhenCrossed(c, s);
    reader := SomeReady(s.defs, s.owner, s.queue, rank, s.queue[0]);
    assert Blocked(s.queue, s.defs, s.owner.Keys, reader);
    writer :| writer in s.queue && writer in s.defs && BlockedBy(s.defs, s.owner.Keys, reader, writer);
  }

  /** Without definitions that both write and read there is no crossing: after dispatching, some job is running
      or the queue is empty. */
  lemma DispatchMakesProgress(c: Config, s: Sched, rank: nat -> nat)
    requires Sound(c, s) && Settled(c, s) && Unobstructed(s, rank)
    requires forall id | id in s.queue && id in s.defs :: s.defs[id].exclusive == [] || s.defs[id].shared == []
    ensures s.active != {} || s.queue == []
  {
    if s.active == {} && s.queue != [] {
      IdleOwners(c, s, rank);
      StallsExactlyWhenCrossed(c, s);
      SomeReadyUnblocked(s.queue, s.defs, s.owner, rank);
    }
  }
}
