/**
 The job scheduler of internal/job/manager.go: what its tables must say about the jobs,
 when a queued job may run, and why the scheduler never stalls.
 */
module JobModel {

  datatype Definition = Definition(
    key: string,
    dependsOn: seq<string>,
    exclusive: seq<string>,
    shared: seq<string>,
    group: string,
    priority: int,
    retries: nat,
    hasHandler: bool)

  datatype Status = Queued | Standby | Running | Finished

  /** What changes about a job; its definition does not. */
  datatype Record = Record(status: Status, retryCount: nat, aborted: bool, failed: bool)

  type Defs = map<nat, Definition>
  type Records = map<nat, Record>

  /** `independent` groups do not count against the shared limit; group "" has that limit too. */
  datatype Config = Config(maxConcurrent: nat, groupLimits: map<string, int>, independent: set<string>, maxHistory: nat)

  predicate ValidConfig(c: Config) { c.maxConcurrent >= 1 && c.maxHistory >= 1 }

  function Limit(c: Config, group: string): int {
    if group == "" then c.maxConcurrent else if group in c.groupLimits then c.groupLimits[group] else 0
  }

  predicate Unfinished(recs: Records, id: nat) { id in recs && recs[id].status != Finished }

  // ------------------------------------------------------------------ the tables

  /** The queue holds exactly the queued jobs, the active set exactly the running ones, and
      every unfinished job is in the history. */
  ghost predicate Listed(history: seq<nat>, queue: seq<nat>, recs: Records, active: set<nat>, id: nat) {
    && (id in queue <==> id in recs && recs[id].status == Queued)
    && (id in active <==> id in recs && recs[id].status == Running)
    && (Unfinished(recs, id) ==> id in history)
    && (id in history ==> id in recs)
  }

  ghost predicate NoRepeats(s: seq<nat>) { forall i, j | 0 <= i < j < |s| :: s[i] != s[j] }

  /** `owner` gives each active key its one unfinished job. */
  ghost predicate OwnerOk(owner: map<string, nat>, defs: Defs, recs: Records, k: string) {
    k in owner ==> Unfinished(recs, owner[k]) && owner[k] in defs && defs[owner[k]].key == k
  }

  ghost predicate OwnedOk(owner: map<string, nat>, defs: Defs, recs: Records, id: nat) {
    Unfinished(recs, id) ==> id in defs && defs[id].key in owner && owner[defs[id].key] == id
  }

  /** `holder` gives each exclusively held key its one running job. */
  ghost predicate HolderOk(holder: map<string, nat>, defs: Defs, active: set<nat>, k: string) {
    k in holder ==> holder[k] in active && holder[k] in defs && k in defs[holder[k]].exclusive
  }

  ghost predicate HeldOk(holder: map<string, nat>, defs: Defs, active: set<nat>, id: nat, k: string) {
    id in active && id in defs && k in defs[id].exclusive ==> k in holder && holder[k] == id
  }

  /** A shared holder meets an exclusive holder of its key only in itself. */
  ghost predicate ReaderOk(holder: map<string, nat>, defs: Defs, active: set<nat>, id: nat, k: string) {
    id in active && id in defs && k in defs[id].shared && k in holder ==> holder[k] == id
  }

  ghost predicate SlotOf(defs: Defs, active: set<nat>, k: string, id: nat, i: nat) {
    id in active && id in defs && i < |defs[id].shared| && defs[id].shared[i] == k
  }

  /** One slot per running job and position in its shared keys. */
  ghost function SharedSlots(defs: Defs, active: set<nat>, k: string): set<(nat, nat)> {
    set id, i: nat | id in active && id in defs && i < |defs[id].shared| && SlotOf(defs, active, k, id, i) :: (id, i)
  }

  ghost predicate SharedOk(shared: map<string, nat>, defs: Defs, active: set<nat>, k: string) {
    |SharedSlots(defs, active, k)| == (if k in shared then shared[k] else 0) && (k in shared ==> shared[k] > 0)
  }

  ghost function InGroup(defs: Defs, active: set<nat>, group: string): set<nat> {
    set id | id in active && id in defs && defs[id].group == group
  }

  /** Running jobs that count against the shared limit. */
  ghost function Counted(c: Config, defs: Defs, active: set<nat>): set<nat> {
    set id | id in active && id in defs && defs[id].group !in c.independent
  }

  function Count(m: map<string, int>, k: string): int { if k in m then m[k] else 0 }

  ghost predicate GroupOk(c: Config, groupRunning: map<string, int>, defs: Defs, active: set<nat>, g: string) {
    Count(groupRunning, g) == |InGroup(defs, active, g)|
    && (InGroup(defs, active, g) != {} ==> |InGroup(defs, active, g)| <= Limit(c, g))
  }

  /** How often a job's handler has been started, and how often it has finished. */
  ghost predicate CountsOk(defs: Defs, recs: Records, runs: map<nat, nat>, finishes: map<nat, nat>, id: nat) {
    id in recs ==>
      && id in defs && id in runs && id in finishes
      && recs[id].retryCount <= defs[id].retries
      && finishes[id] == (if recs[id].status == Finished then 1 else 0)
      && match recs[id].status
         case Queued => runs[id] == recs[id].retryCount
         case Standby => runs[id] == recs[id].retryCount
         case Running => runs[id] == recs[id].retryCount + 1
         case Finished => runs[id] <= recs[id].retryCount + 1
  }

  /** A valid job names a handler and, if it names a group, one with a positive limit. */
  ghost predicate DefinitionOk(c: Config, defs: Defs, id: nat) {
    id in defs ==> defs[id].hasHandler && Limit(c, defs[id].group) > 0
  }

  // ------------------------------------------------------------- when a job may run

  predicate Ready(activeKeys: set<string>, d: Definition) {
    forall i | 0 <= i < |d.dependsOn| :: d.dependsOn[i] !in activeKeys
  }

  predicate Meets(a: seq<string>, b: seq<string>) { exists i | 0 <= i < |a| :: a[i] in b }

  /** A queued writer whose dependencies are met keeps new readers of its keys waiting. */
  predicate BlockedBy(defs: Defs, activeKeys: set<string>, id: nat, w: nat)
    requires id in defs && w in defs
  {
    w != id && Ready(activeKeys, defs[w]) && Meets(defs[w].exclusive, defs[id].shared)
  }

  ghost predicate Blocked(queue: seq<nat>, defs: Defs, activeKeys: set<string>, id: nat)
    requires id in defs
  {
    exists w | w in queue && w in defs :: BlockedBy(defs, activeKeys, id, w)
  }

  predicate KeysFree(exclusive: set<string>, shared: map<string, nat>, d: Definition) {
    && (forall i | 0 <= i < |d.exclusive| :: d.exclusive[i] !in exclusive && d.exclusive[i] !in shared)
    && (forall i | 0 <= i < |d.shared| :: d.shared[i] !in exclusive)
  }

  ghost predicate HasRoom(c: Config, defs: Defs, active: set<nat>, d: Definition) {
    && (d.group in c.independent || |Counted(c, defs, active)| < c.maxConcurrent)
    && |InGroup(defs, active, d.group)| < Limit(c, d.group)
  }

  ghost predicate Runnable(c: Config, queue: seq<nat>, defs: Defs, active: set<nat>, activeKeys: set<string>,
                           exclusive: set<string>, shared: map<string, nat>, id: nat)
  {
    && id in queue && id in defs
    && HasRoom(c, defs, active, defs[id])
    && !Blocked(queue, defs, activeKeys, id)
    && Ready(activeKeys, defs[id])
    && KeysFree(exclusive, shared, defs[id])
  }

  // -------------------------------------------------------------------- progress

  /** Dependencies among unfinished jobs descend in some ranking. */
  ghost predicate Descends(defs: Defs, owner: map<string, nat>, rank: nat -> nat, id: nat) {
    id in defs &&
    forall i | 0 <= i < |defs[id].dependsOn| && defs[id].dependsOn[i] in owner ::
      rank(owner[defs[id].dependsOn[i]]) < rank(id)
  }

  /** Some queued job has all its dependencies met. */
  lemma {:induction false} SomeReady(defs: Defs, owner: map<string, nat>, queue: seq<nat>, rank: nat -> nat, id: nat)
    returns (ready: nat)
    requires id in queue
    requires forall j | j in queue :: Descends(defs, owner, rank, j)
    requires forall k | k in owner :: owner[k] in queue
    ensures ready in queue && ready in defs && Ready(owner.Keys, defs[ready])
    decreases rank(id)
  {
    assert Descends(defs, owner, rank, id);
    var d := defs[id];
    if Ready(owner.Keys, d) { return id; }
    var i :| 0 <= i < |d.dependsOn| && d.dependsOn[i] in owner;
    ready := SomeReady(defs, owner, queue, rank, owner[d.dependsOn[i]]);
  }

  /** With nothing running every limit has room and every key is free: only dependencies and ready writers count. */
  lemma IdleRunnable(c: Config, queue: seq<nat>, defs: Defs, activeKeys: set<string>, id: nat)
    requires ValidConfig(c) && DefinitionOk(c, defs, id)
    ensures Runnable(c, queue, defs, {}, activeKeys, {}, map[], id)
            <==> id in queue && id in defs && Ready(activeKeys, defs[id]) && !Blocked(queue, defs, activeKeys, id)
  {}

  /** Every dependency-ready queued job reads a key that another dependency-ready queued job writes. */
  ghost predicate AllReadyBlocked(queue: seq<nat>, defs: Defs, activeKeys: set<string>) {
    forall id | id in queue && id in defs && Ready(activeKeys, defs[id]) :: Blocked(queue, defs, activeKeys, id)
  }

  /** That cannot be when some job is ready and none both writes and reads: a ready writer reads nothing. */
  lemma SomeReadyUnblocked(queue: seq<nat>, defs: Defs, owner: map<string, nat>, rank: nat -> nat)
    requires queue != []
    requires forall id | id in queue :: Descends(defs, owner, rank, id)
    requires forall k | k in owner :: owner[k] in queue
    requires forall id | id in queue && id in defs :: defs[id].exclusive == [] || defs[id].shared == []
    ensures !AllReadyBlocked(queue, defs, owner.Keys)
  {
    var ready := SomeReady(defs, owner, queue, rank, queue[0]);
    if Blocked(queue, defs, owner.Keys, ready) {
      var w :| w in queue && w in defs && BlockedBy(defs, owner.Keys, ready, w);
      assert !Blocked(queue, defs, owner.Keys, w);
    }
  }
}
