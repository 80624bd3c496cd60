/**
 What becomes of one job: how often its handler is started and how it ends, told from the
 outcomes its handler returned, over every run of the manager's operations.
 */
module JobOutcomes {
  import opened JobModel
  import opened JobSched
  import opened JobRuns

  datatype Outcome = Succeeded | Canceled | Failed(retryable: bool)

  datatype Operation =
    | Enqueued(id: nat, definition: Definition)
    | Returned(id: nat, outcome: Outcome)
    | TimedOut(id: nat)
    | Aborted(id: nat)
    | ShutDown

  datatype Stage = Stage(sched: Sched, shut: bool)

  // ------------------------------------------------------------- the operations

  /** The queue without a job. */
  ghost function Removed(q: seq<nat>, id: nat): seq<nat> {
    if q == [] then [] else if q[0] == id then q[1..] else [q[0]] + Removed(q[1..], id)
  }

  lemma {:induction false} RemovedAt(q: seq<nat>, i: nat)
    requires i < |q| && NoRepeats(q)
    ensures Removed(q, q[i]) == Without(q, i)
  {
    if i > 0 { RemovedAt(q[1..], i - 1); }
  }

  lemma {:induction false} RemovedAbsent(q: seq<nat>, id: nat)
    requires id !in q
    ensures Removed(q, id) == q
  {
    if q != [] { RemovedAbsent(q[1..], id); }
  }

  predicate Retries(r: Record, d: Definition, outcome: Outcome, shutdown: bool) {
    !r.aborted && outcome.Failed? && outcome.retryable && r.retryCount < d.retries && !shutdown
  }

  /** What a handler's return does before the queue moves on. */
  ghost function AfterReturn(c: Config, s: Sched, id: nat, outcome: Outcome, shutdown: bool): Sched
    requires id in s.defs && id in s.recs && id in s.finishes
  {
    if Retries(s.recs[id], s.defs[id], outcome, shutdown) then StoodBy(s, id)
    else Finish(c, Freed(s, id), id, outcome.Failed?, s.recs[id].aborted)
  }

  ghost function AfterTimer(s: Sched, id: nat, shutdown: bool): Sched
    requires id in s.recs
  {
    if s.recs[id].status == Standby && !s.recs[id].aborted && !shutdown then Requeued(s, id) else s
  }

  ghost function AfterAbort(c: Config, s: Sched, id: nat): Sched
    requires Unfinished(s.recs, id) ==> id in s.defs && id in s.finishes
  {
    if !Unfinished(s.recs, id) then s
    else if id in s.active then MarkedAborted(s, id)
    else Finish(c, s.(queue := Removed(s.queue, id)), id, false, true)
  }

  /** An operation of the manager, with the starts that follow it. */
  ghost predicate Operates(c: Config, s: Stage, op: Operation, t: Stage) {
    match op
    case Enqueued(id, d) => !s.shut && !t.shut && Enabled(c, s.sched, Add(id, d))
        && Leads(c, Added(c, s.sched, id, d), t.sched, true)
    case Returned(id, outcome) => s.shut == t.shut && id in s.sched.active && id in s.sched.defs && id in s.sched.recs
        && id in s.sched.finishes && Leads(c, AfterReturn(c, s.sched, id, outcome, s.shut), t.sched, true)
    case TimedOut(id) => s.shut == t.shut && id in s.sched.recs
        && Leads(c, AfterTimer(s.sched, id, s.shut), t.sched, true)
    case Aborted(id) => s.shut == t.shut
        && (Unfinished(s.sched.recs, id) ==> id in s.sched.defs && id in s.sched.finishes)
        && t.sched == AfterAbort(c, s.sched, id)
    case ShutDown => t.shut && Leads(c, s.sched, t.sched, false)
  }

  ghost predicate Operated(c: Config, states: seq<Stage>, ops: seq<Operation>) {
    && ValidConfig(c) && |states| == |ops| + 1 && states[0] == Stage(Start(), false)
    && forall n | 0 <= n < |ops| :: Operates(c, states[n], ops[n], states[n + 1])
  }

  // ------------------------------------------------------------- one job of a state

  datatype Job = Job(d: Definition, r: Record, starts: nat)

  ghost predicate Known(s: Sched, id: nat) { id in s.defs && id in s.recs && id in s.runs && id in s.finishes }

  ghost function JobOf(s: Sched, id: nat): Job
    requires Known(s, id)
  {
    Job(s.defs[id], s.recs[id], s.runs[id])
  }

  /** Dispatching starts a queued job or leaves it alone. */
  ghost predicate MayStart(a: Job, b: Job) {
    b == a || (a.r.status == Queued && b == a.(r := a.r.(status := Running), starts := a.starts + 1))
  }

  /** Shutting down aborts a job that waits or leaves it alone. */
  ghost predicate MayDrop(a: Job, b: Job) {
    b == a || ((a.r.status == Queued || a.r.status == Standby)
               && b == a.(r := a.r.(status := Finished, aborted := true)))
  }

  lemma LaunchJob(c: Config, s: Sched, i: nat, id: nat)
    requires Sound(c, s) && Enabled(c, s, Launch(i)) && Known(s, id)
    ensures var t := Do(c, s, Launch(i)); Known(t, id) && MayStart(JobOf(s, id), JobOf(t, id))
  {
    RecordsThere(c, s, s.queue[i]);
    assert Listed(s.history, s.queue, s.recs, s.active, s.queue[i]);
  }

  lemma FinishJob(c: Config, s: Sched, id: nat, failed: bool, aborted: bool, other: nat)
    requires Known(s, id) && Known(s, other)
    ensures var t := Finish(c, s, id, failed, aborted);
            && Known(t, id) && Known(t, other)
            && (other != id ==> JobOf(t, other) == JobOf(s, other))
            && JobOf(t, id) == JobOf(s, id).(r := s.recs[id].(status := Finished,
                   aborted := s.recs[id].aborted || aborted,
                   failed := s.recs[id].failed || (failed && !s.recs[id].aborted && !aborted)))
  {
  }

  lemma DropJob(c: Config, s: Sched, e: Step, id: nat)
    requires Sound(c, s) && Enabled(c, s, e) && (e.AbortQueued? || e.AbortWaiting?) && Known(s, id)
    requires s.recs[id].status != Finished ==> !s.recs[id].failed
    ensures var t := Do(c, s, e); Known(t, id) && MayDrop(JobOf(s, id), JobOf(t, id))
  {
    var gone := if e.AbortQueued? then s.queue[e.index] else e.id;
    RecordsThere(c, s, gone);
    assert Listed(s.history, s.queue, s.recs, s.active, gone);
    var before := if e.AbortQueued? then s.(queue := Without(s.queue, e.index)) else s;
    assert Do(c, s, e) == Finish(c, before, gone, false, true);
    FinishJob(c, before, gone, false, true, id);
  }

  lemma {:induction false} StartsAlong(c: Config, states: seq<Sched>, steps: seq<Step>, id: nat, n: nat)
    requires Path(c, states, steps, true) && n <= |steps| && Known(states[0], id)
    ensures Known(states[n], id) && MayStart(JobOf(states[0], id), JobOf(states[n], id))
  {
    if n > 0 {
      StartsAlong(c, states, steps, id, n - 1);
      assert OneStep(c, states[n - 1], steps[n - 1], states[n], true);
      LaunchJob(c, states[n - 1], steps[n - 1].index, id);
    }
  }

  lemma {:induction false} DropsAlong(c: Config, states: seq<Sched>, steps: seq<Step>, id: nat, n: nat)
    requires Path(c, states, steps, false) && n <= |steps| && Known(states[0], id)
    requires states[0].recs[id].status != Finished ==> !states[0].recs[id].failed
    ensures Known(states[n], id) && MayDrop(JobOf(states[0], id), JobOf(states[n], id))
  {
    if n > 0 {
      DropsAlong(c, states, steps, id, n - 1);
      assert OneStep(c, states[n - 1], steps[n - 1], states[n], false);
      DropJob(c, states[n - 1], steps[n - 1], id);
    }
  }

  lemma {:induction false} SoundAlong(c: Config, states: seq<Sched>, steps: seq<Step>, dispatching: bool, n: nat)
    requires Path(c, states, steps, dispatching) && n <= |steps| && Sound(c, states[0])
    ensures Sound(c, states[n])
  {
    if n > 0 {
      SoundAlong(c, states, steps, dispatching, n - 1);
      assert OneStep(c, states[n - 1], steps[n - 1], states[n], dispatching);
      StepSound(c, states[n - 1], steps[n - 1]);
    }
  }

  lemma LeadsKeeps(c: Config, s: Sched, t: Sched, id: nat, dispatching: bool)
    requires Leads(c, s, t, dispatching) && Known(s, id) && (s.recs[id].status != Finished ==> !s.recs[id].failed)
    ensures Known(t, id)
    ensures dispatching ==> MayStart(JobOf(s, id), JobOf(t, id))
    ensures !dispatching ==> MayDrop(JobOf(s, id), JobOf(t, id))
  {
    var states, steps :| PathFrom(c, states, steps, s, t, dispatching);
    if dispatching { StartsAlong(c, states, steps, id, |steps|); } else { DropsAlong(c, states, steps, id, |steps|); }
  }

  lemma LeadsSound(c: Config, s: Sched, t: Sched, dispatching: bool)
    requires Leads(c, s, t, dispatching) && Sound(c, s)
    ensures Sound(c, t)
  {
    var states, steps :| PathFrom(c, states, steps, s, t, dispatching);
    SoundAlong(c, states, steps, dispatching, |steps|);
  }

  // --------------------------------------------------------- what an operation does

  lemma OperationSound(c: Config, s: Stage, op: Operation, t: Stage)
    requires Sound(c, s.sched) && Operates(c, s, op, t)
    ensures Sound(c, t.sched)
  {
    match op
    case Enqueued(id, d) =>
      AddedSound(c, s.sched, id, d);
      LeadsSound(c, Added(c, s.sched, id, d), t.sched, true);
    case Returned(id, outcome) =>
      ReturnSound(c, s.sched, id, outcome, s.shut);
      LeadsSound(c, AfterReturn(c, s.sched, id, outcome, s.shut), t.sched, true);
    case TimedOut(id) =>
      if AfterTimer(s.sched, id, s.shut) != s.sched { RequeuedSound(c, s.sched, id); }
      LeadsSound(c, AfterTimer(s.sched, id, s.shut), t.sched, true);
    case Aborted(id) => AbortSound(c, s.sched, id);
    case ShutDown => LeadsSound(c, s.sched, t.sched, false);
  }

  lemma ReturnSound(c: Config, s: Sched, id: nat, outcome: Outcome, shut: bool)
    requires Sound(c, s) && id in s.active && id in s.defs && id in s.recs && id in s.finishes
    ensures Sound(c, AfterReturn(c, s, id, outcome, shut))
  {
    if Retries(s.recs[id], s.defs[id], outcome, shut) { StoodBySound(c, s, id); }
    else { EndSound(c, s, id, outcome.Failed?); }
  }

  lemma AbortSound(c: Config, s: Sched, id: nat)
    requires Sound(c, s) && (Unfinished(s.recs, id) ==> id in s.defs && id in s.finishes)
    ensures Sound(c, AfterAbort(c, s, id))
  {
    assert Listed(s.history, s.queue, s.recs, s.active, id);
    if id in s.active {
      MarkedAbortedSound(c, s, id);
    } else if id in s.queue {
      var i :| 0 <= i < |s.queue| && s.queue[i] == id;
      RemovedAt(s.queue, i);
      UnqueuedDetached(c, s, i);
      FinishSound(c, s.(queue := Without(s.queue, i)), id, false, true);
    } else if Unfinished(s.recs, id) {
      RemovedAbsent(s.queue, id);
      StandbyDetached(c, s, id);
      FinishSound(c, s, id, false, true);
    }
  }

  lemma {:induction false} OperatedSound(c: Config, states: seq<Stage>, ops: seq<Operation>, n: nat)
    requires Operated(c, states, ops) && n < |states|
    ensures Sound(c, states[n].sched)
  {
    if n == 0 {
      StartSound(c);
    } else {
      OperatedSound(c, states, ops, n - 1);
      assert Operates(c, states[n - 1], ops[n - 1], states[n]);
      OperationSound(c, states[n - 1], ops[n - 1], states[n]);
    }
  }

  /** A job once it is finished. */
  ghost function Ended(j: Job, failed: bool, aborted: bool): Job {
    j.(r := j.r.(status := Finished, aborted := j.r.aborted || aborted,
                 failed := j.r.failed || (failed && !j.r.aborted && !aborted)))
  }

  /** What an operation does to one job, before the starts or aborts that end it. */
  ghost function Effect(j: Job, op: Operation, id: nat, shut: bool): Job {
    match op
    case Enqueued(_, _) => j
    case Returned(other, o) => if other != id then j
      else if Retries(j.r, j.d, o, shut) then j.(r := j.r.(status := Standby, retryCount := j.r.retryCount + 1))
      else Ended(j, o.Failed?, j.r.aborted)
    case TimedOut(other) => if other == id && j.r.status == Standby && !j.r.aborted && !shut
      then j.(r := j.r.(status := Queued)) else j
    case Aborted(other) => if other != id || j.r.status == Finished then j
      else if j.r.status == Running then j.(r := j.r.(aborted := true)) else Ended(j, false, true)
    case ShutDown => j
  }

  lemma ReturnJob(c: Config, s: Sched, other: nat, o: Outcome, shut: bool, id: nat)
    requires Known(s, other) && Known(s, id)
    ensures var t := AfterReturn(c, s, other, o, shut);
            Known(t, id) && JobOf(t, id) == Effect(JobOf(s, id), Returned(other, o), id, shut)
  {
  }

  lemma TimerJob(s: Sched, other: nat, shut: bool, id: nat)
    requires Known(s, other) && Known(s, id)
    ensures var t := AfterTimer(s, other, shut);
            Known(t, id) && JobOf(t, id) == Effect(JobOf(s, id), TimedOut(other), id, shut)
  {
  }

  lemma AbortJob(c: Config, s: Sched, other: nat, id: nat)
    requires Known(s, id) && (Unfinished(s.recs, other) ==> Known(s, other))
    requires id in s.active <==> s.recs[id].status == Running
    ensures var t := AfterAbort(c, s, other);
            Known(t, id) && JobOf(t, id) == Effect(JobOf(s, id), Aborted(other), id, false)
  {
  }

  /** The state of an operation before the starts or aborts that end it. */
  ghost function Core(c: Config, s: Stage, op: Operation, t: Stage): Sched
    requires Operates(c, s, op, t)
  {
    match op
    case Enqueued(id, d) => Added(c, s.sched, id, d)
    case Returned(id, o) => AfterReturn(c, s.sched, id, o, s.shut)
    case TimedOut(id) => AfterTimer(s.sched, id, s.shut)
    case Aborted(id) => AfterAbort(c, s.sched, id)
    case ShutDown => s.sched
  }

  lemma CoreLeads(c: Config, s: Stage, op: Operation, t: Stage)
    requires Operates(c, s, op, t)
    ensures Leads(c, Core(c, s, op, t), t.sched, !op.ShutDown?)
  {
    if op.Aborted? { LeadsNowhere(c, t.sched, true); }
  }

  lemma CoreJob(c: Config, s: Stage, op: Operation, t: Stage, id: nat)
    requires Sound(c, s.sched) && Operates(c, s, op, t) && id in s.sched.recs
    ensures Known(s.sched, id) && Known(Core(c, s, op, t), id)
            && JobOf(Core(c, s, op, t), id) == Effect(JobOf(s.sched, id), op, id, s.shut)
  {
    RecordsThere(c, s.sched, id);
    match op
    case Enqueued(other, d) =>
    case Returned(other, o) => RecordsThere(c, s.sched, other); ReturnJob(c, s.sched, other, o, s.shut, id);
    case TimedOut(other) => RecordsThere(c, s.sched, other); TimerJob(s.sched, other, s.shut, id);
    case Aborted(other) =>
      if Unfinished(s.sched.recs, other) { RecordsThere(c, s.sched, other); }
      assert Listed(s.sched.history, s.sched.queue, s.sched.recs, s.sched.active, id);
      AbortJob(c, s.sched, other, id);
    case ShutDown =>
  }

  /** The records are those of before, and of the job an operation adds. */
  lemma OperationKeys(c: Config, s: Stage, op: Operation, t: Stage)
    requires Sound(c, s.sched) && Operates(c, s, op, t)
    ensures t.sched.recs.Keys == s.sched.recs.Keys + if op.Enqueued? then {op.id} else {}
  {
    match op
    case Enqueued(id, d) => LeadsKeys(c, Added(c, s.sched, id, d), t.sched, true);
    case Returned(id, outcome) => LeadsKeys(c, AfterReturn(c, s.sched, id, outcome, s.shut), t.sched, true);
    case TimedOut(id) => LeadsKeys(c, AfterTimer(s.sched, id, s.shut), t.sched, true);
    case Aborted(id) =>
    case ShutDown => LeadsKeys(c, s.sched, t.sched, false);
  }

  lemma LeadsKeys(c: Config, s: Sched, t: Sched, dispatching: bool)
    requires Leads(c, s, t, dispatching)
    ensures t.recs.Keys == s.recs.Keys
  {
    var states, steps :| PathFrom(c, states, steps, s, t, dispatching);
    KeysAlong(c, states, steps, dispatching, |steps|);
  }

  lemma {:induction false} KeysAlong(c: Config, states: seq<Sched>, steps: seq<Step>, dispatching: bool, n: nat)
    requires Path(c, states, steps, dispatching) && n <= |steps|
    ensures states[n].recs.Keys == states[0].recs.Keys
  {
    if n > 0 {
      KeysAlong(c, states, steps, dispatching, n - 1);
      assert OneStep(c, states[n - 1], steps[n - 1], states[n], dispatching);
      StepKeys(c, states[n - 1], steps[n - 1]);
    }
  }

  lemma StepKeys(c: Config, s: Sched, e: Step)
    requires Sound(c, s) && Enabled(c, s, e) && (e.Launch? || e.AbortQueued? || e.AbortWaiting?)
    ensures Do(c, s, e).recs.Keys == s.recs.Keys
  {
    if !e.AbortWaiting? { RecordsThere(c, s, s.queue[e.index]); }
  }

  // ---------------------------------------------------------------- the law of a job

  ghost predicate ReturnOf(op: Operation, id: nat) { op.Returned? && op.id == id }

  /** What the job's handler returned, first to last. */
  ghost function Outcomes(ops: seq<Operation>, id: nat): seq<Outcome> {
    if ops == [] then []
    else
      var last := ops[|ops| - 1];
      var before := Outcomes(ops[..|ops| - 1], id);
      if ReturnOf(last, id) then before + [last.outcome] else before
  }

  /** The handler has returned since a retry's timer last ran out. */
  ghost predicate Waiting(ops: seq<Operation>, id: nat) {
    ops != [] && var last := ops[|ops| - 1];
    if ReturnOf(last, id) then true
    else if last == TimedOut(id) then false
    else Waiting(ops[..|ops| - 1], id)
  }

  /** The number of retryable failures before anything else. */
  ghost function Leading(outcomes: seq<Outcome>): nat {
    if outcomes != [] && outcomes[0] == Failed(true) then 1 + Leading(outcomes[1..]) else 0
  }

  ghost function Min(a: nat, b: nat): nat { if a < b then a else b }

  /** A job left alone lives on while its handler has only failed, retryably and no more often than it has retry
      delays; it is finished after one start more than that, and failed exactly if the last outcome was a failure. */
  ghost predicate Lives(j: Job, outcomes: seq<Outcome>, waiting: bool) {
    && !j.r.aborted
    && if Leading(outcomes) == |outcomes| <= j.d.retries then
        && j.r.status != Finished && !j.r.failed && j.r.retryCount == |outcomes|
        && j.starts == |outcomes| + (if j.r.status == Running then 1 else 0)
        && (j.r.status == Standby <==> waiting)
      else
        && j.r.status == Finished && j.starts == |outcomes| == Min(Leading(outcomes), j.d.retries) + 1
        && (j.r.failed <==> outcomes[|outcomes| - 1].Failed?)
  }

  lemma {:induction false} LeadingNext(outcomes: seq<Outcome>, o: Outcome)
    ensures Leading(outcomes + [o]) == if Leading(outcomes) < |outcomes| then Leading(outcomes)
                                       else |outcomes| + if o == Failed(true) then 1 else 0
    ensures Leading(outcomes) <= |outcomes|
  {
    if outcomes != [] {
      assert (outcomes + [o])[1..] == outcomes[1..] + [o];
      LeadingNext(outcomes[1..], o);
    }
  }

  lemma EffectLives(j: Job, op: Operation, id: nat, before: seq<Operation>)
    requires Lives(j, Outcomes(before, id), Waiting(before, id)) && op != Aborted(id)
    requires ReturnOf(op, id) ==> j.r.status == Running
    ensures Lives(Effect(j, op, id, false), Outcomes(before + [op], id), Waiting(before + [op], id))
  {
    assert (before + [op])[..|before|] == before;
    if ReturnOf(op, id) { LeadingNext(Outcomes(before, id), op.outcome); }
  }

  lemma StartLives(c: Config, s: Sched, t: Sched, id: nat, outcomes: seq<Outcome>, waiting: bool)
    requires Leads(c, s, t, true) && Known(s, id) && Lives(JobOf(s, id), outcomes, waiting)
    ensures Known(t, id) && Lives(JobOf(t, id), outcomes, waiting)
  {
    LeadsKeeps(c, s, t, id, true);
  }

  lemma OperationLives(c: Config, s: Stage, op: Operation, t: Stage, id: nat, before: seq<Operation>)
    requires Sound(c, s.sched) && Operates(c, s, op, t) && !t.shut && op != Aborted(id) && Known(s.sched, id)
    requires Lives(JobOf(s.sched, id), Outcomes(before, id), Waiting(before, id))
    ensures Known(t.sched, id) && Lives(JobOf(t.sched, id), Outcomes(before + [op], id), Waiting(before + [op], id))
  {
    assert Listed(s.sched.history, s.sched.queue, s.sched.recs, s.sched.active, id);
    CoreJob(c, s, op, t, id);
    CoreLeads(c, s, op, t);
    EffectLives(JobOf(s.sched, id), op, id, before);
    StartLives(c, Core(c, s, op, t), t.sched, id, Outcomes(before + [op], id), Waiting(before + [op], id));
  }

  /** Before a job is added its handler returns nothing. */
  lemma {:induction false} NothingBefore(c: Config, states: seq<Stage>, ops: seq<Operation>, n: nat, id: nat)
    requires Operated(c, states, ops) && n < |states| && id !in states[n].sched.recs
    ensures Outcomes(ops[..n], id) == [] && !Waiting(ops[..n], id)
  {
    if n > 0 {
      OperatedSound(c, states, ops, n - 1);
      assert Operates(c, states[n - 1], ops[n - 1], states[n]);
      OperationKeys(c, states[n - 1], ops[n - 1], states[n]);
      NothingBefore(c, states, ops, n - 1, id);
      assert ops[..n][..n - 1] == ops[..n - 1];
    }
  }

  lemma AddedLives(c: Config, s: Sched, t: Sched, id: nat, d: Definition)
    requires Leads(c, Added(c, s, id, d), t, true)
    ensures Known(t, id) && Lives(JobOf(t, id), [], false)
  {
    StartLives(c, Added(c, s, id, d), t, id, [], false);
  }

  /** In every run of the manager, a job that nobody aborted before the manager shuts down obeys the law. */
  lemma {:induction false} JobLaw(c: Config, states: seq<Stage>, ops: seq<Operation>, n: nat, id: nat)
    requires Operated(c, states, ops) && n < |states| && id in states[n].sched.recs
    requires !states[n].shut && Aborted(id) !in ops[..n]
    ensures Known(states[n].sched, id)
            && Lives(JobOf(states[n].sched, id), Outcomes(ops[..n], id), Waiting(ops[..n], id))
  {
    assert n > 0;
    var op := ops[n - 1];
    OperatedSound(c, states, ops, n - 1);
    assert Operates(c, states[n - 1], op, states[n]);
    OperationKeys(c, states[n - 1], op, states[n]);
    assert ops[..n] == ops[..n - 1] + [op];
    if id in states[n - 1].sched.recs {
      JobLaw(c, states, ops, n - 1, id);
      OperationLives(c, states[n - 1], op, states[n], id, ops[..n - 1]);
    } else {
      NothingBefore(c, states, ops, n - 1, id);
      assert ops[..n][..n - 1] == ops[..n - 1];
      AddedLives(c, states[n - 1].sched, states[n].sched, id, op.definition);
    }
  }

  // ------------------------------------------------------------ aborting and shutting down

  ghost predicate Unfailed(s: Sched, id: nat) { Known(s, id) && (s.recs[id].status != Finished ==> !s.recs[id].failed) }

  lemma {:induction false} NeverFailedYet(c: Config, states: seq<Stage>, ops: seq<Operation>, n: nat, id: nat)
    requires Operated(c, states, ops) && n < |states| && id in states[n].sched.recs
    ensures Unfailed(states[n].sched, id)
  {
    assert n > 0;
    var s, op, t := states[n - 1], ops[n - 1], states[n];
    OperatedSound(c, states, ops, n - 1);
    assert Operates(c, s, op, t);
    CoreLeads(c, s, op, t);
    OperationKeys(c, s, op, t);
    if id in s.sched.recs {
      NeverFailedYet(c, states, ops, n - 1, id);
      assert Listed(s.sched.history, s.sched.queue, s.sched.recs, s.sched.active, id);
      CoreJob(c, s, op, t, id);
    }
    LeadsKeeps(c, Core(c, s, op, t), t.sched, id, !op.ShutDown?);
  }

  /** A finished job never changes, nor does a running one that is marked as aborted before its handler returns. */
  lemma StaysPut(c: Config, s: Stage, op: Operation, t: Stage, id: nat)
    requires Operates(c, s, op, t) && Sound(c, s.sched) && Unfailed(s.sched, id)
    requires s.sched.recs[id].status == Finished
             || (s.sched.recs[id].status == Running && s.sched.recs[id].aborted && !ReturnOf(op, id))
    ensures Known(t.sched, id) && JobOf(t.sched, id) == JobOf(s.sched, id)
  {
    assert Listed(s.sched.history, s.sched.queue, s.sched.recs, s.sched.active, id);
    CoreLeads(c, s, op, t);
    CoreJob(c, s, op, t, id);
    LeadsKeeps(c, Core(c, s, op, t), t.sched, id, !op.ShutDown?);
  }

  lemma {:induction false} StaysPutAlong(c: Config, states: seq<Stage>, ops: seq<Operation>, m: nat, n: nat, id: nat)
    requires Operated(c, states, ops) && m <= n < |states| && id in states[m].sched.recs && Known(states[m].sched, id)
    requires var r := states[m].sched.recs[id];
             r.status == Finished
             || (r.status == Running && r.aborted && forall k | m <= k < n :: !ReturnOf(ops[k], id))
    ensures Known(states[n].sched, id) && JobOf(states[n].sched, id) == JobOf(states[m].sched, id)
  {
    if m < n {
      StaysPutAlong(c, states, ops, m, n - 1, id);
      OperatedSound(c, states, ops, n - 1);
      NeverFailedYet(c, states, ops, n - 1, id);
      assert Operates(c, states[n - 1], ops[n - 1], states[n]);
      StaysPut(c, states[n - 1], ops[n - 1], states[n], id);
    }
  }

  /** A handler that returns once its job is aborted or the manager is shut down was started for the last time: the
      job is finished, and failed exactly if the outcome is a failure and it was not aborted. */
  lemma LastReturn(c: Config, states: seq<Stage>, ops: seq<Operation>, n: nat, id: nat)
    requires Operated(c, states, ops) && n < |ops| && ReturnOf(ops[n], id)
    ensures Known(states[n].sched, id) && Known(states[n + 1].sched, id)
    ensures var a, b := JobOf(states[n].sched, id), JobOf(states[n + 1].sched, id);
            a.r.aborted || states[n].shut ==>
              b == a.(r := a.r.(status := Finished, failed := ops[n].outcome.Failed? && !a.r.aborted))
  {
    var s, op, t := states[n], ops[n], states[n + 1];
    assert Operates(c, s, op, t);
    OperatedSound(c, states, ops, n);
    NeverFailedYet(c, states, ops, n, id);
    assert Listed(s.sched.history, s.sched.queue, s.sched.recs, s.sched.active, id);
    CoreJob(c, s, op, t, id);
    LeadsKeeps(c, Core(c, s, op, t), t.sched, id, true);
  }

  /** Aborting a running job lets its current start be its last: when the handler returns, whatever it returns, the
      job is finished as aborted and not failed, and stays so.  Aborting any other unfinished job does that at once. */
  lemma AbortLaw(c: Config, states: seq<Stage>, ops: seq<Operation>, m: nat, n: nat, k: nat, id: nat)
    requires Operated(c, states, ops) && m < |ops| && ops[m] == Aborted(id) && Unfinished(states[m].sched.recs, id)
    requires if states[m].sched.recs[id].status == Running
             then m < n < |ops| && ReturnOf(ops[n], id) && forall i | m < i < n :: !ReturnOf(ops[i], id)
             else n == m
    requires n < k < |states|
    ensures Known(states[m].sched, id) && Known(states[k].sched, id)
    ensures var a, b := JobOf(states[m].sched, id), JobOf(states[k].sched, id);
            b == a.(r := a.r.(status := Finished, aborted := true)) && !b.r.failed
  {
    var s, t := states[m], states[m + 1];
    OperatedSound(c, states, ops, m);
    NeverFailedYet(c, states, ops, m, id);
    assert Operates(c, s, ops[m], t);
    assert Listed(s.sched.history, s.sched.queue, s.sched.recs, s.sched.active, id);
    if s.sched.recs[id].status == Running {
      StaysPutAlong(c, states, ops, m + 1, n, id);
      LastReturn(c, states, ops, n, id);
    }
    StaysPutAlong(c, states, ops, n + 1, k, id);
  }
}
