/**
 What is on a tuner's record, over every run: the users' calls since it was last given back,
 counted, and what the device that holds it has reported.
 */
module TunerRecord {
  import opened TunerModel

  datatype Call = Came(priority: int) | Went

  /** What was said of a user at a tuner since it was last given back, by whatever device. */
  ghost function Calls(states: seq<State>, steps: seq<Step>, n: nat, i: nat, user: string): seq<Call>
    requires n <= |steps| && n < |states|
  {
    if n == 0 then []
    else
      var before, s, step := Calls(states, steps, n - 1, i, user), states[n - 1], steps[n - 1];
      if step.Acquire? || step.device !in s.devices || s.devices[step.device].tuner != i then before
      else match step
        case Join(d, u, priority) => if u == user then before + [Came(priority)] else before
        case Leave(d, u) => if u == user then before + [Went] else before
        case Release(d) => if Holds(s, d) then [] else before
        case Report(d, _) => before
  }

  /** By how much the joins outnumber the leaves. */
  ghost function Excess(calls: seq<Call>): int {
    if calls == [] then 0
    else Excess(calls[..|calls| - 1]) + if calls[|calls| - 1].Came? then 1 else -1
  }

  ghost function Refs(r: Runtime, user: string): nat { if user in r.users then r.users[user].refs else 0 }

  /** The references are the most by which joins outnumber leaves since any moment, and the priority is that of the
      latest join. */
  ghost predicate Counted(r: Runtime, user: string, calls: seq<Call>) {
    && (user in r.users ==> r.users[user].refs > 0)
    && (forall k | 0 <= k <= |calls| :: Refs(r, user) >= Excess(calls) - Excess(calls[..k]))
    && (exists k :: 0 <= k <= |calls| && Refs(r, user) == Excess(calls) - Excess(calls[..k]))
    && (user in r.users ==> exists k :: Latest(calls, k, r.users[user].priority))
  }

  ghost predicate Latest(calls: seq<Call>, k: int, priority: int) {
    0 <= k < |calls| && calls[k] == Came(priority) && forall j | k < j < |calls| :: calls[j] == Went
  }

  lemma PrefixExcess(calls: seq<Call>, c: Call, k: nat)
    requires k <= |calls|
    ensures (calls + [c])[..k] == calls[..k] && (calls + [c])[..|calls| + 1] == calls + [c]
    ensures Excess(calls + [c]) == Excess(calls) + if c.Came? then 1 else -1
  {
    assert (calls + [c])[..|calls|] == calls;
  }

  lemma CountedMore(r: Runtime, user: string, calls: seq<Call>, priority: int)
    requires Counted(r, user, calls) && user != ""
    ensures Counted(WithUser(r, user, priority), user, calls + [Came(priority)])
  {
    var c := Came(priority);
    var k :| 0 <= k <= |calls| && Refs(r, user) == Excess(calls) - Excess(calls[..k]);
    forall j | 0 <= j <= |calls| + 1
      ensures Refs(r, user) + 1 >= Excess(calls + [c]) - Excess((calls + [c])[..j])
    {
      if j <= |calls| { PrefixExcess(calls, c, j); } else { PrefixExcess(calls, c, k); }
    }
    PrefixExcess(calls, c, k);
    assert Refs(r, user) + 1 == Excess(calls + [c]) - Excess((calls + [c])[..k]);
    assert Latest(calls + [c], |calls|, priority);
  }

  lemma CountedLess(r: Runtime, user: string, calls: seq<Call>)
    requires Counted(r, user, calls)
    ensures Counted(WithoutUser(r, user), user, calls + [Went])
  {
    var c, t := Went, WithoutUser(r, user);
    var k :| 0 <= k <= |calls| && Refs(r, user) == Excess(calls) - Excess(calls[..k]);
    assert Refs(t, user) == if Refs(r, user) > 0 then Refs(r, user) - 1 else 0;
    forall j | 0 <= j <= |calls| + 1
      ensures Refs(t, user) >= Excess(calls + [c]) - Excess((calls + [c])[..j])
    {
      if j <= |calls| { PrefixExcess(calls, c, j); } else { PrefixExcess(calls, c, k); }
    }
    var least := if Refs(r, user) > 0 then k else |calls| + 1;
    PrefixExcess(calls, c, k);
    assert Refs(t, user) == Excess(calls + [c]) - Excess((calls + [c])[..least]);
    if user in t.users {
      var j :| Latest(calls, j, r.users[user].priority);
      assert Latest(calls + [c], j, t.users[user].priority);
    }
  }

  lemma CountedIdle(r: Runtime, user: string)
    requires user !in r.users
    ensures Counted(r, user, [])
  {
    var none: seq<Call> := [];
    assert Refs(r, user) == Excess(none) - Excess(none[..0]);
  }

  /** What other users' calls, reservations and reports do to a user. */
  lemma CountedSame(r: Runtime, t: Runtime, user: string, calls: seq<Call>)
    requires Counted(r, user, calls) && (user in r.users <==> user in t.users)
    requires user in r.users ==> t.users[user] == r.users[user]
    ensures Counted(t, user, calls)
  {
    assert Refs(t, user) == Refs(r, user);
  }

  lemma StepCounted(states: seq<State>, steps: seq<Step>, n: nat, i: nat, user: string)
    requires Run(states, steps) && n < |steps| && user != "" && Consistent(states[n])
    requires i < |states[n].runtime| && Counted(states[n].runtime[i], user, Calls(states, steps, n, i, user))
    ensures i < |states[n + 1].runtime|
            && Counted(states[n + 1].runtime[i], user, Calls(states, steps, n + 1, i, user))
  {
    var s, step, t, calls := states[n], steps[n], states[n + 1], Calls(states, steps, n, i, user);
    assert t == Do(s, step);
    StepConsistent(s, step);
    if step.Acquire? || step.device !in s.devices || s.devices[step.device].tuner != i {
      CountedSame(s.runtime[i], t.runtime[i], user, calls);
    } else {
      assert DeviceOk(s, step.device) && TunerOk(s, i);
      match step
      case Join(d, u, priority) =>
        if u == user { CountedMore(s.runtime[i], user, calls, priority); }
        else { CountedSame(s.runtime[i], t.runtime[i], user, calls); }
      case Leave(d, u) =>
        if u == user { CountedLess(s.runtime[i], user, calls); }
        else { CountedSame(s.runtime[i], t.runtime[i], user, calls); }
      case Release(d) => if Holds(s, d) { CountedIdle(t.runtime[i], user); }
      case Report(d, c) => CountedSame(s.runtime[i], t.runtime[i], user, calls);
    }
  }

  /** In every state of every run a user is on a tuner's record exactly if, since some moment after it was last given
      back, they joined more often than they left; with the references and the priority that Counted says. */
  lemma {:induction false} UsersCounted(states: seq<State>, steps: seq<Step>, n: nat, i: nat, user: string)
    requires Run(states, steps) && n < |states| && i < |states[0].runtime| && user != ""
    ensures i < |states[n].runtime|
    ensures var r, calls := states[n].runtime[i], Calls(states, steps, n, i, user);
            && Counted(r, user, calls)
            && (user in r.users <==> exists k :: 0 <= k <= |calls| && Excess(calls) > Excess(calls[..k]))
  {
    if n == 0 {
      CountedIdle(states[0].runtime[i], user);
    } else {
      UsersCounted(states, steps, n - 1, i, user);
      RunConsistent(states, steps, n - 1);
      StepCounted(states, steps, n - 1, i, user);
    }
  }

  /** The references are the joins less the leaves exactly if no leave ever found the user gone. */
  lemma CountsBalanceExactly(r: Runtime, user: string, calls: seq<Call>)
    requires Counted(r, user, calls)
    ensures Refs(r, user) == Excess(calls) <==> forall k | 0 <= k <= |calls| :: Excess(calls[..k]) >= 0
    ensures (forall k | 0 <= k <= |calls| :: Excess(calls[..k]) >= 0) ==> (user in r.users <==> Excess(calls) > 0)
  {
    assert calls[..0] == [];
  }

  /** One who leaves before joining is on record though they left as often as they joined. */
  lemma LeaveFirst(states: seq<State>, steps: seq<Step>, user: string)
    requires user != "" && Run(states, steps) && states[0] == Start(1)
    requires steps == [Acquire(0, 0, 0), Leave(0, user), Join(0, user, 5)]
    ensures |states[3].runtime| == 1 && user in states[3].runtime[0].users
            && Calls(states, steps, 3, 0, user) == [Went, Came(5)]
    ensures Excess([Went, Came(5)]) == 0
  {
    RunConsistent(states, steps, 0);
    RunConsistent(states, steps, 1);
    RunConsistent(states, steps, 2);
    assert states[1] == Do(states[0], steps[0]) && states[2] == Do(states[1], steps[1]);
    assert Calls(states, steps, 1, 0, user) == [] && Calls(states, steps, 2, 0, user) == [Went];
    assert [Went, Came(5)][..1] == [Went] && [Went][..0] == [];
  }

  // ----------------------------------------------------------------------------- reports

  /** What the device that holds a tuner has reported since it acquired it. */
  ghost function Reports(states: seq<State>, steps: seq<Step>, n: nat, i: nat): seq<Callback>
    requires n <= |steps| && n < |states|
  {
    if n == 0 then []
    else
      var before, s, step := Reports(states, steps, n - 1, i), states[n - 1], steps[n - 1];
      match step
      case Acquire(j, _, _) => if j == i then [] else before
      case Release(d) => if Holds(s, d) && s.devices[d].tuner == i then [] else before
      case Report(d, c) => if Holds(s, d) && s.devices[d].tuner == i then before + [c] else before
      case _ => before
  }

  /** The tuner runs if that was reported last, has stopped if no running was reported since, and is at fault if a
      fault was reported at all. */
  ghost predicate Marks(r: Runtime, reports: seq<Callback>) {
    && (r.running <==> reports != [] && reports[|reports| - 1] == Running)
    && (r.stopped <==> exists k :: StoppedAt(reports, k))
    && (r.fault <==> Fault in reports)
  }

  ghost predicate StoppedAt(reports: seq<Callback>, k: int) {
    0 <= k < |reports| && reports[k] == Stopped && forall j | k < j < |reports| :: reports[j] == Fault
  }

  lemma MarksNext(r: Runtime, reports: seq<Callback>, c: Callback)
    requires Marks(r, reports)
    ensures Marks(Marked(r, c), reports + [c])
  {
    var more := reports + [c];
    forall k
      ensures StoppedAt(more, k) <==> if k == |reports| then c == Stopped else c == Fault && StoppedAt(reports, k)
    {
      if StoppedAt(more, k) && k < |reports| { assert more[|reports|] == Fault; }
      if StoppedAt(more, k) || StoppedAt(reports, k) { assert forall j | 0 <= j < |reports| :: more[j] == reports[j]; }
    }
    if c == Stopped { assert StoppedAt(more, |reports|); }
    if c == Fault && r.stopped {
      var k :| StoppedAt(reports, k);
      assert StoppedAt(more, k);
    }
    assert more[|reports|] == c;
  }

  lemma StepMarks(states: seq<State>, steps: seq<Step>, n: nat, i: nat)
    requires Run(states, steps) && n < |steps| && Consistent(states[n]) && i < |states[n].runtime|
    requires Marks(states[n].runtime[i], Reports(states, steps, n, i))
    requires i !in states[n].inUse ==> states[n].runtime[i].(users := map[]) == IDLE
    ensures i < |states[n + 1].runtime| && Marks(states[n + 1].runtime[i], Reports(states, steps, n + 1, i))
    ensures i !in states[n + 1].inUse ==> states[n + 1].runtime[i].(users := map[]) == IDLE
  {
    var s, step := states[n], steps[n];
    StepConsistent(s, step);
    assert TunerOk(s, i);
    if !step.Acquire? {
      assert DeviceOk(s, step.device);
      if step.Report? && Holds(s, step.device) && s.devices[step.device].tuner == i {
        MarksNext(s.runtime[i], Reports(states, steps, n, i), step.callback);
      }
    }
  }

  /** In every state of every run a tuner's marks are what its holder has reported; one that nobody holds has none. */
  lemma {:induction false} MarksFollowReports(states: seq<State>, steps: seq<Step>, n: nat, i: nat)
    requires Run(states, steps) && n < |states| && i < |states[0].runtime|
    ensures i < |states[n].runtime| && Marks(states[n].runtime[i], Reports(states, steps, n, i))
    ensures i !in states[n].inUse ==> states[n].runtime[i].(users := map[]) == IDLE
  {
    if n > 0 {
      MarksFollowReports(states, steps, n - 1, i);
      RunConsistent(states, steps, n - 1);
      StepMarks(states, steps, n - 1, i);
    }
  }
}
