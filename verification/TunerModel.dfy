/**
 Tuner reservations (internal/tuner): which device holds which tuner, through acquisitions,
 stops and callbacks that arrive late.
 */
module TunerModel {
  import opened Basics

  datatype User = User(priority: int, refs: nat)

  datatype Runtime = Runtime(
    inUse: bool,
    running: bool,
    stopped: bool,
    fault: bool,
    priority: int,
    device: Option<nat>,
    users: map<string, User>)

  const IDLE := Runtime(false, false, false, false, 0, None, map[])

  /** A device handed out for a tuner, and whether it has given it back. */
  datatype Device = Device(tuner: nat, released: bool)

  datatype State = State(inUse: set<nat>, runtime: seq<Runtime>, devices: map<nat, Device>)

  // ------------------------------------------------------------------- consistency

  /** The three records of a reservation agree, and name a device that holds the tuner. */
  ghost predicate TunerOk(s: State, i: int) {
    0 <= i < |s.runtime| ==>
      var r := s.runtime[i];
      && (i in s.inUse <==> r.inUse) && (r.inUse <==> r.device.Some?)
      && (r.device.Some? ==> r.device.value in s.devices && s.devices[r.device.value] == Device(i, false))
  }

  /** A device that has not released its tuner is the one that holds it. */
  ghost predicate DeviceOk(s: State, d: nat) {
    d in s.devices ==>
      s.devices[d].tuner < |s.runtime|
      && (!s.devices[d].released ==> s.runtime[s.devices[d].tuner].device == Some(d))
  }

  ghost predicate Consistent(s: State) {
    (forall i :: TunerOk(s, i)) && (forall d :: DeviceOk(s, d)) && forall i | i in s.inUse :: i < |s.runtime|
  }

  // -------------------------------------------------------------------------- steps

  function Reserve(s: State, i: nat, d: nat, priority: int): State
    requires i < |s.runtime|
  {
    var r := s.runtime[i].(inUse := true, running := false, stopped := false, priority := priority, device := Some(d));
    State(s.inUse + {i}, s.runtime[i := r], s.devices[d := Device(i, false)])
  }

  /** Giving a tuner back, which a device does once. */
  function ReleaseOnce(s: State, d: nat): State
    requires DeviceOk(s, d)
  {
    if d !in s.devices || s.devices[d].released then s
    else
      var i := s.devices[d].tuner;
      var devices := s.devices[d := Device(i, true)];
      if i in s.inUse then State(s.inUse - {i}, s.runtime[i := IDLE], devices) else s.(devices := devices)
  }

  datatype Callback = Running | Stopped | Fault

  function Marked(r: Runtime, c: Callback): Runtime {
    match c
    case Running => r.(running := true, stopped := false)
    case Stopped => r.(running := false, stopped := true)
    case Fault => r.(running := false, fault := true)
  }

  /** A device reports; only the one that holds the tuner is heard. */
  function Mark(s: State, d: nat, c: Callback): State
    requires DeviceOk(s, d)
  {
    if d !in s.devices then s
    else
      var i := s.devices[d].tuner;
      var r := s.runtime[i];
      if !r.inUse || r.device != Some(d) then s else s.(runtime := s.runtime[i := Marked(r, c)])
  }

  /** Users are added to and removed from the tuner of a device, whoever holds it. */
  function WithUser(r: Runtime, user: string, priority: int): Runtime {
    if user == "" then r
    else r.(users := r.users[user := User(priority, if user in r.users then r.users[user].refs + 1 else 1)])
  }

  function WithoutUser(r: Runtime, user: string): Runtime {
    if user !in r.users then r
    else if r.users[user].refs <= 1 then r.(users := r.users - {user})
    else r.(users := r.users[user := r.users[user].(refs := r.users[user].refs - 1)])
  }

  function AddUser(s: State, d: nat, user: string, priority: int): State
    requires DeviceOk(s, d)
  {
    if d !in s.devices then s
    else var i := s.devices[d].tuner; s.(runtime := s.runtime[i := WithUser(s.runtime[i], user, priority)])
  }

  function RemoveUser(s: State, d: nat, user: string): State
    requires DeviceOk(s, d)
  {
    if d !in s.devices then s
    else var i := s.devices[d].tuner; s.(runtime := s.runtime[i := WithoutUser(s.runtime[i], user)])
  }

  // --------------------------------------------------------------------------- runs

  datatype Step =
    | Acquire(tuner: nat, device: nat, priority: int)
    | Release(device: nat)
    | Report(device: nat, callback: Callback)
    | Join(device: nat, user: string, userPriority: int)
    | Leave(device: nat, user: string)

  /** Acquisitions take a free tuner for a new device; everything else may come at any time. */
  ghost predicate Enabled(s: State, step: Step) {
    match step
    case Acquire(i, d, _) => i < |s.runtime| && i !in s.inUse && d !in s.devices
    case _ => true
  }

  ghost function Do(s: State, step: Step): State
    requires Consistent(s) && Enabled(s, step)
  {
    match step
    case Acquire(i, d, priority) => Reserve(s, i, d, priority)
    case Release(d) => assert DeviceOk(s, d); ReleaseOnce(s, d)
    case Report(d, c) => assert DeviceOk(s, d); Mark(s, d, c)
    case Join(d, user, priority) => assert DeviceOk(s, d); AddUser(s, d, user, priority)
    case Leave(d, user) => assert DeviceOk(s, d); RemoveUser(s, d, user)
  }

  lemma ReserveConsistent(s: State, i: nat, d: nat, priority: int)
    requires Consistent(s) && i < |s.runtime| && i !in s.inUse && d !in s.devices
    ensures Consistent(Reserve(s, i, d, priority))
  {
    var s' := Reserve(s, i, d, priority);
    forall k ensures TunerOk(s', k) { assert TunerOk(s, k) && TunerOk(s, i); }
    forall x ensures DeviceOk(s', x) { assert DeviceOk(s, x) && TunerOk(s, i); }
  }

  lemma ReleaseConsistent(s: State, d: nat)
    requires Consistent(s) && DeviceOk(s, d)
    ensures Consistent(ReleaseOnce(s, d))
  {
    var s' := ReleaseOnce(s, d);
    if d in s.devices {
      assert TunerOk(s, s.devices[d].tuner);
      forall k ensures TunerOk(s', k) { assert TunerOk(s, k); }
      forall x ensures DeviceOk(s', x) { assert DeviceOk(s, x); }
    }
  }

  /** Changing a tuner's marks or users leaves the reservations alone. */
  lemma TouchConsistent(s: State, i: nat, r: Runtime)
    requires Consistent(s) && i < |s.runtime| && r.inUse == s.runtime[i].inUse && r.device == s.runtime[i].device
    ensures Consistent(s.(runtime := s.runtime[i := r]))
  {
    var s' := s.(runtime := s.runtime[i := r]);
    forall k ensures TunerOk(s', k) { assert TunerOk(s, k); }
    forall x ensures DeviceOk(s', x) { assert DeviceOk(s, x); }
  }

  lemma StepConsistent(s: State, step: Step)
    requires Consistent(s) && Enabled(s, step)
    ensures Consistent(Do(s, step)) && |Do(s, step).runtime| == |s.runtime|
  {
    match step
    case Acquire(i, d, priority) => ReserveConsistent(s, i, d, priority);
    case Release(d) => assert DeviceOk(s, d); ReleaseConsistent(s, d);
    case Report(d, c) =>
      assert DeviceOk(s, d);
      if d in s.devices { TouchConsistent(s, s.devices[d].tuner, Marked(s.runtime[s.devices[d].tuner], c)); }
    case Join(d, user, priority) =>
      assert DeviceOk(s, d);
      if d in s.devices {
        TouchConsistent(s, s.devices[d].tuner, WithUser(s.runtime[s.devices[d].tuner], user, priority));
      }
    case Leave(d, user) =>
      assert DeviceOk(s, d);
      if d in s.devices { TouchConsistent(s, s.devices[d].tuner, WithoutUser(s.runtime[s.devices[d].tuner], user)); }
  }

  function Start(tuners: nat): State { State({}, seq(tuners, i => IDLE), map[]) }

  /** The states a run goes through. */
  ghost predicate Run(states: seq<State>, steps: seq<Step>) {
    && |states| == |steps| + 1 && states[0] == Start(|states[0].runtime|)
    && forall n | 0 <= n < |steps| :: Consistent(states[n]) ==>
           Enabled(states[n], steps[n]) && states[n + 1] == Do(states[n], steps[n])
  }

  lemma {:induction false} RunConsistent(states: seq<State>, steps: seq<Step>, n: nat)
    requires Run(states, steps) && n < |states|
    ensures Consistent(states[n])
  {
    if n == 0 {
      forall i ensures TunerOk(states[0], i) {}
      forall d ensures DeviceOk(states[0], d) {}
    } else {
      RunConsistent(states, steps, n - 1);
      StepConsistent(states[n - 1], steps[n - 1]);
    }
  }

  predicate Holds(s: State, d: nat) { d in s.devices && !s.devices[d].released }

  /** In every run a tuner has at most one device that has not released it, and that device is the one on record. */
  lemma OneDevicePerTuner(states: seq<State>, steps: seq<Step>, n: nat, d: nat, e: nat)
    requires Run(states, steps) && n < |states|
    ensures var s := states[n];
            && (Holds(s, d) && Holds(s, e) && s.devices[d].tuner == s.devices[e].tuner ==> d == e)
            && (forall i | 0 <= i < |s.runtime| :: i in s.inUse <==> s.runtime[i].inUse)
            && (forall i | 0 <= i < |s.runtime| :: i in s.inUse <==> s.runtime[i].device.Some?)
  {
    RunConsistent(states, steps, n);
    assert DeviceOk(states[n], d) && DeviceOk(states[n], e);
    forall i | 0 <= i < |states[n].runtime|
      ensures (i in states[n].inUse <==> states[n].runtime[i].inUse)
              && (i in states[n].inUse <==> states[n].runtime[i].device.Some?)
    {
      assert TunerOk(states[n], i);
    }
  }

  /** What a device that has released its tuner reports, or a second release, changes nothing. */
  lemma LateCallbacksTouchNothing(s: State, d: nat, c: Callback)
    requires Consistent(s) && d in s.devices && s.devices[d].released
    ensures DeviceOk(s, d) && Mark(s, d, c) == s && ReleaseOnce(s, d) == s
  {
    assert DeviceOk(s, d) && TunerOk(s, s.devices[d].tuner);
  }

  // ------------------------------------------------------------------- stale users

  /** User calls of a device that has released its tuner reach that tuner all the same: a removal changes nothing
      exactly
      when the user is not on the tuner's record, an addition exactly when it names no user. */
  lemma LateUserCallsExactly(s: State, d: nat, user: string, priority: int)
    requires Consistent(s) && d in s.devices && s.devices[d].released
    ensures DeviceOk(s, d)
    ensures RemoveUser(s, d, user) == s <==> user !in s.runtime[s.devices[d].tuner].users
    ensures AddUser(s, d, user, priority) == s <==> user == ""
  {
    assert DeviceOk(s, d);
  }

  ghost predicate EndsIn(states: seq<State>, steps: seq<Step>, s: State) { Run(states, steps) && states[|steps|] == s }

  ghost predicate Reachable(s: State) { exists states, steps :: EndsIn(states, steps, s) }

  lemma ReachableStart(tuners: nat)
    ensures Reachable(Start(tuners)) && Consistent(Start(tuners))
  {
    assert EndsIn([Start(tuners)], [], Start(tuners));
    RunConsistent([Start(tuners)], [], 0);
  }

  lemma ReachableNext(s: State, step: Step)
    requires Reachable(s) && Consistent(s) && Enabled(s, step)
    ensures Reachable(Do(s, step)) && Consistent(Do(s, step))
  {
    var states, steps :| EndsIn(states, steps, s);
    StepConsistent(s, step);
    assert EndsIn(states + [Do(s, step)], steps + [step], Do(s, step));
  }

  /** Device 0 has had its only tuner, device 1 has it now and has a user. */
  ghost predicate Replaced(s: State, user: string) {
    && |s.runtime| == 1 && 0 in s.devices && s.devices[0] == Device(0, true) && Consistent(s)
    && s.runtime[0].device == Some(1) && user in s.runtime[0].users && s.runtime[0].users[user].refs == 1
  }

  lemma ReplacedIsReachable(user: string)
    requires user != ""
    ensures exists s :: Reachable(s) && Replaced(s, user)
  {
    ReachableStart(1);
    var s1 := Do(Start(1), Acquire(0, 0, 0));
    ReachableNext(Start(1), Acquire(0, 0, 0));
    var s2 := Do(s1, Release(0));
    ReachableNext(s1, Release(0));
    var s3 := Do(s2, Acquire(0, 1, 0));
    ReachableNext(s2, Acquire(0, 1, 0));
    ReachableNext(s3, Join(1, user, 5));
    assert Replaced(Do(s3, Join(1, user, 5)), user);
  }

  /** There a device that is long gone removes the user of the one that replaced it. */
  lemma LateRemovalTouchesNewReservation(s: State, user: string)
    requires Replaced(s, user)
    ensures DeviceOk(s, 0) && RemoveUser(s, 0, user).runtime[0].device == Some(1)
            && user !in RemoveUser(s, 0, user).runtime[0].users
  {}
}
