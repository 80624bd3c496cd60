/** Choosing a tuner, and the manager's operations (internal/tuner/manager.go, status.go). */
module TunerManager {
  import opened Basics
  import opened TunerModel

  datatype Kind = Unsupported | Command | Dvb | Agent

  datatype Tuner = Tuner(groups: set<string>, disabled: bool, kind: Kind)

  /** The configured tuners, whether there is an agent hub, and which agent tuners it says are available. */
  datatype Site = Site(tuners: seq<Tuner>, hub: bool, online: set<nat>)

  datatype Verdict = Possible | NotFound | UnsupportedTuner | Unavailable

  /** A device that would have to give way. */
  datatype Victim = Victim(device: nat, tuner: nat, priority: int)

  datatype Attempt = Attempt(device: Option<nat>, tuner: nat, found: bool, usable: bool, victim: Option<Victim>)

  // --------------------------------------------------------------------- priorities

  /** The highest of the reservation's priority and its users'. */
  ghost predicate IsEffective(r: Runtime, p: int) {
    && p >= r.priority && (forall u | u in r.users :: r.users[u].priority <= p)
    && (p == r.priority || exists u | u in r.users :: r.users[u].priority == p)
  }

  method EffectivePriority(r: Runtime) returns (p: int)
    ensures IsEffective(r, p)
  {
    p := r.priority;
    var todo := r.users.Keys;
    while todo != {}
      invariant todo <= r.users.Keys && p >= r.priority
      invariant forall u | u in r.users && u !in todo :: r.users[u].priority <= p
      invariant p == r.priority || exists u | u in r.users :: r.users[u].priority == p
      decreases todo
    {
      var u :| u in todo;
      todo := todo - {u};
      if r.users[u].priority > p { p := r.users[u].priority; }
    }
  }

  /** The request outranks whoever has the tuner. */
  ghost predicate Outranks(priority: int, r: Runtime) { exists p :: IsEffective(r, p) && priority > p }

  lemma EffectiveUnique(r: Runtime, p: int, q: int)
    requires IsEffective(r, p) && IsEffective(r, q)
    ensures p == q
  {}

  lemma OutranksIs(priority: int, r: Runtime, p: int)
    requires IsEffective(r, p)
    ensures Outranks(priority, r) <==> priority > p
  {}

  // -------------------------------------------------------------------- late users

  /** A user that a departed device adds to a free tuner is still there when the tuner is next reserved. */
  ghost function NextReservation(s: State, d: nat, user: string, userPriority: int, e: nat, priority: int): State
    requires DeviceOk(s, d) && d in s.devices
  {
    Reserve(AddUser(s, d, user, userPriority), s.devices[d].tuner, e, priority)
  }

  /** It then counts for the new device: the reservation's effective priority is at least the user's, and from a record
      without other users it is the priority that was asked for exactly when the late user's is no higher. */
  lemma LateUserCountsForNext(s: State, d: nat, user: string, userPriority: int, e: nat, priority: int, p: int)
    requires Consistent(s) && d in s.devices && s.devices[d].released && user != ""
    ensures DeviceOk(s, d)
    ensures var r := NextReservation(s, d, user, userPriority, e, priority).runtime[s.devices[d].tuner];
            && r.device == Some(e) && user in r.users && r.users[user].priority == userPriority
            && (IsEffective(r, p) ==> p >= userPriority)
            && (Outranks(p, r) ==> p > userPriority)
            && (s.runtime[s.devices[d].tuner].users == map[] ==>
                   (IsEffective(r, priority) <==> userPriority <= priority))
  {
    assert DeviceOk(s, d);
  }

  /** And it happens: from every reachable state in which that tuner is free. */
  lemma LateUserIsReachable(s: State, d: nat, user: string, userPriority: int, e: nat, priority: int)
    requires Reachable(s) && Consistent(s) && d in s.devices && s.devices[d].tuner !in s.inUse && e !in s.devices
    ensures DeviceOk(s, d) && Reachable(NextReservation(s, d, user, userPriority, e, priority))
  {
    assert DeviceOk(s, d);
    ReachableNext(s, Join(d, user, userPriority));
    ReachableNext(Do(s, Join(d, user, userPriority)), Acquire(s.devices[d].tuner, e, priority));
  }

  // ---------------------------------------------------------------------- candidates

  predicate Matching(site: Site, channel: string, i: int) {
    0 <= i < |site.tuners| && !site.tuners[i].disabled && channel in site.tuners[i].groups
  }

  predicate Usable(site: Site, i: int) { 0 <= i < |site.tuners| && site.tuners[i].kind != Unsupported }

  predicate Available(site: Site, i: int) {
    0 <= i < |site.tuners| && (site.tuners[i].kind == Agent ==> site.hub && i in site.online)
  }

  /** A device can be made for the tuner. */
  predicate Makes(site: Site, i: int) { Usable(site, i) && (site.tuners[i].kind == Agent ==> site.hub) }

  predicate Eligible(site: Site, s: State, channel: string, i: int) {
    && Matching(site, channel, i) && Usable(site, i) && i < |s.runtime| && !s.runtime[i].fault && Available(site, i)
  }

  predicate Free(site: Site, s: State, channel: string, i: int) { Eligible(site, s, channel, i) && i !in s.inUse }

  ghost predicate Grabbable(site: Site, s: State, channel: string, priority: int, i: int) {
    Eligible(site, s, channel, i) && i in s.inUse && s.runtime[i].device.Some? && Outranks(priority, s.runtime[i])
  }

  /** What a request can expect. */
  ghost function Expected(site: Site, s: State, channel: string, priority: int): Verdict {
    if exists i :: Free(site, s, channel, i) || Grabbable(site, s, channel, priority, i) then Possible
    else if !exists i :: Matching(site, channel, i) then NotFound
    else if !exists i :: Matching(site, channel, i) && Usable(site, i) then UnsupportedTuner
    else Unavailable
  }

  ghost function All(n: nat): (all: set<int>)
    ensures forall i :: i in all <==> 0 <= i < n
  {
    if n == 0 then {} else All(n - 1) + {n - 1}
  }

  /** The tuner visited at an offset from the starting point, round the list. */
  function Turn(start: nat, offset: nat, n: nat): nat
    requires start < n && offset < n
  {
    if start + offset < n then start + offset else start + offset - n
  }

  lemma TurnsCover(start: nat, n: nat, i: nat)
    requires start < n && i < n
    ensures exists offset | 0 <= offset < n :: Turn(start, offset, n) == i
  {
    var offset := if i >= start then i - start else i + n - start;
    assert Turn(start, offset, n) == i;
  }

  /** The first free tuner in turn. */
  ghost predicate FirstFree(site: Site, s: State, channel: string, start: nat, i: nat)
    requires start < |site.tuners|
  {
    exists o: nat | o < |site.tuners| ::
      && Turn(start, o, |site.tuners|) == i && Free(site, s, channel, i)
      && forall p: nat | p < o :: !Free(site, s, channel, Turn(start, p, |site.tuners|))
  }

  // ------------------------------------------------------------------------ taking turns

  /** How many turns from `start` to `j`. */
  function Distance(start: nat, j: nat, n: nat): nat
    requires start < n && j < n
  {
    if j >= start then j - start else j + n - start
  }

  lemma FirstIsNearest(site: Site, s: State, channel: string, start: nat, i: nat, j: nat)
    requires start < |site.tuners| && FirstFree(site, s, channel, start, i) && Free(site, s, channel, j)
    ensures i < |site.tuners| && j < |site.tuners|
            && Distance(start, i, |site.tuners|) <= Distance(start, j, |site.tuners|)
  {
    var n := |site.tuners|;
    var o: nat :| o < n && Turn(start, o, n) == i && Free(site, s, channel, i)
                  && forall p: nat | p < o :: !Free(site, s, channel, Turn(start, p, n));
    assert Turn(start, Distance(start, j, n), n) == j && Turn(start, Distance(start, i, n), n) == i;
    assert o == Distance(start, i, n);
  }

  function Behind(i: nat, n: nat): nat
    requires i < n
  {
    if i + 1 < n then i + 1 else 0
  }

  lemma BehindIs(i: nat, n: nat)
    requires i < n
    ensures (i + 1) % n == Behind(i, n)
  {}

  lemma NextIsNearer(start: nat, i: nat, j: nat, n: nat)
    requires start < n && i < n && j < n && i != j && Distance(start, i, n) <= Distance(start, j, n)
    ensures Distance(Behind(i, n), j, n) == Distance(start, j, n) - Distance(start, i, n) - 1
  {}

  /** One reservation for a channel: where the search started, what was found free first. */
  datatype Grant = Grant(site: Site, state: State, start: nat, tuner: nat)

  /** Successive reservations for a channel; whatever happens in between, the next search starts behind the last. */
  ghost predicate InTurn(channel: string, n: nat, grants: seq<Grant>) {
    && (forall k | 0 <= k < |grants| ::
          var g := grants[k]; |g.site.tuners| == n && g.start < n && FirstFree(g.site, g.state, channel, g.start,
              g.tuner))
    && (forall k | 0 <= k < |grants| - 1 :: grants[k + 1].start == (grants[k].tuner + 1) % n)
  }

  /** A tuner that is free whenever the channel is asked for is reserved after no more reservations than there are
      turns to it, so within one round of all tuners. */
  lemma {:induction false} NobodyIsPassedOver(channel: string, n: nat, grants: seq<Grant>, j: nat)
    requires InTurn(channel, n, grants) && j < n && grants != []
    requires forall k | 0 <= k < |grants| :: Free(grants[k].site, grants[k].state, channel, j)
    requires |grants| > Distance(grants[0].start, j, n)
    ensures exists k :: 0 <= k < |grants| && grants[k].tuner == j
    decreases |grants|
  {
    var g := grants[0];
    FirstIsNearest(g.site, g.state, channel, g.start, g.tuner, j);
    if g.tuner != j {
      NextIsNearer(g.start, g.tuner, j, n);
      BehindIs(g.tuner, n);
      var rest := grants[1..];
      assert rest[0].start == (g.tuner + 1) % n;
      assert forall k | 0 <= k < |rest| :: rest[k] == grants[k + 1];
      NobodyIsPassedOver(channel, n, rest, j);
      var k :| 0 <= k < |rest| && rest[k].tuner == j;
      assert grants[k + 1].tuner == j;
    }
  }

  /** What an attempt that reserved nothing says is what was to be expected. */
  lemma AttemptAsExpected(site: Site, s: State, channel: string, priority: int, a: Attempt)
    requires Looked(site, s, channel, priority, All(|site.tuners|), a) && forall i :: !Free(site, s, channel, i)
    ensures Expected(site, s, channel, priority)
         == if a.victim.Some? then Possible else if !a.found then NotFound else if !a.usable then UnsupportedTuner
             else Unavailable
  {}

  /** The best victim among the tuners visited so far. */
  ghost predicate VictimOk(site: Site, s: State, channel: string, priority: int, seen: set<int>, v: Option<Victim>) {
    match v
    case None => forall i | i in seen :: !Grabbable(site, s, channel, priority, i)
    case Some(x) =>
      && x.tuner in seen && Grabbable(site, s, channel, priority, x.tuner)
      && s.runtime[x.tuner].device == Some(x.device) && IsEffective(s.runtime[x.tuner], x.priority)
           && x.priority < priority
      && forall i, p | i in seen && Grabbable(site, s, channel, priority, i) && IsEffective(s.runtime[i], p) ::
             x.priority <= p
  }

  /** An attempt that has looked at these tuners. */
  ghost predicate Looked(site: Site, s: State, channel: string, priority: int, seen: set<int>, a: Attempt) {
    && (a.found <==> exists k :: k in seen && Matching(site, channel, k))
    && (a.usable <==> exists k :: k in seen && Matching(site, channel, k) && Usable(site, k))
    && VictimOk(site, s, channel, priority, seen, a.victim)
  }

  ghost function Seen(start: nat, offset: nat, n: nat): set<int>
    requires start < n && offset <= n
  {
    if offset == 0 then {} else Seen(start, offset - 1, n) + {Turn(start, offset - 1, n)}
  }

  lemma {:induction false} SeenTurns(start: nat, offset: nat, n: nat, o: nat)
    requires start < n && o < offset <= n
    ensures Turn(start, o, n) in Seen(start, offset, n)
  {
    if o < offset - 1 { SeenTurns(start, offset - 1, n, o); }
  }

  lemma {:induction false} SeenWithin(start: nat, offset: nat, n: nat)
    requires start < n && offset <= n
    ensures forall i | i in Seen(start, offset, n) :: 0 <= i < n
  {
    if offset > 0 { SeenWithin(start, offset - 1, n); }
  }

  lemma SeenAll(start: nat, n: nat)
    requires start < n
    ensures Seen(start, n, n) == All(n)
  {
    SeenWithin(start, n, n);
    forall i | 0 <= i < n ensures i in Seen(start, n, n) {
      TurnsCover(start, n, i);
      var o :| 0 <= o < n && Turn(start, o, n) == i;
      SeenTurns(start, n, n, o);
    }
  }

  class Manager {
    const tuners: seq<Tuner>
    const hub: bool
    var online: set<nat>
    var inUse: set<nat>
    var runtime: seq<Runtime>
    var nextByType: map<string, nat>
    var devices: map<nat, Device>
    var next: nat

    function S(): State
      reads this
    {
      State(inUse, runtime, devices)
    }

    function Here(): Site
      reads this
    {
      Site(tuners, hub, online)
    }

    ghost predicate Valid()
      reads this
    {
      && Consistent(S()) && |runtime| == |tuners| && (forall d | d in devices :: d < next)
      && forall t | t in nextByType :: nextByType[t] < |tuners|
    }

    constructor (tuners: seq<Tuner>, hub: bool)
      ensures Valid() && S() == Start(|tuners|) && this.tuners == tuners && this.hub == hub
    {
      this.tuners, this.hub, online := tuners, hub, {};
      inUse, runtime, nextByType, devices, next := {}, seq(|tuners|, i => IDLE), map[], map[], 0;
      new;
      forall i ensures TunerOk(S(), i) {}
      forall d ensures DeviceOk(S(), d) {}
    }

    // ----------------------------------------------------------------- acquiring

    /** Whether a request could be served now. */
    method CheckAvailable(channel: string, priority: int) returns (v: Verdict)
      requires Valid()
      ensures v == Expected(Here(), S(), channel, priority)
    {
      var found, usable := false, false;
      for i := 0 to |tuners|
        invariant found <==> exists k :: 0 <= k < i && Matching(Here(), channel, k)
        invariant usable <==> exists k :: 0 <= k < i && Matching(Here(), channel, k) && Usable(Here(), k)
        invariant forall k | 0 <= k < i ::
                    !Free(Here(), S(), channel, k) && !Grabbable(Here(), S(), channel, priority, k)
      {
        assert TunerOk(S(), i);
        if !Matching(Here(), channel, i) { continue; }
        found := true;
        if !Usable(Here(), i) { continue; }
        usable := true;
        if runtime[i].fault || !Available(Here(), i) { continue; }
        if i !in inUse {
          assert Free(Here(), S(), channel, i);
          return Possible;
        }
        var p := EffectivePriority(runtime[i]);
        OutranksIs(priority, runtime[i], p);
        if runtime[i].device.Some? && priority > p {
          assert Grabbable(Here(), S(), channel, priority, i);
          return Possible;
        }
      }
      v := if !found then NotFound else if !usable then UnsupportedTuner else Unavailable;
    }

    /** Reserves the first free tuner from where the last search for this type ended, or names the
        busy tuner of least priority below the request's. */
    method TryAcquire(channel: string, priority: int) returns (a: Attempt)
      requires Valid()
      modifies this
      ensures Valid() && online == old(online)
      ensures a.device.Some? <==> exists i :: Free(old(Here()), old(S()), channel, i)
      ensures a.device.Some? ==>
                && Free(old(Here()), old(S()), channel, a.tuner) && a.device.value !in old(devices)
                && a.tuner < |old(runtime)| && S() == Reserve(old(S()), a.tuner, a.device.value, priority)
                && FirstFree(old(Here()), old(S()), channel,
                     if channel in old(nextByType) then old(nextByType)[channel] else 0, a.tuner)
                && nextByType == old(nextByType)[channel := (a.tuner + 1) % |tuners|]
      ensures a.device.Some? ==>
                var t := tuners[a.tuner];
                && !t.disabled && channel in t.groups && t.kind != Unsupported && a.tuner !in old(inUse)
                && !old(runtime)[a.tuner].fault && (t.kind == Agent ==> hub && a.tuner in old(online))
      ensures a.device.None? ==>
                S() == old(S()) && Looked(Here(), S(), channel, priority, All(|tuners|), a)
      ensures a.device.None? && a.victim.Some? ==>
                var v := a.victim.value;
                && v.tuner < |tuners| && v.tuner < |runtime| && var t := tuners[v.tuner];
                && !t.disabled && channel in t.groups && v.tuner in inUse && runtime[v.tuner].device == Some(v.device)
                && runtime[v.tuner].priority < priority
                && forall u | u in runtime[v.tuner].users :: runtime[v.tuner].users[u].priority < priority
      ensures Expected(old(Here()), old(S()), channel, priority)
           == if a.device.Some? || a.victim.Some? then Possible
              else if !a.found then NotFound else if !a.usable then UnsupportedTuner else Unavailable
    {
      if |tuners| == 0 {
        a := Attempt(None, 0, false, false, None);
        AttemptAsExpected(Here(), S(), channel, priority, a);
        return;
      }
      var start := if channel in nextByType then nextByType[channel] else 0;
      var hit;
      a, hit := Search(channel, priority, start);
      if hit {
        a := a.(device := Some(next));
        nextByType := nextByType[channel := (a.tuner + 1) % |tuners|];
        ReserveNext(a.tuner, priority);
      } else {
        AttemptAsExpected(Here(), S(), channel, priority, a);
      }
    }

    /** Visits the tuners in turn until one is free. */
    method Search(channel: string, priority: int, start: nat) returns (a: Attempt, hit: bool)
      requires Valid() && start < |tuners|
      ensures a.device == None
      ensures hit ==> FirstFree(Here(), S(), channel, start, a.tuner)
      ensures !hit ==> (forall i :: !Free(Here(), S(), channel, i)) && Looked(Here(), S(), channel, priority,
              All(|tuners|), a)
    {
      var n := |tuners|;
      a, hit := Attempt(None, 0, false, false, None), false;
      for offset := 0 to n
        invariant a.device == None
        invariant forall o: nat | o < offset :: !Free(Here(), S(), channel, Turn(start, o, n))
        invariant Looked(Here(), S(), channel, priority, Seen(start, offset, n), a)
      {
        var i := Turn(start, offset, n);
        if Free(Here(), S(), channel, i) { return a.(tuner := i), true; }
        a := Visit(channel, priority, a, i, Seen(start, offset, n));
      }
      SeenAll(start, n);
      forall i ensures !Free(Here(), S(), channel, i) {
        if 0 <= i < n { TurnsCover(start, n, i); }
      }
    }

    method Visit(channel: string, priority: int, a: Attempt, i: nat, ghost seen: set<int>) returns (b: Attempt)
      requires Valid() && i < |tuners| && Looked(Here(), S(), channel, priority, seen, a)
      ensures b.device == a.device && b.tuner == a.tuner && Looked(Here(), S(), channel, priority, seen + {i}, b)
    {
      b := a;
      if !Matching(Here(), channel, i) { return; }
      b := b.(found := true);
      if !Usable(Here(), i) { return; }
      b := b.(usable := true);
      if runtime[i].fault || !Available(Here(), i) { return; }
      if i in inUse {
        var v := BetterVictim(channel, priority, a.victim, i, seen);
        b := b.(victim := v);
      }
    }

    method BetterVictim(channel: string, priority: int, current: Option<Victim>, i: nat,
                        ghost seen: set<int>) returns (v: Option<Victim>)
      requires Valid() && i < |tuners| && i in inUse && Eligible(Here(), S(), channel, i)
      requires VictimOk(Here(), S(), channel, priority, seen, current)
      ensures VictimOk(Here(), S(), channel, priority, seen + {i}, v)
    {
      if runtime[i].device.None? { return current; }
      var p := EffectivePriority(runtime[i]);
      OutranksIs(priority, runtime[i], p);
      forall q | IsEffective(runtime[i], q) ensures q == p { EffectiveUnique(runtime[i], p, q); }
      if priority <= p { return current; }
      if current.Some? && current.value.priority <= p { return current; }
      return Some(Victim(runtime[i].device.value, i, p));
    }

    method ReserveNext(i: nat, priority: int)
      requires Valid() && i < |tuners| && i !in inUse && Makes(Here(), i)
      modifies this`inUse, this`runtime, this`devices, this`next
      ensures Valid() && old(next) !in old(devices) && i < |old(runtime)|
              && S() == Reserve(old(S()), i, old(next), priority)
    {
      ReserveConsistent(S(), i, next, priority);
      inUse := inUse + {i};
      var r := runtime[i].(inUse := true, running := false, stopped := false, device := Some(next));
      runtime := runtime[i := r.(priority := priority)];
      devices := devices[next := Device(i, false)];
      next := next + 1;
    }

    // ------------------------------------------------------------------ devices

    /** A device stops and gives its tuner back, the first time it is asked to. */
    method Stop(d: nat)
      requires Valid() && d in devices && DeviceOk(S(), d)
      modifies this
      ensures Valid() && S() == ReleaseOnce(old(S()), d)
    {
      ReleaseConsistent(S(), d);
      if devices[d].released { return; }
      var i := devices[d].tuner;
      devices := devices[d := Device(i, true)];
      if i in inUse {
        inUse := inUse - {i};
        runtime := runtime[i := IDLE];
      }
    }

    /** A start that fails marks the tuner and gives it back, which clears the mark again. */
    method FailStart(d: nat)
      requires Valid() && d in devices && DeviceOk(S(), d)
      modifies this
      ensures Valid() && DeviceOk(old(S()), d) && S() == ReleaseOnce(old(S()), d)
    {
      ghost var before := S();
      assert TunerOk(before, devices[d].tuner);
      Report(d, Fault);
      assert DeviceOk(S(), d);
      Stop(d);
      assert runtime == ReleaseOnce(before, d).runtime;
    }

    /** A device reports that it runs, has stopped or has failed. */
    method Report(d: nat, c: Callback)
      requires Valid() && d in devices && DeviceOk(S(), d)
      modifies this
      ensures Valid() && S() == Mark(old(S()), d, c)
    {
      var i := devices[d].tuner;
      if !runtime[i].inUse || runtime[i].device != Some(d) { return; }
      TouchConsistent(S(), i, Marked(runtime[i], c));
      runtime := runtime[i := Marked(runtime[i], c)];
    }

    method AddUserOf(d: nat, user: string, priority: int)
      requires Valid() && d in devices && DeviceOk(S(), d)
      modifies this
      ensures Valid() && S() == AddUser(old(S()), d, user, priority)
    {
      var i := devices[d].tuner;
      TouchConsistent(S(), i, WithUser(runtime[i], user, priority));
      runtime := runtime[i := WithUser(runtime[i], user, priority)];
    }

    method RemoveUserOf(d: nat, user: string)
      requires Valid() && d in devices && DeviceOk(S(), d)
      modifies this
      ensures Valid() && S() == RemoveUser(old(S()), d, user)
    {
      var i := devices[d].tuner;
      TouchConsistent(S(), i, WithoutUser(runtime[i], user));
      runtime := runtime[i := WithoutUser(runtime[i], user)];
    }

    /** Stopping whatever device a tuner has; an unknown tuner is an error. */
    method KillProcess(index: int) returns (found: bool)
      requires Valid()
      modifies this
      ensures Valid() && (found <==> 0 <= index < |tuners|)
      ensures !found ==> S() == old(S())
      ensures found ==> index !in inUse && inUse == old(inUse) - {index}
      ensures found ==> forall i | 0 <= i < |tuners| && i != index :: runtime[i] == old(runtime)[i]
    {
      if index < 0 || index >= |tuners| { return false; }
      assert TunerOk(S(), index);
      if runtime[index].device.Some? {
        assert DeviceOk(S(), runtime[index].device.value);
        Stop(runtime[index].device.value);
      }
      return true;
    }
  }
}
