/**
 How quarantines end: a process that wound its connection up, or a host that booted, gets its tuners back with the next
 hello, and a crash without a boot does not.
 */
module AgentRecover {
  import opened Basics
  import opened AgentProtocol
  import opened AgentSteps
  import opened AgentSafety
  import opened AgentExact

  // ------------------------------------------------------------------- boot ids in use

  ghost predicate Used(b: Option<nat>, next: nat) { b.Some? ==> b.value < next }

  /** Every boot id known anywhere has been given out. */
  ghost predicate Numbered(s: State) {
    && s.next > 0 && (forall c | c in s.info :: Used(s.info[c].hello.boot, s.next))
    && (forall a | a in s.procs :: Used(s.procs[a].boot, s.next)) && forall a | a in s.boots :: s.boots[a] < s.next
  }

  lemma NumberedHandled(s: State, a: AgentId, m: Command)
    requires Numbered(s) && AttachedAt(s, a)
    ensures Numbered(Handled(s, a, m))
  {}

  lemma NumberedReceive(s: State, a: AgentId)
    requires Numbered(s) && CanReceive(s, a)
    ensures Numbered(DoReceive(s, a))
  {
    var c := s.links[a].conn;
    assert Numbered(Popped(s, c));
    if s.links[a].Attached? { NumberedHandled(Popped(s, c), a, Queue(s.toAgent, c)[0]); }
  }

  lemma NumberedCommand(s: State, e: Step)
    requires Numbered(s) && Enabled(s, e) && (e.SendStart? || e.SendStartFails? || e.SendStop?)
    ensures Numbered(Do(s, e))
  {}

  lemma NumberedReport(s: State, a: AgentId)
    requires Numbered(s) && CanReport(s, a)
    ensures Numbered(DoReport(s, a))
  {}

  lemma NumberedSaying(s: State, a: AgentId, d: nat)
    requires Numbered(s)
    ensures CanHello(s, a) ==> Numbered(DoHello(s, a))
    ensures CanSayStopped(s, a, d) ==> Numbered(DoSayStopped(s, a, d))
  {}

  lemma NumberedHub(s: State, e: Step)
    requires Numbered(s) && Enabled(s, e)
    requires e.HubDisconnect? || e.HubCloses? || e.HubShutdown? || e.RegisterSession? || e.StopTimesOut?
             || e.DeviceReleased?
    ensures Numbered(Do(s, e))
  {}

  lemma NumberedStart(s: State, e: Step)
    requires Numbered(s) && Enabled(s, e) && (e.Connect? || e.AgentBoots?)
    ensures Numbered(Do(s, e))
  {}

  lemma NumberedFinish(s: State, a: AgentId)
    requires Numbered(s) && CanFinish(s, a)
    ensures Numbered(DoFinish(s, a))
  {}

  lemma NumberedReboot(s: State, a: AgentId)
    requires Numbered(s)
    ensures Numbered(DoReboot(s, a))
  {}

  lemma NumberedAgent(s: State, e: Step)
    requires Numbered(s) && Enabled(s, e)
    requires e.WorkerExits? || e.AgentSendBreaks? || e.AgentCloses? || e.AgentAbandons? || e.AgentCrashes?
             || e.ReceiverDies?
    ensures Numbered(Do(s, e))
  {}

  lemma NumberedStep(s: State, e: Step)
    requires Numbered(s) && Enabled(s, e)
    ensures Numbered(Do(s, e))
  {
    if e.AgentReceives? { NumberedReceive(s, e.agent); }
    else if e.Connect? || e.AgentBoots? { NumberedStart(s, e); }
    else if e.AgentFinishes? { NumberedFinish(s, e.agent); }
    else if e.HostReboots? { NumberedReboot(s, e.agent); }
    else if e.SendStart? || e.SendStartFails? || e.SendStop? { NumberedCommand(s, e); }
    else if e.HubReceives? { NumberedReport(s, e.agent); }
    else if e.HubHello? { NumberedSaying(s, e.agent, 0); }
    else if e.WorkerReports? { NumberedSaying(s, e.agent, e.session); }
    else if OfHub(e) { NumberedHub(s, e); }
    else { NumberedAgent(s, e); }
  }

  lemma {:induction false} RunNumbered(states: seq<State>, steps: seq<Step>, n: nat)
    requires Run(states, steps) && n < |states|
    ensures Numbered(states[n])
  {
    if n > 0 {
      RunNumbered(states, steps, n - 1);
      assert Next(states[n - 1], steps[n - 1], states[n]);
      NumberedStep(states[n - 1], steps[n - 1]);
    }
  }

  // ------------------------------------------------------------------ one more hello

  /** The process says truthfully that it wound connection `c` up, or the host has booted since. */
  ghost predicate Excused(s: State, a: AgentId, c: nat)
    requires a in s.procs && c in s.info
  {
    var p, said := s.procs[a], s.info[c].hello;
    || (p.instance == said.instance && p.recovered == Some(c))
    || (said.boot.Some? && p.boot.Some? && p.boot != said.boot)
  }

  /** Connecting and saying hello frees a quarantined tuner exactly then. */
  lemma HelloFreesExactly(s: State, k: TunerKey)
    requires Inv(s) && Tidy(s) && k in s.hub.quarantined && Enabled(s, Connect(k.agent))
    ensures s.hub.quarantined[k] in s.info && Enabled(Do(s, Connect(k.agent)), HubHello(k.agent))
    ensures Available(Do(Do(s, Connect(k.agent)), HubHello(k.agent)).hub, k)
            <==> Excused(s, k.agent, s.hub.quarantined[k])
  {
    var c := s.hub.quarantined[k];
    assert KeyShape(s.info, s.hub.registered, s.hub.quarantined, k) && PeerShape(s.info, s.hub.registered, c);
    InvInRange(s);
  }

  // -------------------------------------------------------- winding a connection up

  /** What an agent does that loses its connection and comes back, and what the hub does about it. */
  predicate WindUp(a: AgentId, e: Step) {
    || e == AgentCloses(a) || (e.WorkerExits? && e.agent == a && !e.failed) || (e.WorkerReports? && e.agent == a)
    || e == AgentFinishes(a) || e == HubDisconnect(a) || e == Connect(a) || e == HubHello(a)
  }

  ghost predicate WindPath(s: State, a: AgentId, states: seq<State>, steps: seq<Step>, t: State) {
    && |states| == |steps| + 1 && states[0] == s && states[|steps|] == t
    && forall n {:trigger steps[n]} | 0 <= n < |steps| ::
           Next(states[n], steps[n], states[n + 1]) && WindUp(a, steps[n])
  }

  /** From `s` such steps, and no others, lead to `t`. */
  ghost predicate WindsTo(s: State, a: AgentId, t: State) { exists states, steps :: WindPath(s, a, states, steps, t) }

  lemma WindsNowhere(s: State, a: AgentId)
    ensures WindsTo(s, a, s)
  {
    assert WindPath(s, a, [s], [], s);
  }

  lemma WindPathNext(s: State, a: AgentId, states: seq<State>, steps: seq<Step>, t: State, e: Step)
    requires WindPath(s, a, states, steps, t) && Enabled(t, e) && WindUp(a, e)
    ensures WindPath(s, a, states + [Do(t, e)], steps + [e], Do(t, e))
  {
    var states', steps' := states + [Do(t, e)], steps + [e];
    forall n | 0 <= n < |steps'| ensures Next(states'[n], steps'[n], states'[n + 1]) && WindUp(a, steps'[n]) {
      if n < |steps| { assert Next(states[n], steps[n], states[n + 1]) && WindUp(a, steps[n]); }
    }
  }

  /** A step of it keeps the invariants. */
  lemma Wind(s: State, a: AgentId, t: State, e: Step) returns (t': State)
    requires WindsTo(s, a, t) && Inv(t) && Tidy(t) && Enabled(t, e) && WindUp(a, e)
    ensures t' == Do(t, e) && WindsTo(s, a, t') && Inv(t') && Tidy(t')
  {
    var states, steps :| WindPath(s, a, states, steps, t);
    t' := Do(t, e);
    WindPathNext(s, a, states, steps, t, e);
    StepKeepsInv(t, e);
    InvInRange(t);
    TidyStep(t, e);
  }

  /** The agent is attached to connection `c`, for which the tuner is quarantined, and no cleanup has failed. */
  ghost predicate Leaving(s: State, k: TunerKey, c: nat) {
    && Inv(s) && Tidy(s) && !s.hub.closed && k in s.hub.quarantined && s.hub.quarantined[k] == c
    && AttachedAt(s, k.agent) && s.links[k.agent].conn == c && !s.links[k.agent].cleanupFailed
  }

  lemma {:induction false} WorkersExit(s0: State, s: State, k: TunerKey, c: nat) returns (t: State)
    requires WindsTo(s0, k.agent, s) && Leaving(s, k, c) && !s.links[k.agent].open
    ensures WindsTo(s0, k.agent, t) && Leaving(t, k, c) && !t.links[k.agent].open && t.links[k.agent].workers == map[]
    decreases |s.links[k.agent].workers|
  {
    if s.links[k.agent].workers == map[] {
      t := s;
    } else {
      var d :| d in s.links[k.agent].workers;
      t := Wind(s0, k.agent, s, WorkerExits(k.agent, d, false));
      t := WorkersExit(s0, t, k, c);
    }
  }

  lemma {:induction false} WorkersReport(s0: State, s: State, k: TunerKey, c: nat) returns (t: State)
    requires WindsTo(s0, k.agent, s) && Leaving(s, k, c) && !s.links[k.agent].open && s.links[k.agent].workers == map[]
    ensures WindsTo(s0, k.agent, t) && Leaving(t, k, c) && !t.links[k.agent].open && t.links[k.agent].workers == map[]
    ensures t.links[k.agent].exiting == map[]
    decreases |s.links[k.agent].exiting|
  {
    if s.links[k.agent].exiting == map[] {
      t := s;
    } else {
      var d :| d in s.links[k.agent].exiting;
      t := Wind(s0, k.agent, s, WorkerReports(k.agent, d));
      t := WorkersReport(s0, t, k, c);
    }
  }

  /** The process holds no connection and remembers that it wound `c` up. */
  ghost predicate Left(s: State, k: TunerKey, c: nat) {
    && Inv(s) && Tidy(s) && !s.hub.closed && k in s.hub.quarantined && s.hub.quarantined[k] == c && c in s.info
    && k.agent in s.procs && k.agent !in s.links && s.procs[k.agent].recovered == Some(c)
    && s.info[c].hello.instance == s.procs[k.agent].instance
    && (k.agent in s.hub.connections ==> s.hub.connections[k.agent] == c)
  }

  lemma ProcessLeaves(s0: State, s: State, k: TunerKey, c: nat) returns (t: State)
    requires WindsTo(s0, k.agent, s) && Leaving(s, k, c) && !s.links[k.agent].open
    requires s.links[k.agent].workers == map[] && s.links[k.agent].exiting == map[]
    ensures WindsTo(s0, k.agent, t) && Left(t, k, c)
  {
    var a := k.agent;
    assert LinkShape(s.info, s.procs, s.links, s.boots, a) && SlotShape(s.info, s.hub.connections, a);
    assert ConnShape(s.info, s.hubClosed, s.hub.connections, s.next, c);
    if a in s.hub.connections { assert Newest(s.info, s.links, a, s.hub.connections[a]); }
    t := Wind(s0, a, s, AgentFinishes(a));
  }

  lemma HubNotices(s0: State, s: State, k: TunerKey, c: nat) returns (t: State)
    requires WindsTo(s0, k.agent, s) && Left(s, k, c)
    ensures WindsTo(s0, k.agent, t) && Left(t, k, c) && k.agent !in t.hub.connections
  {
    t := s;
    if k.agent in s.hub.connections { t := Wind(s0, k.agent, s, HubDisconnect(k.agent)); }
  }

  /** An agent that loses a connection and cleans up everywhere gets its tuner back when it has reconnected, and no
      other
      step is needed. */
  lemma WindingUpFrees(s: State, k: TunerKey, c: nat) returns (t: State)
    requires Leaving(s, k, c)
    ensures WindsTo(s, k.agent, t) && Available(t.hub, k)
  {
    WindsNowhere(s, k.agent);
    t := s;
    if s.links[k.agent].open { t := Wind(s, k.agent, s, AgentCloses(k.agent)); }
    t := WorkersExit(s, t, k, c);
    t := WorkersReport(s, t, k, c);
    t := ProcessLeaves(s, t, k, c);
    t := HubNotices(s, t, k, c);
    HelloFreesExactly(t, k);
    var u := Wind(s, k.agent, t, Connect(k.agent));
    t := Wind(s, k.agent, u, HubHello(k.agent));
  }

  // ----------------------------------------------------------- a new process comes up

  ghost predicate Sound(s: State) { Inv(s) && Tidy(s) }

  lemma SoundStep(s: State, e: Step)
    requires Sound(s) && Enabled(s, e) && !Overtakes(s, e)
    ensures Sound(Do(s, e))
  {
    StepKeepsInv(s, e);
    InvInRange(s);
    TidyStep(s, e);
  }

  /** The hub has noticed that the agent is gone. */
  ghost function Noticed(s: State, a: AgentId): State { if a in s.hub.connections then Do(s, HubDisconnect(a)) else s }

  /** That keeps every quarantine as it is. */
  lemma NoticedKeeps(s: State, k: TunerKey)
    requires Sound(s) && k in s.hub.quarantined
    ensures var t := Noticed(s, k.agent);
            && Sound(t) && k.agent !in t.hub.connections && t.hub.closed == s.hub.closed
            && k in t.hub.quarantined && t.hub.quarantined[k] == s.hub.quarantined[k]
            && t.procs == s.procs && t.links == s.links && t.boots == s.boots && t.info == s.info && t.next == s.next
  {
    var a := k.agent;
    if a in s.hub.connections {
      var n := s.hub.connections[a];
      SoundStep(s, HubDisconnect(a));
      if k in KeysOn(s.hub.sessions, a, n) {
        var d :| d in s.hub.sessions && s.hub.sessions[d].conn == n && k == TunerKey(a, s.hub.sessions[d].tuner);
        assert SessionShape(s.hub, s.devices, d) && DeviceShape(s.info, s.devices, s.hub.registered, s.next, d);
        assert SlotShape(s.info, s.hub.connections, a);
      }
    }
  }

  /** A new process, its connection and its hello. */
  ghost predicate ComesUp(s: State, a: AgentId, readable: bool, t: State) {
    && Enabled(s, AgentBoots(a, readable))
    && var s1 := Do(s, AgentBoots(a, readable));
       && Enabled(s1, Connect(a))
       && var s2 := Do(s1, Connect(a));
          Enabled(s2, HubHello(a)) && t == Do(s2, HubHello(a))
  }

  lemma Booted(s: State, k: TunerKey, readable: bool) returns (t: State)
    requires Sound(s) && !s.hub.closed && k in s.hub.quarantined && k.agent !in s.procs && k.agent !in s.hub.connections
    ensures Enabled(s, AgentBoots(k.agent, readable)) && t == Do(s, AgentBoots(k.agent, readable)) && Sound(t)
    ensures Enabled(t, Connect(k.agent)) && t.hub == s.hub && t.info == s.info && s.hub.quarantined[k] in s.info
    ensures var was := s.info[s.hub.quarantined[k]].hello.boot;
            Excused(t, k.agent, s.hub.quarantined[k]) <==> readable && was.Some? && was.value != Boot(s, k.agent)
  {
    var a := k.agent;
    assert LinkShape(s.info, s.procs, s.links, s.boots, a) && KeyShape(s.info, s.hub.registered, s.hub.quarantined, k);
    SoundStep(s, AgentBoots(a, readable));
    t := Do(s, AgentBoots(a, readable));
  }

  /** A new process frees a tuner exactly when the host has booted since and both boot ids could be read. */
  lemma NewProcessFreesExactly(s: State, k: TunerKey, readable: bool) returns (t: State)
    requires Sound(s) && !s.hub.closed && k in s.hub.quarantined && k.agent !in s.procs && k.agent !in s.hub.connections
    ensures s.hub.quarantined[k] in s.info && ComesUp(s, k.agent, readable, t)
    ensures var was := s.info[s.hub.quarantined[k]].hello.boot;
            Available(t.hub, k) <==> readable && was.Some? && was.value != Boot(s, k.agent)
  {
    var s1 := Booted(s, k, readable);
    HelloFreesExactly(s1, k);
    t := Do(Do(s1, Connect(k.agent)), HubHello(k.agent));
  }

  /** So a reboot frees it, once the hub has noticed and if its old boot id was readable. */
  lemma RebootFrees(s: State, k: TunerKey) returns (t: State)
    requires Sound(s) && Numbered(s) && !s.hub.closed && k in s.hub.quarantined
    requires s.hub.quarantined[k] in s.info && s.info[s.hub.quarantined[k]].hello.boot.Some?
    ensures ComesUp(Noticed(Do(s, HostReboots(k.agent)), k.agent), k.agent, true, t) && Available(t.hub, k)
  {
    var c := s.hub.quarantined[k];
    SoundStep(s, HostReboots(k.agent));
    var s1 := Do(s, HostReboots(k.agent));
    NoticedKeeps(s1, k);
    assert Used(s.info[c].hello.boot, s.next);
    t := NewProcessFreesExactly(Noticed(s1, k.agent), k, true);
  }

  /** And a crash without a reboot does not: the quarantine outlasts the hello of the next process. */
  lemma CrashOutlasts(s: State, k: TunerKey, readable: bool) returns (t: State)
    requires Sound(s) && !s.hub.closed && k in s.hub.quarantined && k.agent in s.procs
    requires s.hub.quarantined[k] in s.info && BootIs(s.boots, s.info[s.hub.quarantined[k]].hello.boot, k.agent)
    ensures ComesUp(Noticed(Do(s, AgentCrashes(k.agent)), k.agent), k.agent, readable, t) && !Available(t.hub, k)
  {
    SoundStep(s, AgentCrashes(k.agent));
    var s1 := Do(s, AgentCrashes(k.agent));
    NoticedKeeps(s1, k);
    t := NewProcessFreesExactly(Noticed(s1, k.agent), k, readable);
  }
}
