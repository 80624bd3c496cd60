/** What the protocol is for: a tuner that is asked for gets a receiver, and is free again once it is given back. */
module AgentService {
  import opened AgentProtocol
  import opened AgentSteps
  import opened AgentExact
  import opened AgentSafety

  // ------------------------------------------------------------------ one worker per tuner

  function Workers(links: map<AgentId, Link>, a: AgentId): map<nat, TunerName> {
    if a in links && links[a].Attached? then links[a].workers else map[]
  }

  ghost predicate Distinct(workers: map<nat, TunerName>) {
    forall d, e | d in workers && e in workers && workers[d] == workers[e] :: d == e
  }

  ghost predicate Within(after: map<nat, TunerName>, before: map<nat, TunerName>) {
    forall d | d in after :: d in before && after[d] == before[d]
  }

  lemma WithinDistinct(after: map<nat, TunerName>, before: map<nat, TunerName>)
    requires Within(after, before) && Distinct(before)
    ensures Distinct(after)
  {}

  lemma SpawnDistinct(workers: map<nat, TunerName>, d: nat, t: TunerName)
    requires Distinct(workers) && !Busy(workers, d, t)
    ensures Distinct(workers[d := t])
  {}

  lemma HandledDistinct(s: State, b: AgentId, m: Command, a: AgentId)
    requires AttachedAt(s, b) && Distinct(Workers(s.links, a))
    ensures Distinct(Workers(Handled(s, b, m).links, a))
  {
    if a == b && m.Start? && !Busy(s.links[b].workers, m.session, m.tuner) {
      SpawnDistinct(s.links[b].workers, m.session, m.tuner);
    }
  }

  lemma ReceivedDistinct(s: State, b: AgentId, a: AgentId)
    requires CanReceive(s, b) && Distinct(Workers(s.links, a))
    ensures Distinct(Workers(DoReceive(s, b).links, a))
  {
    var c := s.links[b].conn;
    var m := Queue(s.toAgent, c)[0];
    if s.links[b].Attached? { HandledDistinct(Popped(s, c), b, m, a); }
  }

  /** Only an agent that takes a message gets a new worker. */
  lemma LinksStay(s: State, e: Step, a: AgentId)
    requires Enabled(s, e) && !e.AgentReceives?
    ensures Within(Workers(Do(s, e).links, a), Workers(s.links, a))
  {
    if e.Connect? { ConnectWaits(s, e.agent, a); }
    else if OfHub(e) { HubLeavesLinks(s, e); }
    else { AgentDropsLinks(s, e, a); }
  }

  lemma ConnectWaits(s: State, b: AgentId, a: AgentId)
    requires CanConnect(s, b)
    ensures Workers(DoConnect(s, b).links, a) == Workers(s.links, a)
  {}

  lemma HubLeavesLinks(s: State, e: Step)
    requires Enabled(s, e) && OfHub(e) && !e.Connect?
    ensures Do(s, e).links == s.links
  {
    if e.SendStart? || e.SendStartFails? || e.SendStop? { TellingLeavesLinks(s, e); }
  }

  lemma TellingLeavesLinks(s: State, e: Step)
    requires Enabled(s, e) && (e.SendStart? || e.SendStartFails? || e.SendStop?)
    ensures Do(s, e).links == s.links
  {}

  lemma AgentDropsLinks(s: State, e: Step, a: AgentId)
    requires Enabled(s, e) && !OfHub(e) && !e.AgentReceives?
    ensures Within(Workers(Do(s, e).links, a), Workers(s.links, a))
  {
    if e.WorkerReports? { ReportKeepsLinks(s, e.agent, e.session, a); }
  }

  lemma ReportKeepsLinks(s: State, b: AgentId, d: nat, a: AgentId)
    requires CanSayStopped(s, b, d)
    ensures Workers(DoSayStopped(s, b, d).links, a) == Workers(s.links, a)
  {}

  /** In every run whatever, no agent has two workers on one tuner. */
  lemma {:induction false} OneWorkerPerTuner(states: seq<State>, steps: seq<Step>, n: nat, a: AgentId)
    requires Run(states, steps) && n < |states|
    ensures Distinct(Workers(states[n].links, a))
  {
    if n > 0 {
      OneWorkerPerTuner(states, steps, n - 1, a);
      assert Next(states[n - 1], steps[n - 1], states[n]);
      var s, e := states[n - 1], steps[n - 1];
      if e.AgentReceives? {
        ReceivedDistinct(s, e.agent, a);
      } else {
        LinksStay(s, e, a);
        WithinDistinct(Workers(states[n].links, a), Workers(s.links, a));
      }
    }
  }

  // -------------------------------------------------------------------- a service cycle

  /** The agent is there: its connection is up in both directions, nothing is on its way, and no worker is on the
      tuner, which the hub may hand out. */
  ghost predicate Idle(s: State, k: TunerKey, c: nat) {
    && Inv(s) && CanRegister(s, k) && s.hub.connections[k.agent] == c && c !in s.hubClosed && c !in s.agentClosed
    && AttachedAt(s, k.agent) && s.links[k.agent].conn == c && s.links[k.agent].open
    && Queue(s.toAgent, c) == [] && Queue(s.toHub, c) == []
    && forall w | w in s.links[k.agent].workers :: s.links[k.agent].workers[w] != k.tuner
  }

  /** Session d of the tuner is listed, its connection c is up, and these messages are on their way. */
  ghost predicate Up(s: State, k: TunerKey, c: nat, d: nat, commands: seq<Command>, reports: seq<Report>) {
    && d in s.devices && s.devices[d] == Session(k.agent, k.tuner, c)
    && d in s.hub.sessions && s.hub.sessions[d] == s.devices[d] && d !in s.flags.cleaned
    && (forall e | e in s.devices && e != d && KeyOf(s.devices[e]) == k :: e in s.flags.released)
    && Available(s.hub, k) && s.hub.connections[k.agent] == c && c !in s.hubClosed && c !in s.agentClosed
    && AttachedAt(s, k.agent) && s.links[k.agent].conn == c && s.links[k.agent].open
    && Queue(s.toAgent, c) == commands && Queue(s.toHub, c) == reports
  }

  /** Its worker is in the table and its receiver alive. */
  ghost predicate Served(s: State, k: TunerKey, c: nat, d: nat) {
    && Up(s, k, c, d, [], []) && d in s.flags.started && d !in s.flags.stopSent
    && d in s.links[k.agent].workers && s.links[k.agent].workers[d] == k.tuner && d in s.alive
    && d !in s.links[k.agent].exiting
  }

  lemma NewSession(s: State, k: TunerKey, c: nat)
    requires Idle(s, k, c)
    ensures var d := s.next;
            && d !in s.devices && d !in s.hub.sessions && d !in s.flags.started && d !in s.flags.stopSent
            && d !in s.flags.cleaned && d !in s.links[k.agent].workers && d !in s.links[k.agent].exiting
  {
    var d := s.next;
    assert DeviceShape(s.info, s.devices, s.hub.registered, s.next, d);
    assert FlagShape(s.hub, s.devices, s.flags, s.hubClosed, d) && SessionShape(s.hub, s.devices, d);
    assert WorkerShape(View(s.devices, s.alive, s.toAgent, s.links), s.flags.sent, k.agent, d);
  }

  lemma Registering(s: State, k: TunerKey, c: nat)
    requires Idle(s, k, c)
    ensures var t := DoRegister(s, k);
            && Up(t, k, c, s.next, [], []) && s.next !in t.flags.started && s.next !in t.flags.stopSent
            && !Busy(t.links[k.agent].workers, s.next, k.tuner) && s.next !in t.links[k.agent].exiting
  {
    NewSession(s, k, c);
  }

  lemma Starting(s: State, k: TunerKey, c: nat, d: nat)
    requires Up(s, k, c, d, [], []) && d !in s.flags.started && d !in s.flags.stopSent
             && !Busy(s.links[k.agent].workers, d, k.tuner)
    ensures CanStart(s, d, true)
            && var t := DoStart(s, d, true, false);
               && Up(t, k, c, d, [Start(d, k.tuner)], []) && d in t.flags.started && d !in t.flags.stopSent
               && t.links == s.links
  {}

  lemma Spawning(s: State, k: TunerKey, c: nat, d: nat)
    requires Up(s, k, c, d, [Start(d, k.tuner)], []) && d in s.flags.started && d !in s.flags.stopSent
             && !Busy(s.links[k.agent].workers, d, k.tuner) && d !in s.links[k.agent].exiting
    ensures CanReceive(s, k.agent) && Served(DoReceive(s, k.agent), k, c, d)
  {}

  /** A tuner that may be handed out gets a receiver of its own: the session is registered and started, and the agent
      takes the command. */
  lemma ServiceStarts(s0: State, s: State, k: TunerKey, c: nat) returns (t: State)
    requires Leads(s0, s) && Idle(s, k, c)
    ensures Leads(s0, t) && Served(t, k, c, s.next)
  {
    Registering(s, k, c);
    t := Then(s0, s, RegisterSession(k));
    Starting(t, k, c, s.next);
    t := Then(s0, t, SendStart(s.next));
    Spawning(t, k, c, s.next);
    t := Then(s0, t, AgentReceives(k.agent));
  }

  lemma Stopping(s: State, k: TunerKey, c: nat, d: nat)
    requires Served(s, k, c, d)
    ensures var t := DoStop(s, d);
            Up(t, k, c, d, [Stop(d)], []) && d in t.links[k.agent].workers && d !in t.links[k.agent].exiting
  {}

  lemma Told(s: State, k: TunerKey, c: nat, d: nat)
    requires Up(s, k, c, d, [Stop(d)], []) && d in s.links[k.agent].workers && d !in s.links[k.agent].exiting
    ensures CanReceive(s, k.agent) && !Overtakes(s, AgentReceives(k.agent))
            && var t := DoReceive(s, k.agent); Up(t, k, c, d, [], []) && d in t.links[k.agent].workers
  {}

  lemma Exiting(s: State, k: TunerKey, c: nat, d: nat)
    requires Up(s, k, c, d, [], []) && d in s.links[k.agent].workers
    ensures var t := DoExit(s, k.agent, d, false);
            && Up(t, k, c, d, [], []) && d in t.links[k.agent].exiting && !t.links[k.agent].exiting[d] && d !in t.alive
  {}

  lemma Saying(s: State, k: TunerKey, c: nat, d: nat)
    requires Up(s, k, c, d, [], []) && d in s.links[k.agent].exiting && !s.links[k.agent].exiting[d] && d !in s.alive
    ensures var t := DoSayStopped(s, k.agent, d); Up(t, k, c, d, [], [Stopped(d, false)]) && d !in t.alive
  {}

  lemma Hearing(s: State, k: TunerKey, c: nat, d: nat)
    requires Up(s, k, c, d, [], [Stopped(d, false)]) && d !in s.alive
    ensures CanReport(s, k.agent)
            && var t := DoReport(s, k.agent);
               && d in t.devices && d in t.flags.cleaned && d !in t.alive && Available(t.hub, k) && d !in t.hub.sessions
               && forall e | e in t.devices && e != d && KeyOf(t.devices[e]) == k :: e in t.flags.released
  {}

  lemma WorkerLeaves(s0: State, s: State, k: TunerKey, c: nat, d: nat) returns (t: State)
    requires Leads(s0, s) && Up(s, k, c, d, [], []) && d in s.links[k.agent].workers
    ensures Leads(s0, t) && Up(t, k, c, d, [], [Stopped(d, false)]) && d !in t.alive
  {
    Exiting(s, k, c, d);
    t := Then(s0, s, WorkerExits(k.agent, d, false));
    Saying(t, k, c, d);
    t := Then(s0, t, WorkerReports(k.agent, d));
  }

  /** One that is served is free again once its session is stopped, its worker has cleaned up and said so, and the
      device is given back. */
  lemma ServiceEnds(s0: State, s: State, k: TunerKey, c: nat, d: nat) returns (t: State)
    requires Leads(s0, s) && Served(s, k, c, d)
    ensures Leads(s0, t) && CanRegister(t, k) && d !in t.alive && d !in t.hub.sessions
  {
    Stopping(s, k, c, d);
    t := Then(s0, s, SendStop(d));
    Told(t, k, c, d);
    t := Then(s0, t, AgentReceives(k.agent));
    t := WorkerLeaves(s0, t, k, c, d);
    Hearing(t, k, c, d);
    t := Then(s0, t, HubReceives(k.agent));
    t := Then(s0, t, DeviceReleased(d));
  }
}
