/**
 The excluded race is real: when a stop is answered while a failed cleanup is still to be
 reported, the hub frees the tuner and a second receiver starts beside the first.
 */
module AgentRace {
  import opened AgentProtocol

  ghost predicate EndsIn(states: seq<State>, steps: seq<Step>, s: State) { Run(states, steps) && states[|steps|] == s }

  ghost predicate Reachable(s: State) { exists states, steps :: EndsIn(states, steps, s) }

  lemma Then(s: State, e: Step) returns (s': State)
    requires Reachable(s) && Enabled(s, e)
    ensures s' == Do(s, e) && Reachable(s')
  {
    var states, steps :| EndsIn(states, steps, s);
    s' := Do(s, e);
    Extended(states, steps, e, s');
  }

  lemma Extended(states: seq<State>, steps: seq<Step>, e: Step, t: State)
    requires Run(states, steps) && Next(states[|steps|], e, t)
    ensures EndsIn(states + [t], steps + [e], t)
  {
    var states', steps' := states + [t], steps + [e];
    forall n | 0 <= n < |steps'| ensures Next(states'[n], steps'[n], states'[n + 1]) {
      if n < |steps| { assert Next(states[n], steps[n], states[n + 1]); }
    }
  }

  lemma AgentDials(a: AgentId) returns (s: State, c: nat)
    ensures Reachable(s) && CanHello(s, a) && s.hub.connections[a] == c
    ensures s.hub.quarantined == map[] && s.hub.sessions == map[] && s.hubClosed == {} && s.agentClosed == {}
    ensures s.toAgent == map[] && s.toHub == map[] && s.devices == map[] && s.flags == Flags({}, {}, {}, {}, {})
    ensures s.links == map[a := Waiting(c)] && s.alive == {}
  {
    s := Initial();
    assert EndsIn([s], [], s);
    s := Then(s, AgentBoots(a, true));
    s := Then(s, Connect(a));
    c := s.hub.connections[a];
  }

  /** A reachable moment of a run with one agent, one connection c, and no quarantine. */
  ghost predicate Scene(s: State, k: TunerKey, c: nat, link: Link, toAgent: seq<Command>, toHub: seq<Report>,
                        sessions: map<nat, Session>, devices: map<nat, Session>, flags: Flags, alive: set<nat>)
  {
    && Reachable(s)
    && !s.hub.closed && k.agent in s.hub.connections && s.hub.connections[k.agent] == c && c in s.hub.registered
    && s.hub.quarantined == map[] && s.hub.sessions == sessions && s.hubClosed == {} && s.agentClosed == {}
    && Queue(s.toAgent, c) == toAgent && Queue(s.toHub, c) == toHub
    && k.agent in s.links && s.links[k.agent] == link
    && s.devices == devices && s.flags == flags && s.alive == alive
    && (forall d | d in devices :: d < s.next)
  }

  function Working(c: nat, workers: map<nat, TunerName>, exiting: map<nat, bool>): Link {
    Attached(c, true, workers, exiting, exiting != map[])
  }

  function Of(k: TunerKey, c: nat): Session { Session(k.agent, k.tuner, c) }

  const NoFlags := Flags({}, {}, {}, {}, {})

  lemma AgentConnects(k: TunerKey) returns (s: State, c: nat)
    ensures Scene(s, k, c, Working(c, map[], map[]), [], [], map[], map[], NoFlags, {})
  {
    s, c := AgentDials(k.agent);
    s := Then(s, HubHello(k.agent));
    s := Then(s, AgentReceives(k.agent));
  }

  lemma SessionStarts(k: TunerKey) returns (s: State, c: nat, d: nat)
    ensures Scene(s, k, c, Working(c, map[], map[]), [Start(d, k.tuner)], [], map[d := Of(k, c)], map[d := Of(k, c)],
                  NoFlags.(started := {d}, sent := {d}), {})
  {
    s, c := AgentConnects(k);
    d := s.next;
    s := Then(s, RegisterSession(k));
    s := Then(s, SendStart(d));
  }

  lemma SessionStops(k: TunerKey) returns (s: State, c: nat, d: nat)
    ensures Scene(s, k, c, Working(c, map[d := k.tuner], map[]), [Stop(d)], [], map[d := Of(k, c)], map[d := Of(k, c)],
                  NoFlags.(started := {d}, sent := {d}, stopSent := {d}), {d})
  {
    s, c, d := SessionStarts(k);
    s := Then(s, AgentReceives(k.agent));
    s := Then(s, SendStop(d));
  }

  /** The receiver survives its cleanup, and the stop is answered before that is reported. */
  lemma StopOvertakes(k: TunerKey) returns (s: State, c: nat, d: nat)
    ensures Scene(s, k, c, Working(c, map[], map[d := true]), [], [Stopped(d, false)], map[d := Of(k, c)],
            map[d := Of(k, c)],
                  NoFlags.(started := {d}, sent := {d}, stopSent := {d}), {d})
  {
    s, c, d := SessionStops(k);
    s := Then(s, WorkerExits(k.agent, d, true));
    assert s.links[k.agent].workers == map[];
    assert Overtakes(s, AgentReceives(k.agent));
    s := Then(s, AgentReceives(k.agent));
  }

  lemma TunerFreed(k: TunerKey) returns (s: State, c: nat, d: nat)
    ensures Scene(s, k, c, Working(c, map[], map[d := true]), [], [], map[], map[d := Of(k, c)],
                  Flags({d}, {d}, {d}, {d}, {d}), {d})
  {
    s, c, d := StopOvertakes(k);
    s := Then(s, HubReceives(k.agent));
    s := Then(s, DeviceReleased(d));
    assert s.hub.sessions == map[];
  }

  lemma SecondSession(k: TunerKey) returns (s: State, c: nat, d: nat, e: nat)
    ensures d != e
    ensures Scene(s, k, c, Working(c, map[], map[d := true]), [Start(e, k.tuner)], [], map[e := Of(k, c)],
                  map[d := Of(k, c), e := Of(k, c)], Flags({d, e}, {d, e}, {d}, {d}, {d}), {d})
  {
    s, c, d := TunerFreed(k);
    e := s.next;
    s := Then(s, RegisterSession(k));
    s := Then(s, SendStart(e));
  }

  /** For every tuner some run leaves two receivers on it, so the condition of OneReceiverAlways cannot be dropped. */
  lemma OvertakingBreaksSafety(k: TunerKey)
    ensures exists s :: Reachable(s) && TwoReceivers(s, k) && !OneReceiverPerTuner(s)
  {
    var s, c, d, e := SecondSession(k);
    s := Then(s, AgentReceives(k.agent));
    assert d in s.alive && e in s.alive && KeyOf(s.devices[d]) == KeyOf(s.devices[e]) == k;
  }
}
