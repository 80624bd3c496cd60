/**
 Which stops are unsafe, exactly: after one that overtakes a failed cleanup's report some run puts a second
 receiver on the tuner, and after any other step none does.
 */
module AgentExact {
  import opened AgentProtocol
  import opened AgentSteps
  import opened AgentSafety

  // ------------------------------------------------------------------ continuations

  /** Steps from `s` none of which overtakes. */
  ghost predicate Path(s: State, states: seq<State>, steps: seq<Step>) {
    && |states| == |steps| + 1 && states[0] == s
    && forall n {:trigger steps[n]} | 0 <= n < |steps| ::
           Next(states[n], steps[n], states[n + 1]) && !Overtakes(states[n], steps[n])
  }

  ghost predicate PathTo(s: State, states: seq<State>, steps: seq<Step>, t: State) {
    Path(s, states, steps) && states[|steps|] == t
  }

  ghost predicate Leads(s: State, t: State) { exists states, steps :: PathTo(s, states, steps, t) }

  lemma LeadsNowhere(s: State)
    ensures Leads(s, s)
  {
    assert PathTo(s, [s], [], s);
  }

  lemma PathNext(s: State, states: seq<State>, steps: seq<Step>, e: Step, t: State)
    requires Path(s, states, steps) && Next(states[|steps|], e, t) && !Overtakes(states[|steps|], e)
    ensures PathTo(s, states + [t], steps + [e], t)
  {
    var states', steps' := states + [t], steps + [e];
    forall n | 0 <= n < |steps'|
      ensures Next(states'[n], steps'[n], states'[n + 1]) && !Overtakes(states'[n], steps'[n])
    {
      if n < |steps| { assert Next(states[n], steps[n], states[n + 1]) && !Overtakes(states[n], steps[n]); }
    }
  }

  lemma Then(s: State, t: State, e: Step) returns (t': State)
    requires Leads(s, t) && Enabled(t, e) && !Overtakes(t, e)
    ensures t' == Do(t, e) && Leads(s, t')
  {
    var states, steps :| PathTo(s, states, steps, t);
    t' := Do(t, e);
    PathNext(s, states, steps, e, t');
  }

  // ---------------------------------------------------------------- numbers in use

  /** Every device the hub no longer lists has been cleaned up, and only numbers given out are in use. */
  ghost predicate Tidy(s: State) {
    && (forall d | d in s.devices :: d in s.hub.sessions || d in s.flags.cleaned)
    && (forall c | c in s.hubClosed :: c < s.next) && (forall c | c in s.toAgent :: c < s.next)
  }

  ghost predicate InRange(s: State) {
    && (forall c | c in s.info :: c < s.next) && (forall c | c in s.hub.registered :: c < s.next)
    && (forall a | a in s.hub.connections :: s.hub.connections[a] < s.next)
    && (forall d | d in s.devices :: d < s.next && s.devices[d].conn < s.next)
         && (forall d | d in s.flags.started :: d < s.next)
  }

  lemma InvInRange(s: State)
    requires Inv(s)
    ensures InRange(s)
  {
    forall c | c in s.info ensures c < s.next { assert ConnShape(s.info, s.hubClosed, s.hub.connections, s.next, c); }
    forall c | c in s.hub.registered ensures c < s.next { assert PeerShape(s.info, s.hub.registered, c); }
    forall a | a in s.hub.connections ensures s.hub.connections[a] < s.next {
      assert SlotShape(s.info, s.hub.connections, a);
    }
    forall d | d in s.devices ensures d < s.next && s.devices[d].conn < s.next {
      assert DeviceShape(s.info, s.devices, s.hub.registered, s.next, d);
    }
    forall d | d in s.flags.started ensures d in s.devices {
      assert FlagShape(s.hub, s.devices, s.flags, s.hubClosed, d);
    }
  }

  lemma TidyHandled(s: State, a: AgentId, m: Command)
    requires Tidy(s) && AttachedAt(s, a)
    ensures Tidy(Handled(s, a, m))
  {}

  lemma TidyReceive(s: State, a: AgentId)
    requires Tidy(s) && CanReceive(s, a)
    ensures Tidy(DoReceive(s, a))
  {
    var c := s.links[a].conn;
    assert Tidy(Popped(s, c));
    if s.links[a].Attached? { TidyHandled(Popped(s, c), a, Queue(s.toAgent, c)[0]); }
  }

  lemma TidyWorkerStep(s: State, e: Step)
    requires Tidy(s) && Enabled(s, e) && (e.WorkerExits? || e.WorkerReports?)
    ensures Tidy(Do(s, e))
  {}

  lemma TidyFinish(s: State, a: AgentId)
    requires Tidy(s) && CanFinish(s, a)
    ensures Tidy(DoFinish(s, a))
  {}

  lemma TidyLossStep(s: State, e: Step)
    requires Tidy(s) && Enabled(s, e)
    requires e.HubShutdown? || e.AgentSendBreaks? || e.AgentBoots? || e.AgentCrashes? || e.HostReboots?
             || e.ReceiverDies?
             || e.AgentCloses? || e.AgentAbandons?
    ensures Tidy(Do(s, e))
  {}

  lemma TidyDisconnect(s: State, a: AgentId)
    requires InRange(s) && Tidy(s) && a in s.hub.connections
    ensures Tidy(DoDisconnect(s, a))
  {}

  lemma TidyReport(s: State, a: AgentId)
    requires InRange(s) && Tidy(s) && CanReport(s, a)
    ensures Tidy(DoReport(s, a))
  {}

  lemma TidyStart(s: State, d: nat, delivered: bool, fails: bool)
    requires InRange(s) && Tidy(s) && CanStart(s, d, delivered)
    ensures Tidy(DoStart(s, d, delivered, fails))
  {}

  predicate Bookkeeping(e: Step) {
    e.Connect? || e.HubHello? || e.HubCloses? || e.RegisterSession? || e.SendStop? || e.StopTimesOut?
        || e.DeviceReleased?
  }

  lemma TidyHubStep(s: State, e: Step)
    requires InRange(s) && Tidy(s) && Enabled(s, e) && Bookkeeping(e)
    ensures Tidy(Do(s, e))
  {}

  lemma TidyStep(s: State, e: Step)
    requires InRange(s) && Tidy(s) && Enabled(s, e)
    ensures Tidy(Do(s, e))
  {
    if e.HubDisconnect? { TidyDisconnect(s, e.agent); }
    else if e.HubReceives? { TidyReport(s, e.agent); }
    else if e.SendStart? { TidyStart(s, e.session, true, false); }
    else if e.SendStartFails? { TidyStart(s, e.session, e.delivered, true); }
    else if Bookkeeping(e) { TidyHubStep(s, e); }
    else if e.AgentReceives? { TidyReceive(s, e.agent); }
    else if e.WorkerExits? || e.WorkerReports? { TidyWorkerStep(s, e); }
    else if e.AgentFinishes? { TidyFinish(s, e.agent); }
    else { TidyLossStep(s, e); }
  }

  lemma {:induction false} PathInv(s: State, states: seq<State>, steps: seq<Step>, n: nat)
    requires Path(s, states, steps) && Inv(s) && n < |states|
    ensures Inv(states[n]) && (Tidy(s) ==> Tidy(states[n]))
  {
    if n > 0 {
      PathInv(s, states, steps, n - 1);
      assert Next(states[n - 1], steps[n - 1], states[n]) && !Overtakes(states[n - 1], steps[n - 1]);
      StepKeepsInv(states[n - 1], steps[n - 1]);
      InvInRange(states[n - 1]);
      if Tidy(s) { TidyStep(states[n - 1], steps[n - 1]); }
    }
  }

  lemma LeadsInv(s: State, t: State)
    requires Leads(s, t) && Inv(s)
    ensures Inv(t) && (Tidy(s) ==> Tidy(t))
  {
    var states, steps :| PathTo(s, states, steps, t);
    PathInv(s, states, steps, |steps|);
  }

  lemma InitialTidy()
    ensures Inv(Initial()) && Tidy(Initial())
  {
    InitialInv();
  }

  // --------------------------------------------- from the answer to a freed tuner

  /** Session y of tuner k, on the current connection c, has a receiver. */
  ghost predicate Loose(s: State, k: TunerKey, c: nat, y: nat) {
    && Tidy(s) && InRange(s)
    && !s.hub.closed && k.agent in s.hub.connections && s.hub.connections[k.agent] == c && c in s.hub.registered
         && k.agent in s.procs
    && y in s.alive && y in s.devices && s.devices[y] == Session(k.agent, k.tuner, c)
    && (forall d | d in s.hub.sessions :: d in s.devices && s.hub.sessions[d] == s.devices[d])
    && (forall d | d in s.hub.sessions && s.hub.sessions[d].conn == c :: s.hub.sessions[d].agent == k.agent)
  }

  /** After the reports in `r`, the hub will read that it has stopped. */
  ghost predicate Answered(s: State, k: TunerKey, c: nat, y: nat, r: seq<Report>) {
    && Loose(s, k, c, y) && Listed(s.hub, k, c, y)
    && (forall x | x in s.hub.sessions && KeyOf(s.hub.sessions[x]) == k :: x == y)
    && Queue(s.toHub, c) == r + [Stopped(y, false)] && forall i | 0 <= i < |r| :: r[i].session != y
  }

  /** The hub takes the tuner to be free. */
  ghost predicate Freed(s: State, k: TunerKey, c: nat, y: nat) {
    Loose(s, k, c, y) && k !in s.hub.quarantined && forall x | x in s.hub.sessions :: KeyOf(s.hub.sessions[x]) != k
  }

  lemma OvertakenSession(s: State, a: AgentId) returns (k: TunerKey, c: nat, y: nat)
    requires Inv(s) && Tidy(s) && Overtakes(s, AgentReceives(a))
    ensures a in s.links && c == s.links[a].conn && k.agent == a && Queue(s.toAgent, c) != []
            && Queue(s.toAgent, c)[0] == Stop(y)
    ensures Loose(s, k, c, y) && Listed(s.hub, k, c, y)
    ensures forall x | x in s.hub.sessions && KeyOf(s.hub.sessions[x]) == k :: x == y
    ensures y !in s.links[a].workers
  {
    c := s.links[a].conn;
    y := Queue(s.toAgent, c)[0].session;
    assert WorkerShape(View(s.devices, s.alive, s.toAgent, s.links), s.flags.sent, a, y)
           && SessionShape(s.hub, s.devices, y);
    assert DeviceShape(s.info, s.devices, s.hub.registered, s.next, y)
           && LinkShape(s.info, s.procs, s.links, s.boots, a);
    k := KeyOf(s.devices[y]);
    InvInRange(s);
    forall d | d in s.hub.sessions
      ensures d in s.devices && s.hub.sessions[d] == s.devices[d]
              && (s.devices[d].conn == c ==> s.devices[d].agent == a)
    {
      assert SessionShape(s.hub, s.devices, d) && DeviceShape(s.info, s.devices, s.hub.registered, s.next, d);
    }
  }

  lemma NoCleanReport(q: seq<Report>, y: nat, i: nat)
    requires FailureFirst(q, y) && Stopped(y, true) !in q && i < |q|
    ensures q[i].session != y
  {
    assert q[i] in q && forall m | m in q[..i] :: m in q;
  }

  /** No report about it is on its way. */
  lemma NothingReported(s: State, a: AgentId, y: nat, i: nat)
    requires Inv(s) && Overtakes(s, AgentReceives(a)) && Queue(s.toAgent, s.links[a].conn)[0] == Stop(y)
    requires y in s.devices && s.devices[y].conn == s.links[a].conn && i < |Queue(s.toHub, s.links[a].conn)|
    ensures Queue(s.toHub, s.links[a].conn)[i].session != y
  {
    assert ReportOrder(s.devices, s.hub, s.flags.sent, s.hubClosed, s.alive, s.toHub, y)
           && SessionShape(s.hub, s.devices, y);
    forall e ensures !Shields(s.devices, s.hub.sessions, s.flags.sent, s.hubClosed, y, e) {
      assert SessionShape(s.hub, s.devices, e);
    }
    NoCleanReport(Queue(s.toHub, s.links[a].conn), y, i);
  }

  lemma AnswerSent(s: State, a: AgentId, c: nat, y: nat)
    requires CanReceive(s, a) && AttachedAt(s, a) && c == s.links[a].conn && Queue(s.toAgent, c)[0] == Stop(y)
    requires y !in s.links[a].workers && c !in s.agentClosed
    ensures var t := DoReceive(s, a);
            && t == s.(toAgent := t.toAgent, toHub := t.toHub)
            && t.toHub == s.toHub[c := Queue(s.toHub, c) + [Stopped(y, false)]]
  {}

  lemma AnsweredFrom(s: State, a: AgentId, k: TunerKey, c: nat, y: nat)
    requires CanReceive(s, a) && AttachedAt(s, a) && c == s.links[a].conn && Queue(s.toAgent, c)[0] == Stop(y)
    requires y !in s.links[a].workers && c !in s.agentClosed
    requires Loose(s, k, c, y) && Listed(s.hub, k, c, y) && forall x | x in s.hub.sessions
             && KeyOf(s.hub.sessions[x]) == k :: x == y
    requires forall i | 0 <= i < |Queue(s.toHub, c)| :: Queue(s.toHub, c)[i].session != y
    ensures Answered(DoReceive(s, a), k, c, y, Queue(s.toHub, c))
  {
    TidyReceive(s, a);
    AnswerSent(s, a, c, y);
  }

  lemma AnsweredAfter(s: State, a: AgentId) returns (k: TunerKey, c: nat, y: nat)
    requires Inv(s) && Tidy(s) && CanReceive(s, a) && Overtakes(s, AgentReceives(a))
    ensures Queue(s.toAgent, s.links[a].conn)[0] == Stop(y) && y in s.devices && KeyOf(s.devices[y]) == k
    ensures Answered(DoReceive(s, a), k, c, y, Queue(s.toHub, c))
  {
    k, c, y := OvertakenSession(s, a);
    forall i | 0 <= i < |Queue(s.toHub, c)| ensures Queue(s.toHub, c)[i].session != y { NothingReported(s, a, y, i); }
    AnsweredFrom(s, a, k, c, y);
  }

  lemma ReportKeepsLoose(s: State, k: TunerKey, c: nat, y: nat)
    requires Loose(s, k, c, y) && CanReport(s, k.agent)
    ensures Loose(DoReport(s, k.agent), k, c, y)
  {
    TidyReport(s, k.agent);
    ReportInRange(s, k.agent);
  }

  lemma ReportInRange(s: State, a: AgentId)
    requires InRange(s) && CanReport(s, a)
    ensures InRange(DoReport(s, a))
  {}

  /** Session y is listed, and its tuner quarantined by its own connection at most. */
  ghost predicate Listed(h: HubState, k: TunerKey, c: nat, y: nat) {
    y in h.sessions && (k in h.quarantined ==> h.quarantined[k] == c)
  }

  ghost predicate NoneAdded(h: HubState, h': HubState) {
    forall x | x in h'.sessions :: x in h.sessions && h'.sessions[x] == h.sessions[x]
  }

  /** Reports about other sessions of the connection leave that so. */
  lemma OtherCompleted(h: HubState, k: TunerKey, c: nat, y: nat, d: nat, failed: bool)
    requires Listed(h, k, c, y) && d in h.sessions && d != y && h.sessions[d].conn == c
    ensures Listed(Completed(h, d, failed), k, c, y) && NoneAdded(h, Completed(h, d, failed))
  {}

  lemma OtherReport(s: State, a: AgentId, k: TunerKey, c: nat, y: nat)
    requires CanReport(s, a) && s.hub.connections[a] == c && Queue(s.toHub, c)[0].session != y && Listed(s.hub, k, c, y)
    ensures Listed(DoReport(s, a).hub, k, c, y) && NoneAdded(s.hub, DoReport(s, a).hub)
  {
    var m := Queue(s.toHub, c)[0];
    if m.session in s.hub.sessions && s.hub.sessions[m.session].conn == c && s.hub.sessions[m.session].agent == a {
      OtherCompleted(s.hub, k, c, y, m.session, m.failed);
      assert DoReport(s, a).hub == Completed(s.hub, m.session, m.failed);
    } else {
      assert DoReport(s, a).hub == s.hub;
    }
  }

  lemma ReportTaken(s: State, a: AgentId)
    requires CanReport(s, a)
    ensures Queue(DoReport(s, a).toHub, s.hub.connections[a]) == Queue(s.toHub, s.hub.connections[a])[1..]
  {
    var c := s.hub.connections[a];
    assert DoReport(s, a).toHub == s.toHub[c := Queue(s.toHub, c)[1..]];
  }

  /** The hub reads one report ahead of it. */
  lemma ReadOne(s: State, k: TunerKey, c: nat, y: nat, r: seq<Report>)
    requires Answered(s, k, c, y, r) && r != []
    ensures CanReport(s, k.agent) && Answered(DoReport(s, k.agent), k, c, y, r[1..])
  {
    var t := DoReport(s, k.agent);
    assert Queue(s.toHub, c)[0] == r[0];
    ReportKeepsLoose(s, k, c, y);
    OtherReport(s, k.agent, k, c, y);
    ReportTaken(s, k.agent);
    assert Queue(t.toHub, c) == r[1..] + [Stopped(y, false)];
  }

  lemma {:induction false} ReadAll(s0: State, s: State, k: TunerKey, c: nat, y: nat, r: seq<Report>) returns (t: State)
    requires Leads(s0, s) && Answered(s, k, c, y, r)
    ensures Leads(s0, t) && Answered(t, k, c, y, [])
    decreases |r|
  {
    if r == [] {
      t := s;
    } else {
      ReadOne(s, k, c, y, r);
      t := Then(s0, s, HubReceives(k.agent));
      t := ReadAll(s0, t, k, c, y, r[1..]);
    }
  }

  /** It reads the answer, and the tuner is free. */
  lemma ReadAnswer(s: State, k: TunerKey, c: nat, y: nat)
    requires Answered(s, k, c, y, [])
    ensures CanReport(s, k.agent) && Freed(DoReport(s, k.agent), k, c, y)
  {
    assert Queue(s.toHub, c)[0] == Stopped(y, false);
    ReportKeepsLoose(s, k, c, y);
  }

  // ----------------------------------------------- from a freed tuner to a second receiver

  ghost predicate AllReleased(s: State, k: TunerKey) {
    forall d | d in s.devices && KeyOf(s.devices[d]) == k :: d in s.flags.released
  }

  /** Every device of the tuner has been cleaned up, so the allocator gets them all back. */
  lemma {:induction false} ReleaseAll(s0: State, s: State, k: TunerKey, c: nat, y: nat,
                                      todo: set<nat>) returns (t: State)
    requires Leads(s0, s) && Freed(s, k, c, y) && todo <= s.devices.Keys
    requires forall d | d in s.devices && KeyOf(s.devices[d]) == k && d !in todo :: d in s.flags.released
    ensures Leads(s0, t) && Freed(t, k, c, y) && AllReleased(t, k)
    decreases |todo|
  {
    if todo == {} {
      t := s;
    } else {
      var d :| d in todo;
      if KeyOf(s.devices[d]) == k {
        t := Then(s0, s, DeviceReleased(d));
        t := ReleaseAll(s0, t, k, c, y, todo - {d});
      } else {
        t := ReleaseAll(s0, s, k, c, y, todo - {d});
      }
    }
  }

  /** The tuner is up for a new session while its receiver runs; numbers from `next` on are unused. */
  ghost predicate Vacant(s: State, k: TunerKey, y: nat) {
    && y in s.alive && y in s.devices && y < s.next && KeyOf(s.devices[y]) == k && AllReleased(s, k)
    && k !in s.hub.quarantined && !s.hub.closed
    && (forall c | c in s.hubClosed :: c < s.next) && (forall c | c in s.toAgent :: c < s.next)
    && (forall c | c in s.hub.registered :: c < s.next) && (forall d | d in s.flags.started :: d < s.next)
  }

  lemma HubLosesConnection(s: State, k: TunerKey, c: nat, y: nat)
    requires Freed(s, k, c, y) && AllReleased(s, k)
    ensures var t := DoDisconnect(s, k.agent); Vacant(t, k, y) && k.agent !in t.hub.connections && k.agent in t.procs
  {}

  lemma ProcessRestarts(s0: State, s: State, k: TunerKey, y: nat) returns (t: State)
    requires Leads(s0, s) && Vacant(s, k, y) && k.agent !in s.hub.connections && k.agent in s.procs
    ensures Leads(s0, t) && Vacant(t, k, y) && k.agent !in t.hub.connections && k.agent in t.procs
            && k.agent !in t.links
  {
    t := Then(s0, s, AgentCrashes(k.agent));
    t := Then(s0, t, AgentBoots(k.agent, false));
  }

  /** Connection c is the agent's, with this link and these messages for it. */
  ghost predicate Online(s: State, k: TunerKey, c: nat, link: Link, q: seq<Command>) {
    && k.agent in s.hub.connections && s.hub.connections[k.agent] == c && c in s.hub.registered && c !in s.hubClosed
    && k.agent in s.links && s.links[k.agent] == link && Queue(s.toAgent, c) == q
  }

  lemma AgentRedials(s0: State, s: State, k: TunerKey, y: nat) returns (t: State, c: nat)
    requires Leads(s0, s) && Vacant(s, k, y) && k.agent !in s.hub.connections && k.agent in s.procs
             && k.agent !in s.links
    ensures Leads(s0, t) && Vacant(t, k, y) && CanHello(t, k.agent) && t.hub.connections[k.agent] == c && c < t.next
    ensures k.agent in t.links && t.links[k.agent] == Waiting(c) && Queue(t.toAgent, c) == []
  {
    c := s.next;
    t := Then(s0, s, Connect(k.agent));
  }

  lemma HubWelcomes(s0: State, s: State, k: TunerKey, y: nat, c: nat) returns (t: State)
    requires Leads(s0, s) && Vacant(s, k, y) && CanHello(s, k.agent) && s.hub.connections[k.agent] == c && c < s.next
    requires k.agent in s.links && s.links[k.agent] == Waiting(c) && Queue(s.toAgent, c) == []
    ensures Leads(s0, t) && Vacant(t, k, y) && Online(t, k, c, Waiting(c), [Welcome])
  {
    t := Then(s0, s, HubHello(k.agent));
  }

  lemma AgentIsBack(s0: State, s: State, k: TunerKey, y: nat, c: nat) returns (t: State)
    requires Leads(s0, s) && Vacant(s, k, y) && Online(s, k, c, Waiting(c), [Welcome])
    ensures Leads(s0, t) && Vacant(t, k, y) && Online(t, k, c, Attached(c, true, map[], map[], false), [])
  {
    t := Then(s0, s, AgentReceives(k.agent));
  }

  lemma SecondStart(s0: State, s: State, k: TunerKey, y: nat, c: nat) returns (t: State, e: nat)
    requires Leads(s0, s) && Vacant(s, k, y) && Online(s, k, c, Attached(c, true, map[], map[], false), [])
    ensures Leads(s0, t) && Online(t, k, c, Attached(c, true, map[], map[], false), [Start(e, k.tuner)])
    ensures e != y && e in t.devices && y in t.devices && KeyOf(t.devices[e]) == k == KeyOf(t.devices[y])
            && y in t.alive
  {
    e := s.next;
    t := Then(s0, s, RegisterSession(k));
    t := Then(s0, t, SendStart(e));
  }

  lemma SecondReceiver(s0: State, s: State, k: TunerKey, y: nat, c: nat, e: nat) returns (t: State)
    requires Leads(s0, s) && Online(s, k, c, Attached(c, true, map[], map[], false), [Start(e, k.tuner)])
    requires e != y && e in s.devices && y in s.devices && KeyOf(s.devices[e]) == k == KeyOf(s.devices[y])
             && y in s.alive
    ensures Leads(s0, t) && TwoReceivers(t, k)
  {
    t := Then(s0, s, AgentReceives(k.agent));
    assert y in t.alive && e in t.alive;
  }

  // ------------------------------------------------------------------- exactness

  /** After a stop that overtakes, some continuation puts a second receiver on its session's tuner. */
  lemma OvertakingLeadsToTwo(s: State, a: AgentId) returns (t: State, k: TunerKey, y: nat)
    requires Inv(s) && Tidy(s) && CanReceive(s, a) && Overtakes(s, AgentReceives(a))
    ensures Queue(s.toAgent, s.links[a].conn)[0] == Stop(y) && y in s.devices && KeyOf(s.devices[y]) == k
    ensures Leads(DoReceive(s, a), t) && TwoReceivers(t, k)
  {
    var s0 := DoReceive(s, a);
    var c;
    k, c, y := AnsweredAfter(s, a);
    LeadsNowhere(s0);
    t := ReadAll(s0, s0, k, c, y, Queue(s.toHub, c));
    ReadAnswer(t, k, c, y);
    t := Then(s0, t, HubReceives(k.agent));
    t := ReleaseAll(s0, t, k, c, y, t.devices.Keys);
    t := AfterRelease(s0, t, k, c, y);
  }

  lemma AfterRelease(s0: State, s: State, k: TunerKey, c: nat, y: nat) returns (t: State)
    requires Leads(s0, s) && Freed(s, k, c, y) && AllReleased(s, k)
    ensures Leads(s0, t) && TwoReceivers(t, k)
  {
    HubLosesConnection(s, k, c, y);
    t := Then(s0, s, HubDisconnect(k.agent));
    t := ProcessRestarts(s0, t, k, y);
    var c', e;
    t, c' := AgentRedials(s0, t, k, y);
    t := HubWelcomes(s0, t, k, y, c');
    t := AgentIsBack(s0, t, k, y, c');
    t, e := SecondStart(s0, t, k, y, c');
    t := SecondReceiver(s0, t, k, y, c', e);
  }

  lemma TwoIsUnsafe(s: State, k: TunerKey)
    requires TwoReceivers(s, k)
    ensures !OneReceiverPerTuner(s)
  {}

  lemma ReceivingStep(s: State, e: Step)
    requires Enabled(s, e) && e.AgentReceives?
    ensures CanReceive(s, e.agent) && Do(s, e) == DoReceive(s, e.agent)
  {}

  lemma OtherStepsStaySafe(s: State, e: Step, t: State)
    requires Inv(s) && Enabled(s, e) && !Overtakes(s, e) && Leads(Do(s, e), t)
    ensures OneReceiverPerTuner(t)
  {
    StepKeepsInv(s, e);
    LeadsInv(Do(s, e), t);
    InvIsSafe(t);
  }

  /** In any state reached without overtaking: a step overtakes exactly when, after it and without further
      overtaking, some tuner can come to have two receivers. */
  lemma OvertakingIsExactlyUnsafe(s: State, e: Step)
    requires Leads(Initial(), s) && Enabled(s, e)
    ensures Overtakes(s, e) <==> exists t :: Leads(Do(s, e), t) && !OneReceiverPerTuner(t)
  {
    InitialTidy();
    LeadsInv(Initial(), s);
    if Overtakes(s, e) {
      ReceivingStep(s, e);
      var t, k, y := OvertakingLeadsToTwo(s, e.agent);
      TwoIsUnsafe(t, k);
    } else {
      forall t | Leads(Do(s, e), t) ensures OneReceiverPerTuner(t) { OtherStepsStaySafe(s, e, t); }
    }
  }
}
