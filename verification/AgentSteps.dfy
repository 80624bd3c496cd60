/**
 The invariant of the agent protocol, and that every kind of step keeps it.  Each part of the
 invariant names only the components it depends on and speaks of one device, pair, connection
 or agent, so a step answers only for the parts it touches.
 */
module AgentSteps {
  import opened Basics
  import opened AgentProtocol

  // ------------------------------------------------------------------- vocabulary

  type Devices = map<nat, Session>
  type Infos = map<nat, ConnInfo>
  type Links = map<AgentId, Link>
  type ToAgent = map<nat, seq<Command>>
  type ToHub = map<nat, seq<Report>>

  /** What decides whether a session is live. */
  datatype View = View(devices: Devices, alive: set<nat>, toAgent: ToAgent, links: Links)

  ghost predicate About(m: Command, d: nat) { !m.Welcome? && m.session == d }

  /** The process holds connection c, and may still take messages off it. */
  ghost predicate Listening(links: Links, a: AgentId, c: nat) {
    a in links && links[a].conn == c && (links[a].Attached? ==> links[a].open)
  }

  ghost predicate Queued(devices: Devices, toAgent: ToAgent, d: nat) {
    d in devices && Start(d, devices[d].tuner) in Queue(toAgent, devices[d].conn)
  }

  /** A session with a receiver, or one whose start command can still create it. */
  ghost predicate Live(v: View, d: nat) {
    d in v.devices
    && (d in v.alive || (Queued(v.devices, v.toAgent, d) && Listening(v.links, v.devices[d].agent, v.devices[d].conn)))
  }

  /** After a message about d, no start of d follows. */
  ghost predicate StartFirst(q: seq<Command>, d: nat) {
    forall i, j | 0 <= i < j < |q| && About(q[i], d) :: !(q[j].Start? && q[j].session == d)
  }

  /** A clean report of d comes only after a failed one. */
  ghost predicate FailureFirst(q: seq<Report>, d: nat) {
    forall i | 0 <= i < |q| && q[i] == Stopped(d, false) :: Stopped(d, true) in q[..i]
  }

  ghost predicate BootIs(boots: map<AgentId, nat>, b: Option<nat>, a: AgentId) {
    b == None || b == Some(if a in boots then boots[a] else 0)
  }

  // ------------------------------------------------------------ shape of the state

  ghost predicate DeviceShape(info: Infos, devices: Devices, registered: map<nat, Peer>, next: nat, d: nat) {
    d in devices ==>
      d < next && devices[d].conn in info && info[devices[d].conn].agent == devices[d].agent
          && devices[d].conn in registered
  }

  /** The hub's connection of an agent is its newest, and the only one it can send on. */
  ghost predicate ConnShape(info: Infos, hubClosed: set<nat>, connections: map<AgentId, nat>, next: nat, c: nat) {
    c in info ==>
      && c < next
      && (c !in hubClosed ==> info[c].agent in connections && connections[info[c].agent] == c)
      && (info[c].agent in connections ==> c <= connections[info[c].agent])
  }

  ghost predicate PeerShape(info: Infos, registered: map<nat, Peer>, c: nat) {
    c in registered ==> c in info && registered[c] == Peer(info[c].hello.instance, info[c].hello.boot)
  }

  ghost predicate KeyShape(info: Infos, registered: map<nat, Peer>, quarantined: map<TunerKey, nat>, k: TunerKey) {
    k in quarantined ==> quarantined[k] in registered && quarantined[k] in info && info[quarantined[k]].agent == k.agent
  }

  ghost predicate SlotShape(info: Infos, connections: map<AgentId, nat>, a: AgentId) {
    a in connections ==> connections[a] in info && info[connections[a]].agent == a
  }

  ghost predicate LinkShape(info: Infos, procs: map<AgentId, Process>, links: Links, boots: map<AgentId, nat>,
                            a: AgentId)
  {
    && (a in procs ==> BootIs(boots, procs[a].boot, a))
    && (a in links ==>
          && a in procs && links[a].conn in info && info[links[a].conn].agent == a
          && BootIs(boots, info[links[a].conn].hello.boot, a)
               && info[links[a].conn].hello.instance == procs[a].instance)
  }

  ghost predicate Newest(info: Infos, links: Links, a: AgentId, c: nat) {
    a in links && c in info && info[c].agent == a ==> c <= links[a].conn
  }

  ghost predicate GoodCommand(devices: Devices, sent: set<nat>, c: nat, m: Command) {
    m.Welcome? ||
    (m.session in devices && devices[m.session].conn == c && m.session in sent
     && (m.Start? ==> m.tuner == devices[m.session].tuner))
  }

  ghost predicate GoodReport(devices: Devices, sent: set<nat>, toAgent: ToAgent, c: nat, m: Report) {
    m.session in devices && devices[m.session].conn == c && m.session in sent && !Queued(devices, toAgent, m.session)
  }

  ghost predicate CommandShape(devices: Devices, sent: set<nat>, toAgent: ToAgent, c: nat) {
    forall m | m in Queue(toAgent, c) :: GoodCommand(devices, sent, c, m)
  }

  ghost predicate ReportShape(devices: Devices, sent: set<nat>, toAgent: ToAgent, toHub: ToHub, c: nat) {
    forall m | m in Queue(toHub, c) :: GoodReport(devices, sent, toAgent, c, m)
  }

  // ------------------------------------------------------------- sessions and flags

  ghost predicate SessionShape(h: HubState, devices: Devices, d: nat) {
    d in h.sessions ==>
      && d in devices && h.sessions[d] == devices[d]
      && devices[d].agent in h.connections && h.connections[devices[d].agent] == devices[d].conn
      && (KeyOf(devices[d]) in h.quarantined ==> h.quarantined[KeyOf(devices[d])] == devices[d].conn)
  }

  ghost predicate FlagShape(h: HubState, devices: Devices, f: Flags, hubClosed: set<nat>, d: nat) {
    if d !in devices then
      d !in f.started && d !in f.sent && d !in f.stopSent && d !in f.cleaned && d !in f.released
    else
      && (d in f.sent ==> d in f.started)
      && (d in f.stopSent ==> d in f.started)
      && (devices[d].conn !in hubClosed ==>
            && (d in f.started ==> d in f.sent)
            && (d !in f.started ==> d in h.sessions)
            && (d in h.sessions ==>
                  && d !in f.cleaned
                  && (d in f.released ==> KeyOf(devices[d]) in h.quarantined)
                  && (d !in f.sent ==> KeyOf(devices[d]) !in h.quarantined)))
  }

  /** Two sessions of one tuner are listed together only on a dead connection. */
  ghost predicate PairShape(sessions: map<nat, Session>, devices: Devices, hubClosed: set<nat>, d: nat, e: nat) {
    d in sessions && e in sessions && d in devices && e in devices && d != e
        && KeyOf(devices[d]) == KeyOf(devices[e]) ==>
      devices[d].conn in hubClosed
  }

  // ------------------------------------------------------------------ live sessions

  /** Another session of the same tuner that its dead connection will never send keeps the tuner occupied. */
  ghost predicate Shields(devices: Devices, sessions: map<nat, Session>, sent: set<nat>, hubClosed: set<nat>, d: nat,
                          e: nat)
  {
    && d != e && d in devices && e in devices && KeyOf(devices[d]) == KeyOf(devices[e])
    && e in sessions && e !in sent && devices[e].conn == devices[d].conn && devices[e].conn in hubClosed
  }

  /** Nothing the hub still does can hand the tuner of d out again. */
  ghost predicate Withheld(devices: Devices, h: HubState, sent: set<nat>, hubClosed: set<nat>, d: nat) {
    h.closed || exists e :: Shields(devices, h.sessions, sent, hubClosed, d, e)
  }

  /** The hub lists the session, quarantines its tuner for it, or will not hand the tuner out. */
  ghost predicate Known(devices: Devices, h: HubState, sent: set<nat>, hubClosed: set<nat>, d: nat) {
    || d in h.sessions
    || (d in devices && KeyOf(devices[d]) in h.quarantined && h.quarantined[KeyOf(devices[d])] == devices[d].conn)
    || Withheld(devices, h, sent, hubClosed, d)
  }

  ghost predicate Covered(v: View, h: HubState, sent: set<nat>, hubClosed: set<nat>, d: nat) {
    Live(v, d) ==> Known(v.devices, h, sent, hubClosed, d)
  }

  /** Of one tuner's sessions at most one is live, and no other that is listed was or will be sent. */
  ghost predicate Alone(v: View, sessions: map<nat, Session>, sent: set<nat>, hubClosed: set<nat>, d: nat, e: nat) {
    Live(v, d) && e in v.devices && d != e && KeyOf(v.devices[d]) == KeyOf(v.devices[e]) ==>
      !Live(v, e) && (e in sessions ==> e !in sent && v.devices[e].conn in hubClosed)
  }

  /** A start command is queued once, ahead of its stop, and never after it was acted on. */
  ghost predicate StartOrder(devices: Devices, toAgent: ToAgent, alive: set<nat>, sent: set<nat>, d: nat) {
    && (d in devices ==> StartFirst(Queue(toAgent, devices[d].conn), d))
    && (d in alive ==> d in devices && d in sent && !Queued(devices, toAgent, d))
  }

  ghost predicate ReportOrder(devices: Devices, h: HubState, sent: set<nat>, hubClosed: set<nat>, alive: set<nat>,
                              toHub: ToHub, d: nat)
  {
    d in devices && d in h.sessions && d in alive ==>
      FailureFirst(Queue(toHub, devices[d].conn), d) || Withheld(devices, h, sent, hubClosed, d)
  }

  // -------------------------------------------------------------- processes and boots

  /** Connection g can no longer produce a receiver, and d is none of its survivors. */
  ghost predicate DoneWith(info: Infos, links: Links, alive: set<nat>, devices: Devices, g: nat, d: nat) {
    && g in info
    && !(info[g].agent in links && links[info[g].agent].conn == g)
    && (d in alive && d in devices ==> devices[d].conn != g)
  }

  ghost predicate HelloTrue(info: Infos, links: Links, alive: set<nat>, devices: Devices, c: nat, d: nat) {
    c in info && info[c].hello.recovered.Some? ==>
          DoneWith(info, links, alive, devices, info[c].hello.recovered.value, d)
  }

  ghost predicate ProcessTrue(info: Infos, procs: map<AgentId, Process>, links: Links, alive: set<nat>,
                              devices: Devices,
                              a: AgentId, d: nat)
  {
    a in procs && procs[a].recovered.Some? ==> DoneWith(info, links, alive, devices, procs[a].recovered.value, d)
  }

  /** No host has booted since a living receiver's connection was made. */
  ghost predicate SameBoot(info: Infos, boots: map<AgentId, nat>, alive: set<nat>, devices: Devices, c: nat, d: nat) {
    c in info && d in alive && d in devices && info[c].agent == devices[d].agent && devices[d].conn <= c ==>
      BootIs(boots, info[c].hello.boot, info[c].agent)
  }

  ghost predicate WorkerShape(v: View, sent: set<nat>, a: AgentId, d: nat) {
    a in v.links ==>
      match v.links[a]
      case Waiting(c) => d in v.alive && d in v.devices ==> v.devices[d].conn != c
      case Attached(c, _, workers, exiting, _) =>
        && (d in workers || d in exiting ==>
              && d in v.devices && v.devices[d].conn == c && v.devices[d].agent == a && d in sent
              && !Queued(v.devices, v.toAgent, d))
        && (d in exiting ==> d !in workers && (!exiting[d] ==> d !in v.alive))
  }

  /** A receiver alive on its process's connection is in the worker table, or its cleanup
      failed and the failure is still to be reported, on its way, or known to the hub. */
  ghost predicate Accounted(links: Links, devices: Devices, alive: set<nat>, sessions: map<nat, Session>,
                            agentClosed: set<nat>, toHub: ToHub, a: AgentId, d: nat)
  {
    a in links && links[a].Attached? && d in alive && d in devices && devices[d].conn == links[a].conn ==>
      var l := links[a];
      || d in l.workers
      || (l.cleanupFailed
          && (|| (d in l.exiting && l.exiting[d])
              || d !in sessions
              || l.conn in agentClosed
              || Stopped(d, true) in Queue(toHub, l.conn)))
  }

  // -------------------------------------------------------------------- the invariant

  ghost predicate InvShape(s: State) {
    && (forall d :: DeviceShape(s.info, s.devices, s.hub.registered, s.next, d))
    && (forall c :: ConnShape(s.info, s.hubClosed, s.hub.connections, s.next, c))
    && (forall c :: PeerShape(s.info, s.hub.registered, c))
    && (forall k :: KeyShape(s.info, s.hub.registered, s.hub.quarantined, k))
    && (forall a :: SlotShape(s.info, s.hub.connections, a))
    && (forall a :: LinkShape(s.info, s.procs, s.links, s.boots, a))
    && (forall a, c :: Newest(s.info, s.links, a, c))
  }

  ghost predicate InvSessions(s: State) {
    && (forall d :: SessionShape(s.hub, s.devices, d))
    && (forall d :: FlagShape(s.hub, s.devices, s.flags, s.hubClosed, d))
    && (forall d, e :: PairShape(s.hub.sessions, s.devices, s.hubClosed, d, e))
    && (forall c :: CommandShape(s.devices, s.flags.sent, s.toAgent, c))
    && (forall c :: ReportShape(s.devices, s.flags.sent, s.toAgent, s.toHub, c))
  }

  ghost predicate InvLive(s: State) {
    && (forall d :: Covered(View(s.devices, s.alive, s.toAgent, s.links), s.hub, s.flags.sent, s.hubClosed, d))
    && (forall d, e :: Alone(View(s.devices, s.alive, s.toAgent, s.links), s.hub.sessions, s.flags.sent, s.hubClosed,
         d, e))
    && (forall d :: StartOrder(s.devices, s.toAgent, s.alive, s.flags.sent, d))
    && (forall d :: ReportOrder(s.devices, s.hub, s.flags.sent, s.hubClosed, s.alive, s.toHub, d))
  }

  ghost predicate InvProcs(s: State) {
    && (forall c, d :: HelloTrue(s.info, s.links, s.alive, s.devices, c, d))
    && (forall a, d :: ProcessTrue(s.info, s.procs, s.links, s.alive, s.devices, a, d))
    && (forall c, d :: SameBoot(s.info, s.boots, s.alive, s.devices, c, d))
    && (forall a, d :: WorkerShape(View(s.devices, s.alive, s.toAgent, s.links), s.flags.sent, a, d))
    && (forall a, d :: Accounted(s.links, s.devices, s.alive, s.hub.sessions, s.agentClosed, s.toHub, a, d))
  }

  ghost predicate Inv(s: State) { InvShape(s) && InvSessions(s) && InvLive(s) && InvProcs(s) }

  lemma InitialInv()
    ensures Inv(Initial())
  {
  }

  // ------------------------------------------------------------------ queue lemmas

  lemma StartFirstAppend(q: seq<Command>, m: Command, d: nat)
    requires StartFirst(q, d)
    requires m.Start? && m.session == d ==> forall x | x in q :: !About(x, d)
    ensures StartFirst(q + [m], d)
  {}

  lemma StartFirstPop(q: seq<Command>, d: nat, t: TunerName)
    requires q != [] && StartFirst(q, d)
    ensures StartFirst(q[1..], d)
    ensures About(q[0], d) ==> Start(d, t) !in q[1..]
  {}

  lemma FailureFirstAppend(q: seq<Report>, m: Report, d: nat)
    requires FailureFirst(q, d)
    requires m == Stopped(d, false) ==> Stopped(d, true) in q
    ensures FailureFirst(q + [m], d)
  {
    forall i | 0 <= i < |q + [m]| && (q + [m])[i] == Stopped(d, false)
      ensures Stopped(d, true) in (q + [m])[..i]
    {
      if i < |q| { assert (q + [m])[..i] == q[..i]; } else { assert (q + [m])[..i] == q; }
    }
  }

  lemma FailureFirstPop(q: seq<Report>, d: nat)
    requires q != [] && FailureFirst(q, d)
    ensures q[0] != Stopped(d, false)
    ensures q[0] != Stopped(d, true) ==> FailureFirst(q[1..], d)
  {}

  // ------------------------------------------------------------- withheld tuners

  ghost predicate ShieldsStay(s: State, t: State) {
    && (s.hub.closed ==> t.hub.closed)
    && forall d, e :: Shields(s.devices, s.hub.sessions, s.flags.sent, s.hubClosed, d, e) ==>
                        Shields(t.devices, t.hub.sessions, t.flags.sent, t.hubClosed, d, e)
  }

  lemma WithheldStays(s: State, t: State)
    requires ShieldsStay(s, t)
    ensures forall d :: Withheld(s.devices, s.hub, s.flags.sent, s.hubClosed, d) ==>
              Withheld(t.devices, t.hub, t.flags.sent, t.hubClosed, d)
  {
    forall d | Withheld(s.devices, s.hub, s.flags.sent, s.hubClosed, d)
      ensures Withheld(t.devices, t.hub, t.flags.sent, t.hubClosed, d)
    {
      if !s.hub.closed {
        var e :| Shields(s.devices, s.hub.sessions, s.flags.sent, s.hubClosed, d, e);
        assert Shields(t.devices, t.hub.sessions, t.flags.sent, t.hubClosed, d, e);
      }
    }
  }

  // ---------------------------------------------------------------- quiet steps

  lemma HubClosesKeepsInv(s: State, n: nat)
    requires Inv(s)
    ensures Inv(s.(hubClosed := s.hubClosed + {n}))
  {
    var closed := s.hubClosed + {n};
    forall c ensures ConnShape(s.info, closed, s.hub.connections, s.next, c) {
      assert ConnShape(s.info, s.hubClosed, s.hub.connections, s.next, c);
    }
    forall d ensures FlagShape(s.hub, s.devices, s.flags, closed, d) {
      assert FlagShape(s.hub, s.devices, s.flags, s.hubClosed, d);
    }
    forall d, e ensures PairShape(s.hub.sessions, s.devices, closed, d, e) {
      assert PairShape(s.hub.sessions, s.devices, s.hubClosed, d, e);
    }
    var v := View(s.devices, s.alive, s.toAgent, s.links);
    WithheldStays(s, s.(hubClosed := closed));
    forall d ensures Covered(v, s.hub, s.flags.sent, closed, d) {
      assert Covered(v, s.hub, s.flags.sent, s.hubClosed, d);
    }
    forall d, e ensures Alone(v, s.hub.sessions, s.flags.sent, closed, d, e) {
      assert Alone(v, s.hub.sessions, s.flags.sent, s.hubClosed, d, e);
    }
    forall d ensures ReportOrder(s.devices, s.hub, s.flags.sent, closed, s.alive, s.toHub, d) {
      assert ReportOrder(s.devices, s.hub, s.flags.sent, s.hubClosed, s.alive, s.toHub, d);
    }
  }

  lemma SendBreaksKeepsInv(s: State, n: nat)
    requires Inv(s)
    ensures Inv(s.(agentClosed := s.agentClosed + {n}))
  {
    forall a, d ensures Accounted(s.links, s.devices, s.alive, s.hub.sessions, s.agentClosed + {n}, s.toHub, a, d) {
      assert Accounted(s.links, s.devices, s.alive, s.hub.sessions, s.agentClosed, s.toHub, a, d);
    }
  }

  lemma ShutdownKeepsInv(s: State)
    requires Inv(s)
    ensures Inv(s.(hub := s.hub.(closed := true)))
  {
    var h := s.hub.(closed := true);
    forall d ensures SessionShape(h, s.devices, d) { assert SessionShape(s.hub, s.devices, d); }
    forall d ensures FlagShape(h, s.devices, s.flags, s.hubClosed, d) {
      assert FlagShape(s.hub, s.devices, s.flags, s.hubClosed, d);
    }
    WithheldStays(s, s.(hub := h));
    forall d ensures Covered(View(s.devices, s.alive, s.toAgent, s.links), h, s.flags.sent, s.hubClosed, d) {
      assert Covered(View(s.devices, s.alive, s.toAgent, s.links), s.hub, s.flags.sent, s.hubClosed, d);
    }
  }

  lemma ReleasedKeepsInv(s: State, x: nat)
    requires Inv(s) && x in s.devices && x in s.flags.cleaned
    ensures Inv(s.(flags := s.flags.(released := s.flags.released + {x})))
  {
    var f := s.flags.(released := s.flags.released + {x});
    forall d ensures FlagShape(s.hub, s.devices, f, s.hubClosed, d) {
      assert FlagShape(s.hub, s.devices, s.flags, s.hubClosed, d);
    }
  }

  ghost predicate NoMore(l: Link, was: Link) {
    l == was || (was.Attached? && l == was.(open := false))
  }

  /** With no more sessions live than before, the live ones stay known and alone. */
  lemma FewerLive(s: State, alive: set<nat>, links: Links)
    requires InvLive(s)
    requires forall d :: Live(View(s.devices, alive, s.toAgent, links), d) ==>
               Live(View(s.devices, s.alive, s.toAgent, s.links), d)
    ensures forall d :: Covered(View(s.devices, alive, s.toAgent, links), s.hub, s.flags.sent, s.hubClosed, d)
    ensures forall d, e ::
              Alone(View(s.devices, alive, s.toAgent, links), s.hub.sessions, s.flags.sent, s.hubClosed, d, e)
  {
    var v := View(s.devices, s.alive, s.toAgent, s.links);
    var v' := View(s.devices, alive, s.toAgent, links);
    forall d ensures Covered(v', s.hub, s.flags.sent, s.hubClosed, d) {
      assert Covered(v, s.hub, s.flags.sent, s.hubClosed, d);
    }
    forall d, e ensures Alone(v', s.hub.sessions, s.flags.sent, s.hubClosed, d, e) {
      assert Alone(v, s.hub.sessions, s.flags.sent, s.hubClosed, d, e);
    }
  }

  /** Receivers dying, processes vanishing and links closing. */
  lemma LossKeepsInv(s: State, procs: map<AgentId, Process>, links: Links, alive: set<nat>)
    requires Inv(s) && alive <= s.alive
    requires forall a | a in procs :: a in s.procs && procs[a] == s.procs[a]
    requires forall a | a in links :: a in s.links && a in procs && NoMore(links[a], s.links[a])
    ensures Inv(s.(procs := procs, links := links, alive := alive))
  {
    var v := View(s.devices, s.alive, s.toAgent, s.links);
    var v' := View(s.devices, alive, s.toAgent, links);
    forall a ensures LinkShape(s.info, procs, links, s.boots, a) {
      assert LinkShape(s.info, s.procs, s.links, s.boots, a);
    }
    forall a, c ensures Newest(s.info, links, a, c) { assert Newest(s.info, s.links, a, c); }
    forall d ensures Live(v', d) ==> Live(v, d) {}
    FewerLive(s, alive, links);
    forall d ensures StartOrder(s.devices, s.toAgent, alive, s.flags.sent, d) {
      assert StartOrder(s.devices, s.toAgent, s.alive, s.flags.sent, d);
    }
    forall d ensures ReportOrder(s.devices, s.hub, s.flags.sent, s.hubClosed, alive, s.toHub, d) {
      assert ReportOrder(s.devices, s.hub, s.flags.sent, s.hubClosed, s.alive, s.toHub, d);
    }
    LossKeepsProcs(s, procs, links, alive);
  }

  lemma LossKeepsProcs(s: State, procs: map<AgentId, Process>, links: Links, alive: set<nat>)
    requires Inv(s) && alive <= s.alive
    requires forall a | a in procs :: a in s.procs && procs[a] == s.procs[a]
    requires forall a | a in links :: a in s.links && a in procs && NoMore(links[a], s.links[a])
    ensures InvProcs(s.(procs := procs, links := links, alive := alive))
  {
    forall c, d ensures HelloTrue(s.info, links, alive, s.devices, c, d) {
      assert HelloTrue(s.info, s.links, s.alive, s.devices, c, d);
    }
    forall a, d ensures ProcessTrue(s.info, procs, links, alive, s.devices, a, d) {
      assert ProcessTrue(s.info, s.procs, s.links, s.alive, s.devices, a, d);
    }
    forall c, d ensures SameBoot(s.info, s.boots, alive, s.devices, c, d) {
      assert SameBoot(s.info, s.boots, s.alive, s.devices, c, d);
    }
    forall a, d ensures WorkerShape(View(s.devices, alive, s.toAgent, links), s.flags.sent, a, d) {
      assert WorkerShape(View(s.devices, s.alive, s.toAgent, s.links), s.flags.sent, a, d);
    }
    forall a, d ensures Accounted(links, s.devices, alive, s.hub.sessions, s.agentClosed, s.toHub, a, d) {
      assert Accounted(s.links, s.devices, s.alive, s.hub.sessions, s.agentClosed, s.toHub, a, d);
    }
  }

  lemma FreshKeepsInv(s: State)
    requires Inv(s)
    ensures Inv(s.(next := s.next + 1))
  {
    var n := s.next + 1;
    forall d ensures DeviceShape(s.info, s.devices, s.hub.registered, n, d) {
      assert DeviceShape(s.info, s.devices, s.hub.registered, s.next, d);
    }
    forall c ensures ConnShape(s.info, s.hubClosed, s.hub.connections, n, c) {
      assert ConnShape(s.info, s.hubClosed, s.hub.connections, s.next, c);
    }
  }

  lemma ProcessKeepsInv(s: State, x: AgentId, p: Process)
    requires Inv(s) && x !in s.procs && BootIs(s.boots, p.boot, x) && p.recovered.None?
    ensures Inv(s.(procs := s.procs[x := p])) && s.links - {x} == s.links
  {
    var procs := s.procs[x := p];
    assert LinkShape(s.info, s.procs, s.links, s.boots, x);
    forall a ensures LinkShape(s.info, procs, s.links, s.boots, a) {
      assert LinkShape(s.info, s.procs, s.links, s.boots, a);
    }
    forall a, d ensures ProcessTrue(s.info, procs, s.links, s.alive, s.devices, a, d) {
      assert ProcessTrue(s.info, s.procs, s.links, s.alive, s.devices, a, d);
    }
  }

  lemma BootKeepsInv(s: State, x: AgentId, readable: bool)
    requires Inv(s) && x !in s.procs
    ensures Inv(DoBoot(s, x, readable))
  {
    var p := Process(s.next, if readable then Some(Boot(s, x)) else None, None);
    ProcessKeepsInv(s, x, p);
    FreshKeepsInv(s.(procs := s.procs[x := p]));
  }

  /** No process of the agent is linked, and nothing it started is alive: its boot may change. */
  lemma NewBootKeepsInv(s: State, x: AgentId, boot: nat)
    requires Inv(s) && x !in s.procs && x !in s.links && forall d | d in s.alive && d in s.devices ::
               s.devices[d].agent != x
    ensures Inv(s.(boots := s.boots[x := boot]))
  {
    var boots := s.boots[x := boot];
    forall a ensures LinkShape(s.info, s.procs, s.links, boots, a) {
      assert LinkShape(s.info, s.procs, s.links, s.boots, a);
    }
    forall c, d ensures SameBoot(s.info, boots, s.alive, s.devices, c, d) {
      assert SameBoot(s.info, s.boots, s.alive, s.devices, c, d);
    }
  }

  /** The agent's process, link and receivers are gone. */
  function HostLost(s: State, x: AgentId): State {
    s.(procs := s.procs - {x}, links := s.links - {x},
       alive := set d | d in s.alive && !(d in s.devices && s.devices[d].agent == x))
  }

  lemma HostLostKeepsInv(s: State, x: AgentId)
    requires Inv(s)
    ensures Inv(HostLost(s, x))
  {
    var s1 := HostLost(s, x);
    forall a | a in s1.links ensures a in s1.procs { assert LinkShape(s.info, s.procs, s.links, s.boots, a); }
    LossKeepsInv(s, s1.procs, s1.links, s1.alive);
  }

  lemma RebootKeepsInv(s: State, x: AgentId)
    requires Inv(s)
    ensures Inv(DoReboot(s, x))
  {
    var s1 := HostLost(s, x);
    HostLostKeepsInv(s, x);
    NewBootKeepsInv(s1, x, s.next);
    FreshKeepsInv(s1.(boots := s.boots[x := s.next]));
  }

  // -------------------------------------------------------------------- messages

  /** Queueing a welcome or a stop. */
  lemma TellKeepsInv(s: State, n: nat, m: Command)
    requires Inv(s) && !m.Start? && GoodCommand(s.devices, s.flags.sent, n, m)
    ensures Inv(Tell(s, n, m))
  {
    var q := Queue(s.toAgent, n);
    var toAgent := s.toAgent[n := q + [m]];
    forall d ensures Queued(s.devices, toAgent, d) == Queued(s.devices, s.toAgent, d) {}
    forall c ensures CommandShape(s.devices, s.flags.sent, toAgent, c) {
      assert CommandShape(s.devices, s.flags.sent, s.toAgent, c);
    }
    forall d ensures StartOrder(s.devices, toAgent, s.alive, s.flags.sent, d) {
      assert StartOrder(s.devices, s.toAgent, s.alive, s.flags.sent, d);
      if d in s.devices && s.devices[d].conn == n { StartFirstAppend(q, m, d); }
    }
    SameQueuedKeepsInv(s, toAgent);
  }

  /** Parts of the invariant that see the agents' queues only through their start commands. */
  lemma SameQueuedKeepsInv(s: State, toAgent: ToAgent)
    requires Inv(s)
    requires forall d :: Queued(s.devices, toAgent, d) ==> Queued(s.devices, s.toAgent, d)
    requires forall c :: CommandShape(s.devices, s.flags.sent, toAgent, c)
    requires forall d :: StartOrder(s.devices, toAgent, s.alive, s.flags.sent, d)
    ensures Inv(s.(toAgent := toAgent))
  {
    var v := View(s.devices, s.alive, s.toAgent, s.links);
    var v' := View(s.devices, s.alive, toAgent, s.links);
    forall c ensures ReportShape(s.devices, s.flags.sent, toAgent, s.toHub, c) {
      assert ReportShape(s.devices, s.flags.sent, s.toAgent, s.toHub, c);
    }
    forall d ensures Covered(v', s.hub, s.flags.sent, s.hubClosed, d) {
      assert Covered(v, s.hub, s.flags.sent, s.hubClosed, d);
    }
    forall d, e ensures Alone(v', s.hub.sessions, s.flags.sent, s.hubClosed, d, e) {
      assert Alone(v, s.hub.sessions, s.flags.sent, s.hubClosed, d, e);
    }
    forall a, d ensures WorkerShape(v', s.flags.sent, a, d) { assert WorkerShape(v, s.flags.sent, a, d); }
  }

  /** A report to the hub. */
  lemma TellbackKeepsInv(s: State, n: nat, m: Report)
    requires Inv(s) && GoodReport(s.devices, s.flags.sent, s.toAgent, n, m)
    requires !m.failed && m.session in s.alive && m.session in s.hub.sessions && n !in s.agentClosed ==>
               Stopped(m.session, true) in Queue(s.toHub, n)
                   || Withheld(s.devices, s.hub, s.flags.sent, s.hubClosed, m.session)
    ensures Inv(Tellback(s, n, m))
  {
    if n !in s.agentClosed {
      var q := Queue(s.toHub, n);
      var toHub := s.toHub[n := q + [m]];
      forall c ensures ReportShape(s.devices, s.flags.sent, s.toAgent, toHub, c) {
        assert ReportShape(s.devices, s.flags.sent, s.toAgent, s.toHub, c);
      }
      forall d ensures ReportOrder(s.devices, s.hub, s.flags.sent, s.hubClosed, s.alive, toHub, d) {
        assert ReportOrder(s.devices, s.hub, s.flags.sent, s.hubClosed, s.alive, s.toHub, d);
        if d in s.devices && d in s.hub.sessions && d in s.alive && s.devices[d].conn == n
           && !Withheld(s.devices, s.hub, s.flags.sent, s.hubClosed, d) { FailureFirstAppend(q, m, d); }
      }
      forall a, d ensures Accounted(s.links, s.devices, s.alive, s.hub.sessions, s.agentClosed, toHub, a, d) {
        assert Accounted(s.links, s.devices, s.alive, s.hub.sessions, s.agentClosed, s.toHub, a, d);
      }
    }
  }

  /** Taking a message off the agent's queue. */
  lemma PopKeepsInv(s: State, n: nat)
    requires Inv(s) && Queue(s.toAgent, n) != []
    ensures Inv(Popped(s, n))
  {
    var q := Queue(s.toAgent, n);
    var toAgent := s.toAgent[n := q[1..]];
    assert forall m | m in q[1..] :: m in q;
    forall c ensures CommandShape(s.devices, s.flags.sent, toAgent, c) {
      assert CommandShape(s.devices, s.flags.sent, s.toAgent, c);
    }
    forall d ensures StartOrder(s.devices, toAgent, s.alive, s.flags.sent, d) {
      assert StartOrder(s.devices, s.toAgent, s.alive, s.flags.sent, d);
      if d in s.devices && s.devices[d].conn == n { StartFirstPop(q, d, s.devices[d].tuner); }
    }
    SameQueuedKeepsInv(s, toAgent);
  }

  // ----------------------------------------------------------------- connecting

  lemma ConnectKeepsInv(s: State, x: AgentId)
    requires Inv(s) && CanConnect(s, x)
    ensures Inv(DoConnect(s, x))
  {
    var s' := DoConnect(s, x);
    assert ConnShape(s.info, s.hubClosed, s.hub.connections, s.next, s.next);
    forall d ensures DeviceShape(s'.info, s'.devices, s'.hub.registered, s'.next, d) {
      assert DeviceShape(s.info, s.devices, s.hub.registered, s.next, d);
    }
    forall c ensures ConnShape(s'.info, s'.hubClosed, s'.hub.connections, s'.next, c) {
      assert ConnShape(s.info, s.hubClosed, s.hub.connections, s.next, c);
    }
    forall c ensures PeerShape(s'.info, s'.hub.registered, c) { assert PeerShape(s.info, s.hub.registered, c); }
    forall k ensures KeyShape(s'.info, s'.hub.registered, s'.hub.quarantined, k) {
      assert KeyShape(s.info, s.hub.registered, s.hub.quarantined, k);
    }
    forall a ensures SlotShape(s'.info, s'.hub.connections, a) { assert SlotShape(s.info, s.hub.connections, a); }
    forall a ensures LinkShape(s'.info, s'.procs, s'.links, s'.boots, a) {
      assert LinkShape(s.info, s.procs, s.links, s.boots, a);
    }
    forall a, c ensures Newest(s'.info, s'.links, a, c) {
      assert Newest(s.info, s.links, a, c) && ConnShape(s.info, s.hubClosed, s.hub.connections, s.next, c);
    }
    forall d ensures SessionShape(s'.hub, s'.devices, d) { assert SessionShape(s.hub, s.devices, d); }
    forall d ensures FlagShape(s'.hub, s'.devices, s'.flags, s'.hubClosed, d) {
      assert FlagShape(s.hub, s.devices, s.flags, s.hubClosed, d);
    }
    ConnectKeepsLive(s, x);
    ConnectKeepsProcs(s, x);
  }

  lemma ConnectKeepsLive(s: State, x: AgentId)
    requires Inv(s) && CanConnect(s, x)
    ensures InvLive(DoConnect(s, x))
  {
    var s' := DoConnect(s, x);
    var v := View(s.devices, s.alive, s.toAgent, s.links);
    var v' := View(s'.devices, s'.alive, s'.toAgent, s'.links);
    assert ConnShape(s.info, s.hubClosed, s.hub.connections, s.next, s.next);
    forall d ensures Live(v', d) ==> Live(v, d) { assert DeviceShape(s.info, s.devices, s.hub.registered, s.next, d); }
    WithheldStays(s, s');
    forall d ensures ReportOrder(s.devices, s'.hub, s.flags.sent, s.hubClosed, s.alive, s.toHub, d) {
      assert ReportOrder(s.devices, s.hub, s.flags.sent, s.hubClosed, s.alive, s.toHub, d);
    }
    forall d ensures Covered(v', s'.hub, s'.flags.sent, s'.hubClosed, d) {
      assert Covered(v, s.hub, s.flags.sent, s.hubClosed, d);
    }
    forall d, e ensures Alone(v', s'.hub.sessions, s'.flags.sent, s'.hubClosed, d, e) {
      assert Alone(v, s.hub.sessions, s.flags.sent, s.hubClosed, d, e);
    }
  }

  lemma ConnectKeepsProcs(s: State, x: AgentId)
    requires Inv(s) && CanConnect(s, x)
    ensures InvProcs(DoConnect(s, x))
  {
    var s' := DoConnect(s, x);
    forall c, d ensures HelloTrue(s'.info, s'.links, s'.alive, s'.devices, c, d) {
      assert HelloTrue(s.info, s.links, s.alive, s.devices, c, d)
             && ProcessTrue(s.info, s.procs, s.links, s.alive, s.devices, x, d);
      assert ConnShape(s.info, s.hubClosed, s.hub.connections, s.next, s.next);
    }
    forall a, d ensures ProcessTrue(s'.info, s'.procs, s'.links, s'.alive, s'.devices, a, d) {
      assert ProcessTrue(s.info, s.procs, s.links, s.alive, s.devices, a, d);
      assert ConnShape(s.info, s.hubClosed, s.hub.connections, s.next, s.next);
    }
    forall c, d ensures SameBoot(s'.info, s'.boots, s'.alive, s'.devices, c, d) {
      assert SameBoot(s.info, s.boots, s.alive, s.devices, c, d) && LinkShape(s.info, s.procs, s.links, s.boots, x);
    }
    forall a, d ensures WorkerShape(View(s'.devices, s'.alive, s'.toAgent, s'.links), s'.flags.sent, a, d) {
      assert WorkerShape(View(s.devices, s.alive, s.toAgent, s.links), s.flags.sent, a, d);
      assert DeviceShape(s.info, s.devices, s.hub.registered, s.next, d);
      assert ConnShape(s.info, s.hubClosed, s.hub.connections, s.next, s.next);
    }
    forall a, d ensures Accounted(s'.links, s'.devices, s'.alive, s'.hub.sessions, s'.agentClosed, s'.toHub, a, d) {
      assert Accounted(s.links, s.devices, s.alive, s.hub.sessions, s.agentClosed, s.toHub, a, d);
    }
  }

  /** A lifted quarantine protected nothing: the process had finished that connection, or
      the host has booted since. */
  lemma LiftedIsDead(s: State, x: AgentId, d: nat)
    requires Inv(s) && CanHello(s, x) && d in s.devices && s.devices[d].agent == x
    requires Lifts(s.hub.registered, s.devices[d].conn, s.info[s.hub.connections[x]].hello)
    ensures !Live(View(s.devices, s.alive, s.toAgent, s.links), d)
  {
    var c := s.hub.connections[x];
    var g := s.devices[d].conn;
    assert SlotShape(s.info, s.hub.connections, x) && DeviceShape(s.info, s.devices, s.hub.registered, s.next, d);
    assert ConnShape(s.info, s.hubClosed, s.hub.connections, s.next, g) && PeerShape(s.info, s.hub.registered, g);
    assert HelloTrue(s.info, s.links, s.alive, s.devices, c, d);
    assert SameBoot(s.info, s.boots, s.alive, s.devices, c, d) && SameBoot(s.info, s.boots, s.alive, s.devices, g, d);
    assert Newest(s.info, s.links, x, c);
  }

  lemma HelloKeepsInv(s: State, x: AgentId)
    requires Inv(s) && CanHello(s, x)
    ensures Inv(DoHello(s, x))
  {
    var c0 := s.hub.connections[x];
    var h := Registered(s.hub, x, c0, s.info[c0].hello);
    var v := View(s.devices, s.alive, s.toAgent, s.links);
    forall d ensures DeviceShape(s.info, s.devices, h.registered, s.next, d) {
      assert DeviceShape(s.info, s.devices, s.hub.registered, s.next, d);
    }
    forall c ensures PeerShape(s.info, h.registered, c) { assert PeerShape(s.info, s.hub.registered, c); }
    forall k ensures KeyShape(s.info, h.registered, h.quarantined, k) {
      assert KeyShape(s.info, s.hub.registered, s.hub.quarantined, k);
    }
    forall d ensures SessionShape(h, s.devices, d) { assert SessionShape(s.hub, s.devices, d); }
    forall d ensures FlagShape(h, s.devices, s.flags, s.hubClosed, d) {
      assert FlagShape(s.hub, s.devices, s.flags, s.hubClosed, d) && SessionShape(s.hub, s.devices, d);
      assert DeviceShape(s.info, s.devices, s.hub.registered, s.next, d);
    }
    WithheldStays(s, s.(hub := h));
    forall d ensures Covered(v, h, s.flags.sent, s.hubClosed, d) {
      assert Covered(v, s.hub, s.flags.sent, s.hubClosed, d);
      if d in s.devices && s.devices[d].agent == x && Lifts(s.hub.registered, s.devices[d].conn, s.info[c0].hello) {
        LiftedIsDead(s, x, d);
      }
    }
    forall d ensures ReportOrder(s.devices, h, s.flags.sent, s.hubClosed, s.alive, s.toHub, d) {
      assert ReportOrder(s.devices, s.hub, s.flags.sent, s.hubClosed, s.alive, s.toHub, d);
    }
    TellKeepsInv(s.(hub := h), c0, Welcome);
  }

  lemma DisconnectKeepsInv(s: State, x: AgentId)
    requires Inv(s) && x in s.hub.connections
    ensures Inv(DoDisconnect(s, x))
  {
    var s' := DoDisconnect(s, x);
    var n := s.hub.connections[x];
    var v := View(s.devices, s.alive, s.toAgent, s.links);
    assert SlotShape(s.info, s.hub.connections, x);
    forall c ensures ConnShape(s'.info, s'.hubClosed, s'.hub.connections, s'.next, c) {
      assert ConnShape(s.info, s.hubClosed, s.hub.connections, s.next, c);
    }
    forall k ensures KeyShape(s'.info, s'.hub.registered, s'.hub.quarantined, k) {
      assert KeyShape(s.info, s.hub.registered, s.hub.quarantined, k);
      if k in KeysOn(s.hub.sessions, x, n) {
        var d :| d in s.hub.sessions && s.hub.sessions[d].conn == n && k == TunerKey(x, s.hub.sessions[d].tuner);
        assert SessionShape(s.hub, s.devices, d) && DeviceShape(s.info, s.devices, s.hub.registered, s.next, d);
      }
    }
    forall a ensures SlotShape(s'.info, s'.hub.connections, a) { assert SlotShape(s.info, s.hub.connections, a); }
    forall d ensures SessionShape(s'.hub, s'.devices, d) {
      assert SessionShape(s.hub, s.devices, d);
      if d in s'.hub.sessions { assert s.devices[d].agent != x; }
    }
    forall d ensures FlagShape(s'.hub, s'.devices, s'.flags, s'.hubClosed, d) {
      assert FlagShape(s.hub, s.devices, s.flags, s.hubClosed, d) && SessionShape(s.hub, s.devices, d);
    }
    forall d, e ensures PairShape(s'.hub.sessions, s'.devices, s'.hubClosed, d, e) {
      assert PairShape(s.hub.sessions, s.devices, s.hubClosed, d, e);
    }
    forall d ensures Covered(v, s'.hub, s'.flags.sent, s'.hubClosed, d) {
      assert Covered(v, s.hub, s.flags.sent, s.hubClosed, d);
      if Live(v, d) { DisconnectKeepsKnown(s, x, d); }
    }
    forall d, e ensures Alone(v, s'.hub.sessions, s'.flags.sent, s'.hubClosed, d, e) {
      assert Alone(v, s.hub.sessions, s.flags.sent, s.hubClosed, d, e);
    }
    forall d ensures ReportOrder(s.devices, s'.hub, s'.flags.sent, s'.hubClosed, s.alive, s.toHub, d) {
      assert ReportOrder(s.devices, s.hub, s.flags.sent, s.hubClosed, s.alive, s.toHub, d);
      assert SessionShape(s.hub, s.devices, d);
      if d in s'.hub.sessions { DisconnectKeepsShields(s, x, d); }
    }
    forall a, d ensures Accounted(s.links, s.devices, s.alive, s'.hub.sessions, s.agentClosed, s.toHub, a, d) {
      assert Accounted(s.links, s.devices, s.alive, s.hub.sessions, s.agentClosed, s.toHub, a, d);
    }
  }

  lemma DisconnectKeepsShields(s: State, x: AgentId, d: nat)
    requires Inv(s) && x in s.hub.connections && d in s.devices && s.devices[d].conn != s.hub.connections[x]
    ensures var s' := DoDisconnect(s, x);
            Withheld(s.devices, s.hub, s.flags.sent, s.hubClosed, d) ==>
                  Withheld(s'.devices, s'.hub, s'.flags.sent, s'.hubClosed, d)
  {
    var s' := DoDisconnect(s, x);
    if !s.hub.closed && Withheld(s.devices, s.hub, s.flags.sent, s.hubClosed, d) {
      var e :| Shields(s.devices, s.hub.sessions, s.flags.sent, s.hubClosed, d, e);
      assert SessionShape(s.hub, s.devices, e);
      assert Shields(s'.devices, s'.hub.sessions, s'.flags.sent, s'.hubClosed, d, e);
    }
  }

  /** A session of another connection stays known: nobody else's quarantine is on its tuner. */
  lemma DisconnectKeepsOthers(s: State, x: AgentId, d: nat)
    requires Inv(s) && x in s.hub.connections && d in s.devices && s.devices[d].conn != s.hub.connections[x]
    requires Known(s.devices, s.hub, s.flags.sent, s.hubClosed, d)
    ensures var s' := DoDisconnect(s, x); Known(s'.devices, s'.hub, s'.flags.sent, s'.hubClosed, d)
  {
    var n := s.hub.connections[x];
    var k := KeyOf(s.devices[d]);
    assert SessionShape(s.hub, s.devices, d);
    DisconnectKeepsShields(s, x, d);
    if k in KeysOn(s.hub.sessions, x, n) {
      var e :| e in s.hub.sessions && s.hub.sessions[e].conn == n && k == TunerKey(x, s.hub.sessions[e].tuner);
      assert SessionShape(s.hub, s.devices, e) && DeviceShape(s.info, s.devices, s.hub.registered, s.next, e);
      assert SlotShape(s.info, s.hub.connections, x);
    }
  }

  /** A session of the lost connection is quarantined for, itself or with the one that occupies its tuner. */
  lemma DisconnectQuarantines(s: State, x: AgentId, d: nat, e: nat)
    requires Inv(s) && x in s.hub.connections && d in s.devices && e in s.hub.sessions && e in s.devices
    requires s.devices[d].conn == s.hub.connections[x] == s.devices[e].conn
             && KeyOf(s.devices[d]) == KeyOf(s.devices[e])
    ensures var s' := DoDisconnect(s, x); Known(s'.devices, s'.hub, s'.flags.sent, s'.hubClosed, d)
  {
    var n := s.hub.connections[x];
    assert SessionShape(s.hub, s.devices, e) && DeviceShape(s.info, s.devices, s.hub.registered, s.next, d);
    assert SlotShape(s.info, s.hub.connections, x);
    assert KeyOf(s.devices[d]) == TunerKey(x, s.hub.sessions[e].tuner)
           && KeyOf(s.devices[d]) in KeysOn(s.hub.sessions, x, n);
  }

  lemma DisconnectKeepsKnown(s: State, x: AgentId, d: nat)
    requires Inv(s) && x in s.hub.connections && d in s.devices && Known(s.devices, s.hub, s.flags.sent, s.hubClosed, d)
    ensures var s' := DoDisconnect(s, x); Known(s'.devices, s'.hub, s'.flags.sent, s'.hubClosed, d)
  {
    if s.devices[d].conn != s.hub.connections[x] {
      DisconnectKeepsOthers(s, x, d);
    } else if d in s.hub.sessions {
      DisconnectQuarantines(s, x, d, d);
    } else if !s.hub.closed && Withheld(s.devices, s.hub, s.flags.sent, s.hubClosed, d) {
      var e :| Shields(s.devices, s.hub.sessions, s.flags.sent, s.hubClosed, d, e);
      DisconnectQuarantines(s, x, d, e);
    }
  }

  // ------------------------------------------------------------------- sessions

  /** A tuner with a live session is registered again only on a connection the hub can no longer send on. */
  lemma RegisteredOnDead(s: State, x: TunerKey, d: nat)
    requires Inv(s) && CanRegister(s, x) && Live(View(s.devices, s.alive, s.toAgent, s.links), d)
             && KeyOf(s.devices[d]) == x
    ensures s.hub.connections[x.agent] in s.hubClosed
  {
    assert Covered(View(s.devices, s.alive, s.toAgent, s.links), s.hub, s.flags.sent, s.hubClosed, d);
    assert FlagShape(s.hub, s.devices, s.flags, s.hubClosed, d) && SessionShape(s.hub, s.devices, d);
    if d !in s.hub.sessions {
      var e :| Shields(s.devices, s.hub.sessions, s.flags.sent, s.hubClosed, d, e);
      assert SessionShape(s.hub, s.devices, e);
    }
  }

  lemma RegisterKeepsInv(s: State, x: TunerKey)
    requires Inv(s) && CanRegister(s, x)
    ensures Inv(DoRegister(s, x))
  {
    var s' := DoRegister(s, x);
    var n := s.next;
    var c0 := s.hub.connections[x.agent];
    assert SlotShape(s.info, s.hub.connections, x.agent) && DeviceShape(s.info, s.devices, s.hub.registered, s.next, n);
    assert FlagShape(s.hub, s.devices, s.flags, s.hubClosed, n) && SessionShape(s.hub, s.devices, n);
    FreshKeepsInv(s);
    forall d ensures DeviceShape(s'.info, s'.devices, s'.hub.registered, s'.next, d) {
      assert DeviceShape(s.info, s.devices, s.hub.registered, s.next, d);
    }
    forall d ensures SessionShape(s'.hub, s'.devices, d) { assert SessionShape(s.hub, s.devices, d); }
    forall d ensures FlagShape(s'.hub, s'.devices, s'.flags, s'.hubClosed, d) {
      assert FlagShape(s.hub, s.devices, s.flags, s.hubClosed, d);
    }
    forall d, e ensures PairShape(s'.hub.sessions, s'.devices, s'.hubClosed, d, e) {
      assert PairShape(s.hub.sessions, s.devices, s.hubClosed, d, e);
      assert SessionShape(s.hub, s.devices, d) && SessionShape(s.hub, s.devices, e);
      assert FlagShape(s.hub, s.devices, s.flags, s.hubClosed, d)
             && FlagShape(s.hub, s.devices, s.flags, s.hubClosed, e);
    }
    RegisterKeepsRest(s, x);
  }

  lemma RegisterKeepsRest(s: State, x: TunerKey)
    requires Inv(s) && CanRegister(s, x)
    ensures InvLive(DoRegister(s, x)) && InvProcs(DoRegister(s, x))
    ensures forall c :: CommandShape(DoRegister(s, x).devices, s.flags.sent, s.toAgent, c)
    ensures forall c :: ReportShape(DoRegister(s, x).devices, s.flags.sent, s.toAgent, s.toHub, c)
  {
    var s' := DoRegister(s, x);
    var v := View(s.devices, s.alive, s.toAgent, s.links);
    var v' := View(s'.devices, s.alive, s.toAgent, s.links);
    var n := s.next;
    assert DeviceShape(s.info, s.devices, s.hub.registered, n, n)
           && StartOrder(s.devices, s.toAgent, s.alive, s.flags.sent, n);
    assert FlagShape(s.hub, s.devices, s.flags, s.hubClosed, n);
    var q := Queue(s.toAgent, s.hub.connections[x.agent]);
    assert CommandShape(s.devices, s.flags.sent, s.toAgent, s.hub.connections[x.agent]);
    forall i | 0 <= i < |q| ensures !About(q[i], n) { assert q[i] in q; }
    forall d ensures Live(v', d) == Live(v, d) {}
    forall c ensures CommandShape(s'.devices, s.flags.sent, s.toAgent, c) {
      assert CommandShape(s.devices, s.flags.sent, s.toAgent, c);
    }
    forall c ensures ReportShape(s'.devices, s.flags.sent, s.toAgent, s.toHub, c) {
      assert ReportShape(s.devices, s.flags.sent, s.toAgent, s.toHub, c);
    }
    WithheldStays(s, s');
    forall d ensures Covered(v', s'.hub, s'.flags.sent, s'.hubClosed, d) {
      assert Covered(v, s.hub, s.flags.sent, s.hubClosed, d);
    }
    forall d, e ensures Alone(v', s'.hub.sessions, s.flags.sent, s'.hubClosed, d, e) {
      assert Alone(v, s.hub.sessions, s.flags.sent, s.hubClosed, d, e);
      if e == n && Live(v, d) && KeyOf(s.devices[d]) == x { RegisteredOnDead(s, x, d); }
    }
    forall d ensures StartOrder(s'.devices, s.toAgent, s.alive, s.flags.sent, d) {
      assert StartOrder(s.devices, s.toAgent, s.alive, s.flags.sent, d);
    }
    forall d ensures ReportOrder(s'.devices, s'.hub, s'.flags.sent, s'.hubClosed, s.alive, s.toHub, d) {
      assert ReportOrder(s.devices, s.hub, s.flags.sent, s.hubClosed, s.alive, s.toHub, d);
    }
    RegisterKeepsProcs(s, x);
  }

  lemma RegisterKeepsProcs(s: State, x: TunerKey)
    requires Inv(s) && CanRegister(s, x)
    ensures InvProcs(DoRegister(s, x))
  {
    var s' := DoRegister(s, x);
    var n := s.next;
    assert DeviceShape(s.info, s.devices, s.hub.registered, n, n)
           && StartOrder(s.devices, s.toAgent, s.alive, s.flags.sent, n);
    forall c, d ensures HelloTrue(s.info, s.links, s.alive, s'.devices, c, d) {
      assert HelloTrue(s.info, s.links, s.alive, s.devices, c, d);
    }
    forall a, d ensures ProcessTrue(s.info, s.procs, s.links, s.alive, s'.devices, a, d) {
      assert ProcessTrue(s.info, s.procs, s.links, s.alive, s.devices, a, d);
    }
    forall c, d ensures SameBoot(s.info, s.boots, s.alive, s'.devices, c, d) {
      assert SameBoot(s.info, s.boots, s.alive, s.devices, c, d);
    }
    forall a, d ensures WorkerShape(View(s'.devices, s.alive, s.toAgent, s.links), s.flags.sent, a, d) {
      assert WorkerShape(View(s.devices, s.alive, s.toAgent, s.links), s.flags.sent, a, d);
    }
    forall a, d ensures Accounted(s.links, s'.devices, s.alive, s'.hub.sessions, s.agentClosed, s.toHub, a, d) {
      assert Accounted(s.links, s.devices, s.alive, s.hub.sessions, s.agentClosed, s.toHub, a, d);
    }
  }

  /** Nothing else of the tuner is live when its start command goes out. */
  lemma NothingElseLive(s: State, x: nat, e: nat)
    requires Inv(s) && CanStart(s, x, true)
    requires e in s.devices && e != x && KeyOf(s.devices[e]) == KeyOf(s.devices[x])
    ensures !Live(View(s.devices, s.alive, s.toAgent, s.links), e) && e !in s.hub.sessions
  {
    assert FlagShape(s.hub, s.devices, s.flags, s.hubClosed, x) && SessionShape(s.hub, s.devices, x);
    assert PairShape(s.hub.sessions, s.devices, s.hubClosed, x, e) && SessionShape(s.hub, s.devices, e);
    assert Alone(View(s.devices, s.alive, s.toAgent, s.links), s.hub.sessions, s.flags.sent, s.hubClosed, e, x);
  }

  /** A start command that enters the queue, whether or not the hub sees it leave. */
  lemma StartKeepsInv(s: State, x: nat, fails: bool)
    requires Inv(s) && CanStart(s, x, true)
    ensures Inv(DoStart(s, x, true, fails))
  {
    var n := s.devices[x].conn;
    var m := Start(x, s.devices[x].tuner);
    var q := Queue(s.toAgent, n);
    var toAgent := s.toAgent[n := q + [m]];
    var f := s.flags.(started := s.flags.started + {x}, sent := s.flags.sent + {x});
    var s1 := s.(toAgent := toAgent, flags := f);
    forall d ensures FlagShape(s.hub, s.devices, f, s.hubClosed, d) {
      assert FlagShape(s.hub, s.devices, s.flags, s.hubClosed, d)
             && FlagShape(s.hub, s.devices, s.flags, s.hubClosed, x);
    }
    forall c ensures CommandShape(s.devices, f.sent, toAgent, c) {
      assert CommandShape(s.devices, s.flags.sent, s.toAgent, c);
      assert forall y | y in Queue(toAgent, c) :: y in Queue(s.toAgent, c) || (c == n && y == m);
    }
    forall c ensures ReportShape(s.devices, f.sent, toAgent, s.toHub, c) {
      assert ReportShape(s.devices, s.flags.sent, s.toAgent, s.toHub, c)
             && FlagShape(s.hub, s.devices, s.flags, s.hubClosed, x);
    }
    StartKeepsLive(s, x);
    forall a, d ensures WorkerShape(View(s.devices, s.alive, toAgent, s.links), f.sent, a, d) {
      assert WorkerShape(View(s.devices, s.alive, s.toAgent, s.links), s.flags.sent, a, d);
      assert FlagShape(s.hub, s.devices, s.flags, s.hubClosed, x);
    }
    assert Inv(s1);
    if fails { GiveUpKeepsInv(s1, x); }
  }

  lemma StartKeepsLive(s: State, x: nat)
    requires Inv(s) && CanStart(s, x, true)
    ensures InvLive(DoStart(s, x, true, false))
  {
    var s' := DoStart(s, x, true, false);
    var v := View(s.devices, s.alive, s.toAgent, s.links);
    var v' := View(s.devices, s.alive, s'.toAgent, s.links);
    var n := s.devices[x].conn;
    var q := Queue(s.toAgent, n);
    var m := Start(x, s.devices[x].tuner);
    assert FlagShape(s.hub, s.devices, s.flags, s.hubClosed, x);
    assert CommandShape(s.devices, s.flags.sent, s.toAgent, n);
    forall d | d != x ensures Live(v', d) == Live(v, d) {}
    WithheldStays(s, s');
    forall d ensures ReportOrder(s.devices, s'.hub, s'.flags.sent, s'.hubClosed, s.alive, s.toHub, d) {
      assert ReportOrder(s.devices, s.hub, s.flags.sent, s.hubClosed, s.alive, s.toHub, d);
    }
    forall d ensures Covered(v', s'.hub, s'.flags.sent, s'.hubClosed, d) {
      assert Covered(v, s.hub, s.flags.sent, s.hubClosed, d);
    }
    forall d, e ensures Alone(v', s'.hub.sessions, s'.flags.sent, s'.hubClosed, d, e) {
      assert Alone(v, s.hub.sessions, s.flags.sent, s.hubClosed, d, e);
      if d in s.devices && d != x && KeyOf(s.devices[d]) == KeyOf(s.devices[x]) { NothingElseLive(s, x, d); }
      if e in s.devices && e != x && KeyOf(s.devices[e]) == KeyOf(s.devices[x]) { NothingElseLive(s, x, e); }
    }
    forall d ensures StartOrder(s.devices, s'.toAgent, s.alive, s'.flags.sent, d) {
      assert StartOrder(s.devices, s.toAgent, s.alive, s.flags.sent, d);
      if d in s.devices && s.devices[d].conn == n { StartFirstAppend(q, m, d); }
    }
  }

  /** The hub closes its end of a started device's connection and gives the device up. */
  lemma GiveUpKeepsInv(s: State, x: nat)
    requires Inv(s) && x in s.devices
    ensures Inv(s.(flags := s.flags.(started := s.flags.started + {x}, cleaned := s.flags.cleaned + {x}),
                   hubClosed := s.hubClosed + {s.devices[x].conn}))
  {
    var n := s.devices[x].conn;
    HubClosesKeepsInv(s, n);
    var f := s.flags.(started := s.flags.started + {x}, cleaned := s.flags.cleaned + {x});
    forall d ensures FlagShape(s.hub, s.devices, f, s.hubClosed + {n}, d) {
      assert FlagShape(s.hub, s.devices, s.flags, s.hubClosed, d);
    }
  }

  lemma StopFlagKeepsInv(s: State, x: nat)
    requires Inv(s) && x in s.devices && x in s.flags.started
    ensures Inv(s.(flags := s.flags.(stopSent := s.flags.stopSent + {x})))
  {
    var f := s.flags.(stopSent := s.flags.stopSent + {x});
    forall d ensures FlagShape(s.hub, s.devices, f, s.hubClosed, d) {
      assert FlagShape(s.hub, s.devices, s.flags, s.hubClosed, d);
    }
  }

  lemma StopKeepsInv(s: State, x: nat)
    requires Inv(s) && x in s.devices && x in s.flags.started
    ensures Inv(DoStop(s, x))
  {
    var s1 := s.(flags := s.flags.(stopSent := s.flags.stopSent + {x}));
    assert FlagShape(s.hub, s.devices, s.flags, s.hubClosed, x);
    StopFlagKeepsInv(s, x);
    if s.devices[x].conn !in s.hubClosed {
      TellKeepsInv(s1, s.devices[x].conn, Stop(x));
      assert DoStop(s, x) == Tell(s1, s.devices[x].conn, Stop(x));
    } else {
      assert DoStop(s, x) == s1;
    }
  }

  // ------------------------------------------------------- quarantine on one tuner

  /** Imposing the quarantine of a listed session on its own tuner, as a timed-out stop does. */
  lemma TimeOutKeepsInv(s: State, x: nat)
    requires Inv(s) && x in s.devices && x in s.flags.stopSent
    ensures Inv(DoTimeOut(s, x))
  {
    var s' := DoTimeOut(s, x);
    var h := s'.hub;
    var v := View(s.devices, s.alive, s.toAgent, s.links);
    assert SessionShape(s.hub, s.devices, x) && DeviceShape(s.info, s.devices, s.hub.registered, s.next, x);
    assert FlagShape(s.hub, s.devices, s.flags, s.hubClosed, x);
    forall k ensures KeyShape(s.info, h.registered, h.quarantined, k) {
      assert KeyShape(s.info, s.hub.registered, s.hub.quarantined, k);
    }
    forall d ensures SessionShape(h, s.devices, d) { assert SessionShape(s.hub, s.devices, d); }
    forall d ensures FlagShape(h, s.devices, s'.flags, s.hubClosed, d) {
      assert FlagShape(s.hub, s.devices, s.flags, s.hubClosed, d);
      assert PairShape(s.hub.sessions, s.devices, s.hubClosed, d, x) && SessionShape(s.hub, s.devices, d);
    }
    WithheldStays(s, s');
    forall d ensures ReportOrder(s.devices, h, s.flags.sent, s.hubClosed, s.alive, s.toHub, d) {
      assert ReportOrder(s.devices, s.hub, s.flags.sent, s.hubClosed, s.alive, s.toHub, d);
    }
    forall d ensures Covered(v, h, s.flags.sent, s.hubClosed, d) {
      assert Covered(v, s.hub, s.flags.sent, s.hubClosed, d);
    }
  }

  /** Ending a listed session, once its report has come in. */
  lemma CompleteKeepsInv(s: State, x: nat, failed: bool)
    requires Inv(s) && x in s.hub.sessions && x in s.flags.sent
    requires !failed && Live(View(s.devices, s.alive, s.toAgent, s.links), x) ==>
               Withheld(s.devices, s.hub, s.flags.sent, s.hubClosed, x)
    ensures Inv(s.(hub := Completed(s.hub, x, failed), flags := s.flags.(cleaned := s.flags.cleaned + {x})))
  {
    var h := Completed(s.hub, x, failed);
    var f := s.flags.(cleaned := s.flags.cleaned + {x});
    var v := View(s.devices, s.alive, s.toAgent, s.links);
    assert SessionShape(s.hub, s.devices, x) && DeviceShape(s.info, s.devices, s.hub.registered, s.next, x);
    assert FlagShape(s.hub, s.devices, s.flags, s.hubClosed, x);
    forall k ensures KeyShape(s.info, h.registered, h.quarantined, k) {
      assert KeyShape(s.info, s.hub.registered, s.hub.quarantined, k);
    }
    forall d ensures SessionShape(h, s.devices, d) { assert SessionShape(s.hub, s.devices, d); }
    forall d ensures FlagShape(h, s.devices, f, s.hubClosed, d) {
      assert FlagShape(s.hub, s.devices, s.flags, s.hubClosed, d) && SessionShape(s.hub, s.devices, d);
      assert PairShape(s.hub.sessions, s.devices, s.hubClosed, d, x);
    }
    forall d, e ensures PairShape(h.sessions, s.devices, s.hubClosed, d, e) {
      assert PairShape(s.hub.sessions, s.devices, s.hubClosed, d, e);
    }
    WithheldStays(s, s.(hub := h, flags := f));
    forall d ensures Covered(v, h, s.flags.sent, s.hubClosed, d) {
      assert Covered(v, s.hub, s.flags.sent, s.hubClosed, d)
             && Alone(v, s.hub.sessions, s.flags.sent, s.hubClosed, d, x);
    }
    forall d, e ensures Alone(v, h.sessions, f.sent, s.hubClosed, d, e) {
      assert Alone(v, s.hub.sessions, s.flags.sent, s.hubClosed, d, e);
    }
    forall d ensures ReportOrder(s.devices, h, s.flags.sent, s.hubClosed, s.alive, s.toHub, d) {
      assert ReportOrder(s.devices, s.hub, s.flags.sent, s.hubClosed, s.alive, s.toHub, d);
    }
    forall a, d ensures Accounted(s.links, s.devices, s.alive, h.sessions, s.agentClosed, s.toHub, a, d) {
      assert Accounted(s.links, s.devices, s.alive, s.hub.sessions, s.agentClosed, s.toHub, a, d);
    }
  }

  lemma ReportKeepsInv(s: State, x: AgentId)
    requires Inv(s) && CanReport(s, x)
    ensures Inv(DoReport(s, x))
  {
    var n := s.hub.connections[x];
    var q := Queue(s.toHub, n);
    var y := q[0].session;
    assert q[0] in q;
    assert ReportShape(s.devices, s.flags.sent, s.toAgent, s.toHub, n) && SessionShape(s.hub, s.devices, y);
    assert ReportOrder(s.devices, s.hub, s.flags.sent, s.hubClosed, s.alive, s.toHub, y);
    assert DeviceShape(s.info, s.devices, s.hub.registered, s.next, y) && SlotShape(s.info, s.hub.connections, x);
    var s1 := s;
    if y in s.hub.sessions {
      if y in s.alive && !Withheld(s.devices, s.hub, s.flags.sent, s.hubClosed, y) { FailureFirstPop(q, y); }
      CompleteKeepsInv(s, y, q[0].failed);
      s1 := s.(hub := Completed(s.hub, y, q[0].failed), flags := s.flags.(cleaned := s.flags.cleaned + {y}));
    }
    DropReportKeepsInv(s1, n);
  }

  /** Dropping a report whose session is no longer listed. */
  lemma DropReportKeepsInv(s: State, n: nat)
    requires Inv(s) && Queue(s.toHub, n) != [] && Queue(s.toHub, n)[0].session !in s.hub.sessions
    ensures Inv(s.(toHub := s.toHub[n := Queue(s.toHub, n)[1..]]))
  {
    var q := Queue(s.toHub, n);
    var toHub := s.toHub[n := q[1..]];
    assert q == [q[0]] + q[1..];
    assert forall m | m in q[1..] :: m in q;
    forall c ensures ReportShape(s.devices, s.flags.sent, s.toAgent, toHub, c) {
      assert ReportShape(s.devices, s.flags.sent, s.toAgent, s.toHub, c);
    }
    forall d ensures ReportOrder(s.devices, s.hub, s.flags.sent, s.hubClosed, s.alive, toHub, d) {
      assert ReportOrder(s.devices, s.hub, s.flags.sent, s.hubClosed, s.alive, s.toHub, d);
      if d in s.devices && d in s.hub.sessions && d in s.alive && s.devices[d].conn == n
         && !Withheld(s.devices, s.hub, s.flags.sent, s.hubClosed, d) { FailureFirstPop(q, d); }
    }
    forall a, d ensures Accounted(s.links, s.devices, s.alive, s.hub.sessions, s.agentClosed, toHub, a, d) {
      assert Accounted(s.links, s.devices, s.alive, s.hub.sessions, s.agentClosed, s.toHub, a, d);
    }
  }

  // ------------------------------------------------------------------- the agent

  /** A session the agent may act on: covered, alone on its tuner, its command consumed. */
  ghost predicate Startable(s: State, a: AgentId, x: nat) {
    && AttachedAt(s, a) && x in s.devices && s.devices[x].agent == a && s.devices[x].conn == s.links[a].conn
    && x in s.flags.sent && !Queued(s.devices, s.toAgent, x)
    && Known(s.devices, s.hub, s.flags.sent, s.hubClosed, x)
    && (forall e | e in s.devices && e != x && KeyOf(s.devices[e]) == KeyOf(s.devices[x]) ::
          !Live(View(s.devices, s.alive, s.toAgent, s.links), e)
          && (e in s.hub.sessions ==> e !in s.flags.sent && s.devices[e].conn in s.hubClosed))
    && (forall i | 0 <= i < |Queue(s.toHub, s.devices[x].conn)| :: Queue(s.toHub, s.devices[x].conn)[i].session != x)
    && x !in s.links[a].exiting
  }

  lemma SpawnKeepsInv(s: State, a0: AgentId, x: nat)
    requires Inv(s) && Startable(s, a0, x)
    ensures var l := s.links[a0];
            Inv(s.(links := s.links[a0 := l.(workers := l.workers[x := s.devices[x].tuner])], alive := s.alive + {x}))
  {
    var l := s.links[a0].(workers := s.links[a0].workers[x := s.devices[x].tuner]);
    var links := s.links[a0 := l];
    var alive := s.alive + {x};
    var v := View(s.devices, s.alive, s.toAgent, s.links);
    var v' := View(s.devices, alive, s.toAgent, links);
    forall a ensures LinkShape(s.info, s.procs, links, s.boots, a) {
      assert LinkShape(s.info, s.procs, s.links, s.boots, a);
    }
    forall a, c ensures Newest(s.info, links, a, c) { assert Newest(s.info, s.links, a, c); }
    forall d | d != x ensures Live(v', d) == Live(v, d) {}
    forall d ensures Covered(v', s.hub, s.flags.sent, s.hubClosed, d) {
      assert Covered(v, s.hub, s.flags.sent, s.hubClosed, d);
    }
    forall d, e ensures Alone(v', s.hub.sessions, s.flags.sent, s.hubClosed, d, e) {
      assert Alone(v, s.hub.sessions, s.flags.sent, s.hubClosed, d, e);
    }
    forall d ensures StartOrder(s.devices, s.toAgent, alive, s.flags.sent, d) {
      assert StartOrder(s.devices, s.toAgent, s.alive, s.flags.sent, d);
    }
    forall d ensures ReportOrder(s.devices, s.hub, s.flags.sent, s.hubClosed, alive, s.toHub, d) {
      assert ReportOrder(s.devices, s.hub, s.flags.sent, s.hubClosed, s.alive, s.toHub, d);
    }
    SpawnKeepsProcs(s, a0, x);
  }

  lemma SpawnKeepsProcs(s: State, a0: AgentId, x: nat)
    requires Inv(s) && Startable(s, a0, x)
    ensures var l := s.links[a0];
            InvProcs(s.(links := s.links[a0 := l.(workers := l.workers[x := s.devices[x].tuner])],
                alive := s.alive + {x}))
  {
    var l := s.links[a0].(workers := s.links[a0].workers[x := s.devices[x].tuner]);
    var links := s.links[a0 := l];
    var alive := s.alive + {x};
    assert LinkShape(s.info, s.procs, s.links, s.boots, a0);
    forall c, d ensures HelloTrue(s.info, links, alive, s.devices, c, d) {
      assert HelloTrue(s.info, s.links, s.alive, s.devices, c, d);
    }
    forall a, d ensures ProcessTrue(s.info, s.procs, links, alive, s.devices, a, d) {
      assert ProcessTrue(s.info, s.procs, s.links, s.alive, s.devices, a, d);
    }
    forall c, d ensures SameBoot(s.info, s.boots, alive, s.devices, c, d) {
      assert SameBoot(s.info, s.boots, s.alive, s.devices, c, d) && Newest(s.info, s.links, a0, c);
    }
    forall a, d ensures WorkerShape(View(s.devices, alive, s.toAgent, links), s.flags.sent, a, d) {
      assert WorkerShape(View(s.devices, s.alive, s.toAgent, s.links), s.flags.sent, a, d);
      assert LinkShape(s.info, s.procs, s.links, s.boots, a);
    }
    forall a, d ensures Accounted(links, s.devices, alive, s.hub.sessions, s.agentClosed, s.toHub, a, d) {
      assert Accounted(s.links, s.devices, s.alive, s.hub.sessions, s.agentClosed, s.toHub, a, d);
      assert LinkShape(s.info, s.procs, s.links, s.boots, a);
    }
  }

  /** Replacing what an attached link says of its workers, when every receiver stays accounted for. */
  lemma RelinkKeepsInv(s: State, x: AgentId, links: Links)
    requires Inv(s) && AttachedAt(s, x) && x in links && links == s.links[x := links[x]]
    requires links[x].Attached? && links[x].conn == s.links[x].conn && links[x].open == s.links[x].open
    requires forall d :: WorkerShape(View(s.devices, s.alive, s.toAgent, links), s.flags.sent, x, d)
    requires forall d :: Accounted(links, s.devices, s.alive, s.hub.sessions, s.agentClosed, s.toHub, x, d)
    ensures Inv(s.(links := links))
  {
    var v := View(s.devices, s.alive, s.toAgent, s.links);
    var v' := View(s.devices, s.alive, s.toAgent, links);
    forall a ensures LinkShape(s.info, s.procs, links, s.boots, a) {
      assert LinkShape(s.info, s.procs, s.links, s.boots, a);
    }
    forall a, c ensures Newest(s.info, links, a, c) { assert Newest(s.info, s.links, a, c); }
    forall d ensures Live(v', d) ==> Live(v, d) {}
    FewerLive(s, s.alive, links);
    forall c, d ensures HelloTrue(s.info, links, s.alive, s.devices, c, d) {
      assert HelloTrue(s.info, s.links, s.alive, s.devices, c, d);
    }
    forall a, d ensures ProcessTrue(s.info, s.procs, links, s.alive, s.devices, a, d) {
      assert ProcessTrue(s.info, s.procs, s.links, s.alive, s.devices, a, d);
    }
    forall a, d ensures WorkerShape(v', s.flags.sent, a, d) { assert WorkerShape(v, s.flags.sent, a, d); }
    forall a, d ensures Accounted(links, s.devices, s.alive, s.hub.sessions, s.agentClosed, s.toHub, a, d) {
      assert Accounted(s.links, s.devices, s.alive, s.hub.sessions, s.agentClosed, s.toHub, a, d);
    }
  }

  lemma ExitKeepsInv(s: State, x: AgentId, y: nat, failed: bool)
    requires Inv(s) && CanExit(s, x, y)
    ensures Inv(DoExit(s, x, y, failed))
  {
    var s' := DoExit(s, x, y, failed);
    var s1 := s.(alive := s'.alive);
    forall a | a in s.links ensures a in s.procs { assert LinkShape(s.info, s.procs, s.links, s.boots, a); }
    LossKeepsInv(s, s.procs, s.links, s'.alive);
    assert s1 == s.(procs := s.procs, links := s.links, alive := s'.alive);
    forall d ensures WorkerShape(View(s.devices, s'.alive, s.toAgent, s'.links), s.flags.sent, x, d) {
      assert WorkerShape(View(s.devices, s'.alive, s.toAgent, s.links), s.flags.sent, x, d);
    }
    forall d ensures Accounted(s'.links, s.devices, s'.alive, s.hub.sessions, s.agentClosed, s.toHub, x, d) {
      assert Accounted(s.links, s.devices, s'.alive, s.hub.sessions, s.agentClosed, s.toHub, x, d);
    }
    RelinkKeepsInv(s1, x, s'.links);
  }

  lemma SayStoppedKeepsInv(s: State, x: AgentId, y: nat)
    requires Inv(s) && CanSayStopped(s, x, y)
    ensures Inv(DoSayStopped(s, x, y))
  {
    var l := s.links[x];
    var m := Stopped(y, l.exiting[y]);
    assert WorkerShape(View(s.devices, s.alive, s.toAgent, s.links), s.flags.sent, x, y);
    TellbackKeepsInv(s, l.conn, m);
    ForgetExitingKeepsInv(Tellback(s, l.conn, m), x, y);
  }

  lemma ForgetExitingKeepsInv(s: State, x: AgentId, y: nat)
    requires Inv(s) && CanSayStopped(s, x, y)
    requires s.links[x].conn in s.agentClosed || Stopped(y, s.links[x].exiting[y]) in Queue(s.toHub, s.links[x].conn)
    ensures var l := s.links[x]; Inv(s.(links := s.links[x := l.(exiting := l.exiting - {y})]))
  {
    var l := s.links[x];
    var links := s.links[x := l.(exiting := l.exiting - {y})];
    forall d ensures WorkerShape(View(s.devices, s.alive, s.toAgent, links), s.flags.sent, x, d) {
      assert WorkerShape(View(s.devices, s.alive, s.toAgent, s.links), s.flags.sent, x, d);
    }
    forall d ensures Accounted(links, s.devices, s.alive, s.hub.sessions, s.agentClosed, s.toHub, x, d) {
      assert Accounted(s.links, s.devices, s.alive, s.hub.sessions, s.agentClosed, s.toHub, x, d);
    }
    RelinkKeepsInv(s, x, links);
  }

  lemma FinishKeepsInv(s: State, x: AgentId)
    requires Inv(s) && CanFinish(s, x)
    ensures Inv(DoFinish(s, x))
  {
    var links := s.links - {x};
    if s.links[x].cleanupFailed {
      forall a | a in links ensures a in s.procs - {x} { assert LinkShape(s.info, s.procs, s.links, s.boots, a); }
      LossKeepsInv(s, s.procs - {x}, links, s.alive);
    } else {
      forall a | a in links ensures a in s.procs { assert LinkShape(s.info, s.procs, s.links, s.boots, a); }
      LossKeepsInv(s, s.procs, links, s.alive);
      var s1 := s.(procs := s.procs, links := links, alive := s.alive);
      var procs := s.procs[x := s.procs[x].(recovered := Some(s.links[x].conn))];
      assert LinkShape(s.info, s.procs, s.links, s.boots, x);
      forall a ensures LinkShape(s.info, procs, links, s.boots, a) {
        assert LinkShape(s.info, s.procs, links, s.boots, a);
      }
      forall a, d ensures ProcessTrue(s.info, procs, links, s.alive, s.devices, a, d) {
        assert ProcessTrue(s.info, s.procs, links, s.alive, s.devices, a, d);
        assert Accounted(s.links, s.devices, s.alive, s.hub.sessions, s.agentClosed, s.toHub, x, d);
      }
      assert Inv(s1.(procs := procs));
    }
  }

  lemma GreetingKeepsInv(s: State, x: AgentId, m: Command)
    requires Inv(s) && x in s.links && s.links[x].Waiting?
    ensures Inv(Greeted(s, x, m))
  {
    if !m.Welcome? {
      forall a | a in s.links - {x} ensures a in s.procs { assert LinkShape(s.info, s.procs, s.links, s.boots, a); }
      LossKeepsInv(s, s.procs, s.links - {x}, s.alive);
    } else {
      var links := s.links[x := Attached(s.links[x].conn, true, map[], map[], false)];
      var v := View(s.devices, s.alive, s.toAgent, s.links);
      var v' := View(s.devices, s.alive, s.toAgent, links);
      forall a ensures LinkShape(s.info, s.procs, links, s.boots, a) {
        assert LinkShape(s.info, s.procs, s.links, s.boots, a);
      }
      forall a, c ensures Newest(s.info, links, a, c) { assert Newest(s.info, s.links, a, c); }
      forall d ensures Live(v', d) ==> Live(v, d) {}
      FewerLive(s, s.alive, links);
      forall c, d ensures HelloTrue(s.info, links, s.alive, s.devices, c, d) {
        assert HelloTrue(s.info, s.links, s.alive, s.devices, c, d);
      }
      forall a, d ensures ProcessTrue(s.info, s.procs, links, s.alive, s.devices, a, d) {
        assert ProcessTrue(s.info, s.procs, s.links, s.alive, s.devices, a, d);
      }
      forall a, d ensures WorkerShape(v', s.flags.sent, a, d) { assert WorkerShape(v, s.flags.sent, a, d); }
      forall a, d ensures Accounted(links, s.devices, s.alive, s.hub.sessions, s.agentClosed, s.toHub, a, d) {
        assert Accounted(s.links, s.devices, s.alive, s.hub.sessions, s.agentClosed, s.toHub, a, d);
        assert WorkerShape(v, s.flags.sent, a, d);
      }
    }
  }

  lemma ReceiveKeepsInv(s: State, x: AgentId)
    requires Inv(s) && CanReceive(s, x) && !Overtakes(s, AgentReceives(x))
    ensures Inv(DoReceive(s, x))
  {
    var n := s.links[x].conn;
    var q := Queue(s.toAgent, n);
    var s1 := Popped(s, n);
    PopKeepsInv(s, n);
    if s.links[x].Waiting? {
      GreetingKeepsInv(s1, x, q[0]);
    } else if q[0].Welcome? {
      forall a | a in s.links ensures a in s.procs { assert LinkShape(s.info, s.procs, s.links, s.boots, a); }
      LossKeepsInv(s1, s.procs, s.links[x := s.links[x].(open := false)], s.alive);
    } else if q[0].Start? {
      ReceiveStart(s, x);
    } else {
      ReceiveStop(s, x);
    }
  }

  lemma ReceiveStart(s: State, x: AgentId)
    requires Inv(s) && CanReceive(s, x) && AttachedAt(s, x) && Queue(s.toAgent, s.links[x].conn)[0].Start?
    ensures Inv(DoReceive(s, x))
  {
    var n := s.links[x].conn;
    var q := Queue(s.toAgent, n);
    var y := q[0].session;
    var v := View(s.devices, s.alive, s.toAgent, s.links);
    var s1 := Popped(s, n);
    PopKeepsInv(s, n);
    assert q[0] in q;
    assert CommandShape(s.devices, s.flags.sent, s.toAgent, n) && LinkShape(s.info, s.procs, s.links, s.boots, x);
    assert DeviceShape(s.info, s.devices, s.hub.registered, s.next, y);
    assert StartOrder(s.devices, s.toAgent, s.alive, s.flags.sent, y);
    StartFirstPop(q, y, s.devices[y].tuner);
    assert Live(v, y) && Covered(v, s.hub, s.flags.sent, s.hubClosed, y);
    forall e | e in s.devices && e != y && KeyOf(s.devices[e]) == KeyOf(s.devices[y])
      ensures !Live(View(s.devices, s.alive, s1.toAgent, s.links), e)
      ensures e in s.hub.sessions ==> e !in s.flags.sent && s.devices[e].conn in s.hubClosed
    {
      assert Alone(v, s.hub.sessions, s.flags.sent, s.hubClosed, y, e);
    }
    forall i | 0 <= i < |Queue(s.toHub, n)| ensures Queue(s.toHub, n)[i].session != y {
      assert ReportShape(s.devices, s.flags.sent, s.toAgent, s.toHub, n) && Queue(s.toHub, n)[i] in Queue(s.toHub, n);
    }
    assert WorkerShape(v, s.flags.sent, x, y);
    SpawnKeepsInv(s1, x, y);
  }

  /** A stop that does not overtake the failure's report comes when the tuner is withheld anyway. */
  lemma StopIsHarmless(s: State, x: AgentId, y: nat)
    requires Inv(s) && AttachedAt(s, x) && !Overtakes(s, AgentReceives(x))
    requires Queue(s.toAgent, s.links[x].conn) != [] && Queue(s.toAgent, s.links[x].conn)[0] == Stop(y)
    requires y in s.alive && y in s.hub.sessions && y in s.devices && s.devices[y].conn == s.links[x].conn
             && y !in s.links[x].workers
    requires s.links[x].conn !in s.agentClosed && Stopped(y, true) !in Queue(s.toHub, s.links[x].conn)
    ensures Withheld(s.devices, s.hub, s.flags.sent, s.hubClosed, y)
  {
    assert Accounted(s.links, s.devices, s.alive, s.hub.sessions, s.agentClosed, s.toHub, x, y);
    if !s.hub.closed {
      var e :| e in s.hub.sessions && KeyOf(s.hub.sessions[e]) == KeyOf(s.hub.sessions[y]) && e != y;
      assert SessionShape(s.hub, s.devices, y) && SessionShape(s.hub, s.devices, e);
      assert PairShape(s.hub.sessions, s.devices, s.hubClosed, y, e);
      assert Alone(View(s.devices, s.alive, s.toAgent, s.links), s.hub.sessions, s.flags.sent, s.hubClosed, y, e);
      assert Shields(s.devices, s.hub.sessions, s.flags.sent, s.hubClosed, y, e);
    }
  }

  lemma ReceiveStop(s: State, x: AgentId)
    requires Inv(s) && CanReceive(s, x) && AttachedAt(s, x) && Queue(s.toAgent, s.links[x].conn)[0].Stop?
    requires !Overtakes(s, AgentReceives(x))
    ensures Inv(DoReceive(s, x))
  {
    var n := s.links[x].conn;
    var q := Queue(s.toAgent, n);
    var y := q[0].session;
    var s1 := Popped(s, n);
    PopKeepsInv(s, n);
    assert q[0] in q;
    assert CommandShape(s.devices, s.flags.sent, s.toAgent, n)
           && StartOrder(s.devices, s.toAgent, s.alive, s.flags.sent, y);
    StartFirstPop(q, y, s.devices[y].tuner);
    assert Accounted(s.links, s.devices, s.alive, s.hub.sessions, s.agentClosed, s.toHub, x, y);
    if y !in s.links[x].workers {
      if y in s.alive && y in s.hub.sessions && n !in s.agentClosed && Stopped(y, true) !in Queue(s.toHub, n) {
        StopIsHarmless(s, x, y);
      }
      TellbackKeepsInv(s1, n, Stopped(y, false));
    }
  }
}
