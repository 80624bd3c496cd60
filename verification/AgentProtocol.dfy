/**
 The agent protocol: a hub starts and stops receivers on remote agents over
 connections that can break at either end (internal/agent/hub.go and
 internal/agent/client.go).  The state below joins the hub, the two message
 queues of every connection, the tuner devices, the agent processes and the
 receivers that are alive on the agents' hosts.  A step is one critical section
 of the hub, one message handled by an agent, or one failure.
 */
module AgentProtocol {
  import opened Basics

  type AgentId = string
  type TunerName = string

  datatype TunerKey = TunerKey(agent: AgentId, tuner: TunerName)

  /** What an agent says of itself when it connects. A boot ID the agent could not
      read is None, and so is the recovered generation of a fresh process. */
  datatype Hello = Hello(instance: nat, boot: Option<nat>, recovered: Option<nat>)

  /** What the hub remembers of a registered connection. */
  datatype Peer = Peer(instance: nat, boot: Option<nat>)

  datatype Session = Session(agent: AgentId, tuner: TunerName, conn: nat)

  /** Hub: a connection is named by its generation, which is unique. */
  datatype HubState = HubState(
    connections: map<AgentId, nat>,
    registered: map<nat, Peer>,
    sessions: map<nat, Session>,
    quarantined: map<TunerKey, nat>,
    closed: bool)

  function KeyOf(x: Session): TunerKey { TunerKey(x.agent, x.tuner) }

  // ------------------------------------------------------------ hub operations

  predicate Available(h: HubState, k: TunerKey) {
    !h.closed && k.agent in h.connections && h.connections[k.agent] in h.registered && k !in h.quarantined
  }

  /** A quarantine held against `previous` is lifted when the same process says it
      finished that connection, or when the host has booted since. */
  predicate Lifts(registered: map<nat, Peer>, previous: nat, hello: Hello) {
    previous in registered &&
    var p := registered[previous];
    || (p.instance == hello.instance && hello.recovered == Some(previous))
    || (p.boot.Some? && hello.boot.Some? && p.boot != hello.boot)
  }

  function Registered(h: HubState, agent: AgentId, c: nat, hello: Hello): HubState {
    if h.closed then h else
      h.(registered := h.registered[c := Peer(hello.instance, hello.boot)],
         quarantined := map k | k in h.quarantined
                                && !(k.agent == agent && Lifts(h.registered, h.quarantined[k], hello))
                              :: h.quarantined[k])
  }

  ghost function KeysOn(sessions: map<nat, Session>, agent: AgentId, c: nat): set<TunerKey> {
    set d | d in sessions && sessions[d].conn == c :: TunerKey(agent, sessions[d].tuner)
  }

  /** Losing a connection quarantines the tuner of every session it carried. */
  ghost function Disconnected(h: HubState, agent: AgentId, c: nat): HubState {
    h.(connections := if agent in h.connections && h.connections[agent] == c
                      then h.connections - {agent} else h.connections,
       sessions := map d | d in h.sessions && h.sessions[d].conn != c :: h.sessions[d],
       quarantined := h.quarantined + (map k | k in KeysOn(h.sessions, agent, c) :: c))
  }

  /** A "stopped" report ends its session; a clean one lifts the quarantine that
      this connection holds on the tuner, a failed one imposes it. */
  function Completed(h: HubState, d: nat, failed: bool): HubState
    requires d in h.sessions
  {
    var x := h.sessions[d];
    var k := KeyOf(x);
    h.(sessions := h.sessions - {d},
       quarantined := if failed then h.quarantined[k := x.conn]
                      else if k in h.quarantined && h.quarantined[k] == x.conn then h.quarantined - {k}
                      else h.quarantined)
  }

  function StopTimedOut(h: HubState, d: nat): HubState {
    if d in h.sessions
    then h.(quarantined := h.quarantined[KeyOf(h.sessions[d]) := h.sessions[d].conn])
    else h
  }

  // -------------------------------------------------- connections and processes

  datatype Command = Welcome | Start(session: nat, tuner: TunerName) | Stop(session: nat)

  datatype Report = Stopped(session: nat, failed: bool)

  datatype ConnInfo = ConnInfo(agent: AgentId, hello: Hello)

  datatype Process = Process(instance: nat, boot: Option<nat>, recovered: Option<nat>)

  /** A process's hold on a connection. `workers` run a receiver; `exiting` have removed
      themselves from the worker table but not yet reported, with whether their
      receiver's cleanup failed. */
  datatype Link =
    | Waiting(conn: nat)
    | Attached(conn: nat, open: bool, workers: map<nat, TunerName>, exiting: map<nat, bool>, cleanupFailed: bool)

  /** The devices that have issued their start command, got it into the queue, issued
      their stop, had their cleanup channel closed, been handed back to the allocator. */
  datatype Flags = Flags(started: set<nat>, sent: set<nat>, stopSent: set<nat>, cleaned: set<nat>, released: set<nat>)

  /**
   `hubClosed` and `agentClosed`: connections whose end can send no more.
   `devices`: every device the hub ever registered, by session.
   `links`: the connection each process holds.  `alive`: the sessions whose receiver
   runs on the agent's host.
   */
  datatype State = State(
    hub: HubState,
    info: map<nat, ConnInfo>,
    hubClosed: set<nat>,
    agentClosed: set<nat>,
    toAgent: map<nat, seq<Command>>,
    toHub: map<nat, seq<Report>>,
    devices: map<nat, Session>,
    flags: Flags,
    procs: map<AgentId, Process>,
    links: map<AgentId, Link>,
    boots: map<AgentId, nat>,
    alive: set<nat>,
    next: nat)

  function Boot(s: State, a: AgentId): nat { if a in s.boots then s.boots[a] else 0 }

  function Queue<T>(m: map<nat, seq<T>>, c: nat): seq<T> { if c in m then m[c] else [] }

  function Initial(): State {
    State(HubState(map[], map[], map[], map[], false), map[], {}, {}, map[], map[],
          map[], Flags({}, {}, {}, {}, {}), map[], map[], map[], {}, 1)
  }

  // ----------------------------------------------------------------------- steps

  datatype Step =
    | Connect(agent: AgentId)
    | HubHello(agent: AgentId)
    | HubDisconnect(agent: AgentId)
    | HubCloses(conn: nat)
    | HubShutdown
    | RegisterSession(key: TunerKey)
    | SendStart(session: nat)
    | SendStartFails(session: nat, delivered: bool)
    | SendStop(session: nat)
    | StopTimesOut(session: nat)
    | DeviceReleased(session: nat)
    | HubReceives(agent: AgentId)
    | AgentBoots(agent: AgentId, bootReadable: bool)
    | AgentReceives(agent: AgentId)
    | WorkerExits(agent: AgentId, session: nat, failed: bool)
    | WorkerReports(agent: AgentId, session: nat)
    | AgentSendBreaks(conn: nat)
    | AgentCloses(agent: AgentId)
    | AgentFinishes(agent: AgentId)
    | AgentAbandons(agent: AgentId)
    | AgentCrashes(agent: AgentId)
    | HostReboots(agent: AgentId)
    | ReceiverDies(session: nat)

  predicate AttachedAt(s: State, a: AgentId) { a in s.links && s.links[a].Attached? }

  function Tell(s: State, c: nat, m: Command): State {
    s.(toAgent := s.toAgent[c := Queue(s.toAgent, c) + [m]])
  }

  /** Once a send has failed nothing that follows reaches the hub. */
  function Tellback(s: State, c: nat, m: Report): State {
    if c in s.agentClosed then s else s.(toHub := s.toHub[c := Queue(s.toHub, c) + [m]])
  }

  // The hub accepts one connection per agent; a process dials when it holds none.
  predicate CanConnect(s: State, a: AgentId) {
    !s.hub.closed && a !in s.hub.connections && a in s.procs && a !in s.links
  }

  function DoConnect(s: State, a: AgentId): State
    requires CanConnect(s, a)
  {
    var p := s.procs[a];
    s.(hub := s.hub.(connections := s.hub.connections[a := s.next]),
       info := s.info[s.next := ConnInfo(a, Hello(p.instance, p.boot, p.recovered))],
       links := s.links[a := Waiting(s.next)],
       next := s.next + 1)
  }

  predicate CanHello(s: State, a: AgentId) {
    && !s.hub.closed && a in s.hub.connections && s.hub.connections[a] in s.info
    && s.hub.connections[a] !in s.hub.registered && s.hub.connections[a] !in s.hubClosed
  }

  function DoHello(s: State, a: AgentId): State
    requires CanHello(s, a)
  {
    var c := s.hub.connections[a];
    Tell(s, c, Welcome).(hub := Registered(s.hub, a, c, s.info[c].hello))
  }

  ghost function DoDisconnect(s: State, a: AgentId): State
    requires a in s.hub.connections
  {
    var c := s.hub.connections[a];
    s.(hub := Disconnected(s.hub, a, c), hubClosed := s.hubClosed + {c},
       flags := s.flags.(cleaned := s.flags.cleaned + (set d | d in s.hub.sessions && s.hub.sessions[d].conn == c)))
  }

  // The tuner allocator hands out a device only once the last of that tuner is released.
  ghost predicate CanRegister(s: State, k: TunerKey) {
    Available(s.hub, k) && forall d | d in s.devices && KeyOf(s.devices[d]) == k :: d in s.flags.released
  }

  function DoRegister(s: State, k: TunerKey): State
    requires k.agent in s.hub.connections
  {
    var x := Session(k.agent, k.tuner, s.hub.connections[k.agent]);
    s.(hub := s.hub.(sessions := s.hub.sessions[s.next := x]), devices := s.devices[s.next := x], next := s.next + 1)
  }

  /** The start command is written; when the write fails, perhaps after the whole
      message went out, the hub closes its end and gives the device up. */
  predicate CanStart(s: State, d: nat, delivered: bool) {
    d in s.devices && d !in s.flags.started && (delivered ==> s.devices[d].conn !in s.hubClosed)
  }

  function DoStart(s: State, d: nat, delivered: bool, fails: bool): State
    requires CanStart(s, d, delivered)
  {
    var f := s.flags;
    (if delivered then Tell(s, s.devices[d].conn, Start(d, s.devices[d].tuner)) else s).(
      flags := f.(started := f.started + {d},
                  sent := if delivered then f.sent + {d} else f.sent,
                  cleaned := if fails then f.cleaned + {d} else f.cleaned),
      hubClosed := if fails then s.hubClosed + {s.devices[d].conn} else s.hubClosed)
  }

  function DoStop(s: State, d: nat): State
    requires d in s.devices
  {
    (if s.devices[d].conn in s.hubClosed then s else Tell(s, s.devices[d].conn, Stop(d))).(
      flags := s.flags.(stopSent := s.flags.stopSent + {d}))
  }

  function DoTimeOut(s: State, d: nat): State {
    s.(hub := StopTimedOut(s.hub, d), flags := s.flags.(released := s.flags.released + {d}))
  }

  predicate CanReport(s: State, a: AgentId) {
    && a in s.hub.connections && s.hub.connections[a] in s.hub.registered
    && Queue(s.toHub, s.hub.connections[a]) != []
  }

  function DoReport(s: State, a: AgentId): State
    requires CanReport(s, a)
  {
    var c := s.hub.connections[a];
    var q := Queue(s.toHub, c);
    var d := q[0].session;
    var s' := s.(toHub := s.toHub[c := q[1..]]);
    if d in s.hub.sessions && s.hub.sessions[d].conn == c && s.hub.sessions[d].agent == a
    then s'.(hub := Completed(s.hub, d, q[0].failed), flags := s.flags.(cleaned := s.flags.cleaned + {d}))
    else s'
  }

  predicate Busy(workers: map<nat, TunerName>, d: nat, t: TunerName) {
    d in workers || exists w :: w in workers && workers[w] == t
  }

  predicate CanReceive(s: State, a: AgentId) {
    a in s.links && (s.links[a].Attached? ==> s.links[a].open) && Queue(s.toAgent, s.links[a].conn) != []
  }

  function Popped(s: State, c: nat): State
    requires Queue(s.toAgent, c) != []
  {
    s.(toAgent := s.toAgent[c := Queue(s.toAgent, c)[1..]])
  }

  /** A message taken off the queue by an attached agent. */
  function Handled(s: State, a: AgentId, m: Command): State
    requires AttachedAt(s, a)
  {
    var l := s.links[a];
    match m
    case Start(d, t) =>
      if Busy(l.workers, d, t) then s
      else s.(links := s.links[a := l.(workers := l.workers[d := t])], alive := s.alive + {d})
    case Stop(d) => if d in l.workers then s else Tellback(s, l.conn, Stopped(d, false))
    case Welcome => s.(links := s.links[a := l.(open := false)])
  }

  function Greeted(s: State, a: AgentId, m: Command): State
    requires a in s.links
  {
    if m.Welcome? then s.(links := s.links[a := Attached(s.links[a].conn, true, map[], map[], false)])
    else s.(links := s.links - {a})
  }

  function DoReceive(s: State, a: AgentId): State
    requires CanReceive(s, a)
  {
    var c := s.links[a].conn;
    var m := Queue(s.toAgent, c)[0];
    if s.links[a].Attached? then Handled(Popped(s, c), a, m) else Greeted(Popped(s, c), a, m)
  }

  predicate CanExit(s: State, a: AgentId, d: nat) { AttachedAt(s, a) && d in s.links[a].workers }

  function DoExit(s: State, a: AgentId, d: nat, failed: bool): State
    requires CanExit(s, a, d)
  {
    var l := s.links[a];
    s.(links := s.links[a := l.(workers := l.workers - {d}, exiting := l.exiting[d := failed],
                                cleanupFailed := l.cleanupFailed || failed)],
       alive := if failed then s.alive else s.alive - {d})
  }

  predicate CanSayStopped(s: State, a: AgentId, d: nat) { AttachedAt(s, a) && d in s.links[a].exiting }

  function DoSayStopped(s: State, a: AgentId, d: nat): State
    requires CanSayStopped(s, a, d)
  {
    var l := s.links[a];
    Tellback(s, l.conn, Stopped(d, l.exiting[d])).(links := s.links[a := l.(exiting := l.exiting - {d})])
  }

  // The client waits for every worker goroutine before it reconnects.
  predicate CanFinish(s: State, a: AgentId) {
    a in s.procs && AttachedAt(s, a) && !s.links[a].open && s.links[a].workers == map[] && s.links[a].exiting == map[]
  }

  /** A failed cleanup ends the process instead of letting it reconnect. */
  function DoFinish(s: State, a: AgentId): State
    requires CanFinish(s, a)
  {
    if s.links[a].cleanupFailed then s.(procs := s.procs - {a}, links := s.links - {a})
    else s.(procs := s.procs[a := s.procs[a].(recovered := Some(s.links[a].conn))], links := s.links - {a})
  }

  // One process per agent: a new one starts only after the last has gone.
  function DoBoot(s: State, a: AgentId, readable: bool): State
    requires a !in s.procs
  {
    s.(procs := s.procs[a := Process(s.next, if readable then Some(Boot(s, a)) else None, None)],
       links := s.links - {a}, next := s.next + 1)
  }

  function DoReboot(s: State, a: AgentId): State {
    s.(procs := s.procs - {a}, links := s.links - {a}, boots := s.boots[a := s.next], next := s.next + 1,
       alive := set d | d in s.alive && !(d in s.devices && s.devices[d].agent == a))
  }

  ghost predicate Enabled(s: State, e: Step) {
    match e
    case Connect(a) => CanConnect(s, a)
    case HubHello(a) => CanHello(s, a)
    case HubDisconnect(a) => a in s.hub.connections
    case HubCloses(c) => c in s.info
    case HubShutdown => true
    case RegisterSession(k) => CanRegister(s, k)
    case SendStart(d) => CanStart(s, d, true)
    case SendStartFails(d, delivered) => CanStart(s, d, delivered)
    case SendStop(d) => d in s.devices && d in s.flags.started && d !in s.flags.stopSent
    case StopTimesOut(d) => d in s.devices && d in s.flags.stopSent
    case DeviceReleased(d) => d in s.devices && d in s.flags.cleaned
    case HubReceives(a) => CanReport(s, a)
    case AgentBoots(a, _) => a !in s.procs
    case AgentReceives(a) => CanReceive(s, a)
    case WorkerExits(a, d, _) => CanExit(s, a, d)
    case WorkerReports(a, d) => CanSayStopped(s, a, d)
    case AgentSendBreaks(c) => c in s.info
    case AgentCloses(a) => AttachedAt(s, a) && s.links[a].open
    case AgentFinishes(a) => CanFinish(s, a)
    case AgentAbandons(a) => a in s.links && s.links[a].Waiting?
    case AgentCrashes(a) => a in s.procs
    case HostReboots(a) => true
    case ReceiverDies(d) => d in s.alive
  }

  ghost function Do(s: State, e: Step): State
    requires Enabled(s, e)
  {
    match e
    case Connect(a) => DoConnect(s, a)
    case HubHello(a) => DoHello(s, a)
    case HubDisconnect(a) => DoDisconnect(s, a)
    case HubCloses(c) => s.(hubClosed := s.hubClosed + {c})
    case HubShutdown => s.(hub := s.hub.(closed := true))
    case RegisterSession(k) => DoRegister(s, k)
    case SendStart(d) => DoStart(s, d, true, false)
    case SendStartFails(d, delivered) => DoStart(s, d, delivered, true)
    case SendStop(d) => DoStop(s, d)
    case StopTimesOut(d) => DoTimeOut(s, d)
    case DeviceReleased(d) => s.(flags := s.flags.(released := s.flags.released + {d}))
    case HubReceives(a) => DoReport(s, a)
    case AgentBoots(a, readable) => DoBoot(s, a, readable)
    case AgentReceives(a) => DoReceive(s, a)
    case WorkerExits(a, d, failed) => DoExit(s, a, d, failed)
    case WorkerReports(a, d) => DoSayStopped(s, a, d)
    case AgentSendBreaks(c) => s.(agentClosed := s.agentClosed + {c})
    case AgentCloses(a) => s.(links := s.links[a := s.links[a].(open := false)])
    case AgentFinishes(a) => DoFinish(s, a)
    case AgentAbandons(a) => s.(links := s.links - {a})
    case AgentCrashes(a) => s.(procs := s.procs - {a}, links := s.links - {a})
    case HostReboots(a) => DoReboot(s, a)
    case ReceiverDies(d) => s.(alive := s.alive - {d})
  }

  /** The one race that loses a failed cleanup: the agent answers a stop for a worker that has left the worker table
      but not yet reported its failure, while the receiver is alive, the answer will reach the hub ahead of any
      report of the failure, and the hub, still open, lists that session and no other of its tuner. */
  ghost predicate Overtakes(s: State, e: Step) {
    && e.AgentReceives? && AttachedAt(s, e.agent)
    && var l := s.links[e.agent];
       var q := Queue(s.toAgent, l.conn);
       q != [] && q[0].Stop? &&
       var d := q[0].session;
       && d in l.exiting && l.exiting[d] && d in s.alive
       && l.conn !in s.agentClosed && Stopped(d, true) !in Queue(s.toHub, l.conn)
       && !s.hub.closed && d in s.hub.sessions
       && forall x | x in s.hub.sessions && KeyOf(s.hub.sessions[x]) == KeyOf(s.hub.sessions[d]) :: x == d
  }

  ghost predicate Next(s: State, e: Step, t: State) { Enabled(s, e) && t == Do(s, e) }

  /** The states that a run of steps goes through, one more than the steps. */
  ghost predicate Run(states: seq<State>, steps: seq<Step>) {
    && |states| == |steps| + 1 && states[0] == Initial()
    && forall n {:trigger steps[n]} | 0 <= n < |steps| :: Next(states[n], steps[n], states[n + 1])
  }

  ghost predicate NeverOvertakes(states: seq<State>, steps: seq<Step>)
    requires |states| == |steps| + 1
  {
    forall n {:trigger steps[n]} | 0 <= n < |steps| :: !Overtakes(states[n], steps[n])
  }

  /** No tuner has two receivers alive. */
  ghost predicate OneReceiverPerTuner(s: State) {
    && s.alive <= s.devices.Keys
    && (forall d, e | d in s.alive && e in s.alive && KeyOf(s.devices[d]) == KeyOf(s.devices[e]) :: d == e)
  }

  /** Two receivers are alive on tuner k. */
  ghost predicate TwoReceivers(s: State, k: TunerKey) {
    exists d, e :: d in s.alive && e in s.alive && d != e && d in s.devices && e in s.devices
                   && KeyOf(s.devices[d]) == k && KeyOf(s.devices[e]) == k
  }
}
