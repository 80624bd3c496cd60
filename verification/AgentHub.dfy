/**
 The hub and the agent's worker table as the objects that internal/agent updates in
 place.  Every method is proved against the operation that the protocol steps use.
 */
module AgentHub {
  import opened AgentProtocol

  lemma KeysOnExtended(m: map<nat, Session>, d: nat, x: Session, agent: AgentId, c: nat)
    requires d !in m
    ensures KeysOn(m[d := x], agent, c)
            == KeysOn(m, agent, c) + (if x.conn == c then {TunerKey(agent, x.tuner)} else {})
  {
    var m' := m[d := x];
    forall k | k in KeysOn(m, agent, c) ensures k in KeysOn(m', agent, c) {
      var e :| e in m && m[e].conn == c && k == TunerKey(agent, m[e].tuner);
      assert e in m' && m'[e].conn == c;
    }
    if x.conn == c { assert d in m' && m'[d].conn == c; }
  }

  ghost function Remaining(all: map<nat, Session>, todo: set<nat>, c: nat): map<nat, Session> {
    map d | d in all && (d in todo || all[d].conn != c) :: all[d]
  }

  ghost function Imposed(q: map<TunerKey, nat>, keys: set<TunerKey>, c: nat): map<TunerKey, nat> {
    q + (map k | k in keys :: c)
  }

  lemma SessionHandled(all: map<nat, Session>, todo: set<nat>, d: nat, c: nat,
                       q: map<TunerKey, nat>, keys: set<TunerKey>, k: TunerKey)
    requires d in all && d in todo
    ensures Remaining(all, todo - {d}, c) == if all[d].conn == c then Remaining(all, todo, c) - {d}
            else Remaining(all, todo, c)
    ensures Imposed(q, keys + {k}, c) == Imposed(q, keys, c)[k := c]
  {
  }

  class Hub {
    var connections: map<AgentId, nat>
    var registered: map<nat, Peer>
    var sessions: map<nat, Session>
    var quarantined: map<TunerKey, nat>
    var closed: bool

    ghost function State(): HubState
      reads this
    {
      HubState(connections, registered, sessions, quarantined, closed)
    }

    constructor ()
      ensures State() == Initial().hub
    {
      connections, registered, sessions, quarantined, closed := map[], map[], map[], map[], false;
    }

    /** A process that dials is let in exactly when the protocol lets it connect, and the hub is then as that step
        leaves it. */
    method Accept(agent: AgentId, c: nat, ghost s: AgentProtocol.State) returns (ok: bool)
      requires s.hub == State() && agent in s.procs && agent !in s.links && c == s.next
      modifies this
      ensures ok == Enabled(s, Connect(agent))
      ensures State() == if ok then Do(s, Connect(agent)).hub else s.hub
    {
      ok := !closed && agent !in connections;
      if ok { connections := connections[agent := c]; }
    }

    method Register(agent: AgentId, c: nat, hello: Hello)
      requires c !in registered && c !in quarantined.Values
      modifies this
      ensures State() == Registered(old(State()), agent, c, hello)
    {
      if closed { return; }
      ghost var old_r := registered;
      registered := registered[c := Peer(hello.instance, hello.boot)];
      var all := quarantined;
      var todo := quarantined.Keys;
      while todo != {}
        invariant todo <= all.Keys
        invariant quarantined == map k | k in all
                                         && (k in todo || !(k.agent == agent && Lifts(old_r, all[k], hello))) :: all[k]
        invariant connections == old(connections) && sessions == old(sessions) && closed == old(closed)
        invariant registered == old_r[c := Peer(hello.instance, hello.boot)]
        decreases todo
      {
        var key :| key in todo;
        assert all[key] in all.Values;
        if key.agent == agent && Lifts(registered, all[key], hello) { quarantined := quarantined - {key}; }
        todo := todo - {key};
      }
    }

    method Disconnect(agent: AgentId, c: nat)
      modifies this
      ensures State() == Disconnected(old(State()), agent, c)
    {
      if agent in connections && connections[agent] == c { connections := connections - {agent}; }
      QuarantineSessions(agent, c);
    }

    method QuarantineSessions(agent: AgentId, c: nat)
      modifies this`sessions, this`quarantined
      ensures sessions == map d | d in old(sessions) && old(sessions)[d].conn != c :: old(sessions)[d]
      ensures quarantined == old(quarantined) + (map k | k in KeysOn(old(sessions), agent, c) :: c)
    {
      var all := sessions;
      var todo := sessions.Keys;
      ghost var seen: map<nat, Session> := map[];
      ghost var keys := {};
      while todo != {}
        invariant todo <= all.Keys && seen.Keys == all.Keys - todo
        invariant forall d | d in seen :: seen[d] == all[d]
        invariant keys == KeysOn(seen, agent, c)
        invariant sessions == Remaining(all, todo, c)
        invariant quarantined == Imposed(old(quarantined), keys, c)
        decreases todo
      {
        var d :| d in todo;
        var k := TunerKey(agent, all[d].tuner);
        KeysOnExtended(seen, d, all[d], agent, c);
        SessionHandled(all, todo, d, c, old(quarantined), keys, k);
        if all[d].conn == c {
          quarantined := quarantined[k := c];
          sessions := sessions - {d};
          keys := keys + {k};
        }
        seen := seen[d := all[d]];
        todo := todo - {d};
      }
      assert seen == all;
    }

    /** Registers the session of a device, unless its agent or tuner is unavailable. */
    method Start(k: TunerKey, d: nat) returns (ok: bool)
      requires d !in sessions
      modifies this
      ensures ok == Available(old(State()), k)
      ensures ok ==> State() == old(State()).(
                sessions := old(sessions)[d := Session(k.agent, k.tuner, old(connections)[k.agent])])
      ensures !ok ==> State() == old(State())
    {
      ok := !closed && k.agent in connections && connections[k.agent] in registered && k !in quarantined;
      if ok { sessions := sessions[d := Session(k.agent, k.tuner, connections[k.agent])]; }
    }

    method Complete(d: nat, failed: bool)
      requires d in sessions
      modifies this
      ensures State() == Completed(old(State()), d, failed)
    {
      var x := sessions[d];
      if failed {
        quarantined := quarantined[KeyOf(x) := x.conn];
      } else if KeyOf(x) in quarantined && quarantined[KeyOf(x)] == x.conn {
        quarantined := quarantined - {KeyOf(x)};
      }
      sessions := sessions - {d};
    }

    method StopTimeout(d: nat)
      modifies this
      ensures State() == StopTimedOut(old(State()), d)
    {
      if d in sessions { quarantined := quarantined[KeyOf(sessions[d]) := sessions[d].conn]; }
    }
  }

  /** The worker table of one connection, as the client's receive loop sees it. */
  class WorkerTable {
    var workers: map<nat, TunerName>
    var cleanupFailed: bool

    constructor ()
      ensures workers == map[] && !cleanupFailed
    {
      workers, cleanupFailed := map[], false;
    }

    method HandleStart(d: nat, t: TunerName) returns (spawned: bool)
      modifies this
      ensures spawned == !Busy(old(workers), d, t)
      ensures workers == (if spawned then old(workers)[d := t] else old(workers)) && cleanupFailed == old(cleanupFailed)
    {
      var busy := d in workers;
      var todo := workers.Keys;
      while todo != {}
        invariant todo <= workers.Keys
        invariant busy == (d in workers || exists w :: w in workers && w !in todo && workers[w] == t)
        invariant workers == old(workers) && cleanupFailed == old(cleanupFailed)
        decreases todo
      {
        var w :| w in todo;
        if workers[w] == t { busy := true; }
        todo := todo - {w};
      }
      if !busy { workers := workers[d := t]; }
      spawned := !busy;
    }

    /** The table is as the protocol's exit step leaves the agent's link. */
    method WorkerDone(d: nat, failed: bool, ghost s: State, ghost a: AgentId)
      requires Enabled(s, WorkerExits(a, d, failed)) && s.links[a].workers == workers
               && s.links[a].cleanupFailed == cleanupFailed
      modifies this
      ensures a in Do(s, WorkerExits(a, d, failed)).links && Do(s, WorkerExits(a, d, failed)).links[a].Attached?
      ensures workers == Do(s, WorkerExits(a, d, failed)).links[a].workers
      ensures cleanupFailed == Do(s, WorkerExits(a, d, failed)).links[a].cleanupFailed
    {
      if failed { cleanupFailed := true; }
      workers := workers - {d};
    }
  }
}
