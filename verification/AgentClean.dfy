/**
 Without failed cleanups there is nothing to overtake, and safety needs no condition.
 */
module AgentClean {
  import opened AgentProtocol
  import opened AgentSteps
  import opened AgentSafety

  // ------------------------------------------------------- when no cleanup ever fails

  ghost predicate CleanLink(links: Links, a: AgentId) {
    a in links && links[a].Attached? ==> forall d | d in links[a].exiting :: !links[a].exiting[d]
  }

  predicate Clean(e: Step) { e.WorkerExits? ==> !e.failed }

  /** A message leaves an agent's link as it was, closed, or with other workers; or it makes a new one. */
  lemma CleanHandled(s: State, x: AgentId, m: Command, a: AgentId)
    requires AttachedAt(s, x) && CleanLink(s.links, a)
    ensures CleanLink(Handled(s, x, m).links, a)
  {}

  lemma CleanReceive(s: State, x: AgentId)
    requires CanReceive(s, x) && forall a :: CleanLink(s.links, a)
    ensures forall a :: CleanLink(DoReceive(s, x).links, a)
  {
    var c := s.links[x].conn;
    var m, t := Queue(s.toAgent, c)[0], Popped(s, c);
    forall a ensures CleanLink(DoReceive(s, x).links, a) {
      assert CleanLink(s.links, a);
      if s.links[x].Attached? { CleanHandled(t, x, m, a); } else { assert CleanLink(Greeted(t, x, m).links, a); }
    }
  }

  lemma CleanExit(s: State, x: AgentId, d: nat)
    requires CanExit(s, x, d) && forall a :: CleanLink(s.links, a)
    ensures forall a :: CleanLink(DoExit(s, x, d, false).links, a)
  {
    forall a ensures CleanLink(DoExit(s, x, d, false).links, a) { assert CleanLink(s.links, a); }
  }

  lemma CleanReport(s: State, x: AgentId, d: nat)
    requires CanSayStopped(s, x, d) && forall a :: CleanLink(s.links, a)
    ensures forall a :: CleanLink(DoSayStopped(s, x, d).links, a)
  {
    forall a ensures CleanLink(DoSayStopped(s, x, d).links, a) { assert CleanLink(s.links, a); }
  }

  /** The links when a step neither handles a message nor ends a worker. */
  lemma CleanOtherwise(s: State, e: Step)
    requires Enabled(s, e) && !e.AgentReceives? && !e.WorkerExits? && !e.WorkerReports?
    requires forall a :: CleanLink(s.links, a)
    ensures forall a :: CleanLink(Do(s, e).links, a)
  {
    forall a ensures CleanLink(Do(s, e).links, a) { assert CleanLink(s.links, a); }
  }

  lemma CleanStep(s: State, e: Step)
    requires Enabled(s, e) && Clean(e) && forall a :: CleanLink(s.links, a)
    ensures forall a :: CleanLink(Do(s, e).links, a)
  {
    match e
    case AgentReceives(a) => CleanReceive(s, a);
    case WorkerExits(a, d, _) => CleanExit(s, a, d);
    case WorkerReports(a, d) => CleanReport(s, a, d);
    case _ => CleanOtherwise(s, e);
  }

  lemma NothingToOvertake(s: State, e: Step)
    requires forall a :: CleanLink(s.links, a)
    ensures !Overtakes(s, e)
  {
    if e.AgentReceives? { assert CleanLink(s.links, e.agent); }
  }

  lemma {:induction false} CleanRun(states: seq<State>, steps: seq<Step>, n: nat)
    requires Run(states, steps) && (forall i | 0 <= i < |steps| :: Clean(steps[i])) && n < |states|
    ensures forall a :: CleanLink(states[n].links, a)
  {
    if n == 0 {
      forall a ensures CleanLink(states[0].links, a) {}
    } else {
      CleanRun(states, steps, n - 1);
      assert Next(states[n - 1], steps[n - 1], states[n]);
      CleanStep(states[n - 1], steps[n - 1]);
    }
  }

  /** Without failed cleanups nothing is there to overtake, so every run is safe. */
  lemma CleanCleanupsAreSafe(states: seq<State>, steps: seq<Step>, n: nat)
    requires Run(states, steps) && (forall i | 0 <= i < |steps| :: Clean(steps[i])) && n < |states|
    ensures OneReceiverPerTuner(states[n])
  {
    forall i | 0 <= i < |steps| ensures !Overtakes(states[i], steps[i]) {
      CleanRun(states, steps, i);
      NothingToOvertake(states[i], steps[i]);
    }
    OneReceiverAlways(states, steps, n);
  }
}
