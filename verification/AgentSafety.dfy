/**
 Safety of the agent protocol: every step keeps the invariant, so one tuner never has two
 receivers alive.
 */
module AgentSafety {
  import opened AgentProtocol
  import opened AgentSteps

  // ------------------------------------------------------------------- the theorem

  predicate OfHub(e: Step) {
    || e.Connect? || e.HubHello? || e.HubDisconnect? || e.HubCloses? || e.HubShutdown? || e.RegisterSession?
         || e.SendStart?
    || e.SendStartFails? || e.SendStop? || e.StopTimesOut? || e.DeviceReleased? || e.HubReceives?
  }

  lemma HubStepKeepsInv(s: State, e: Step)
    requires Inv(s) && Enabled(s, e) && OfHub(e)
    ensures Inv(Do(s, e))
  {
    match e
    case Connect(a) => ConnectKeepsInv(s, a);
    case HubHello(a) => HelloKeepsInv(s, a);
    case HubDisconnect(a) => DisconnectKeepsInv(s, a);
    case HubCloses(c) => HubClosesKeepsInv(s, c);
    case HubShutdown => ShutdownKeepsInv(s);
    case RegisterSession(k) => RegisterKeepsInv(s, k);
    case SendStart(d) => StartKeepsInv(s, d, false);
    case SendStartFails(d, delivered) => if delivered { StartKeepsInv(s, d, true); } else { GiveUpKeepsInv(s, d); }
    case SendStop(d) => StopKeepsInv(s, d);
    case StopTimesOut(d) => TimeOutKeepsInv(s, d);
    case DeviceReleased(d) => ReleasedKeepsInv(s, d);
    case HubReceives(a) => ReportKeepsInv(s, a);
  }

  lemma AgentStepKeepsInv(s: State, e: Step)
    requires Inv(s) && Enabled(s, e) && !OfHub(e) && !Overtakes(s, e)
    ensures Inv(Do(s, e))
  {
    match e
    case AgentBoots(a, readable) => BootKeepsInv(s, a, readable);
    case AgentReceives(a) => ReceiveKeepsInv(s, a);
    case WorkerExits(a, d, failed) => ExitKeepsInv(s, a, d, failed);
    case WorkerReports(a, d) => SayStoppedKeepsInv(s, a, d);
    case AgentSendBreaks(c) => SendBreaksKeepsInv(s, c);
    case AgentFinishes(a) => FinishKeepsInv(s, a);
    case HostReboots(a) => RebootKeepsInv(s, a);
    case _ => LossStepKeepsInv(s, e);
  }

  /** Every step of hub, agents and network that does not overtake keeps the invariant. */
  lemma StepKeepsInv(s: State, e: Step)
    requires Inv(s) && Enabled(s, e) && !Overtakes(s, e)
    ensures Inv(Do(s, e))
  {
    if OfHub(e) { HubStepKeepsInv(s, e); } else { AgentStepKeepsInv(s, e); }
  }

  lemma LossStepKeepsInv(s: State, e: Step)
    requires Inv(s) && Enabled(s, e) && (e.AgentCloses? || e.AgentAbandons? || e.AgentCrashes? || e.ReceiverDies?)
    ensures Inv(Do(s, e))
  {
    forall a | a in s.links ensures a in s.procs { assert LinkShape(s.info, s.procs, s.links, s.boots, a); }
    var s' := Do(s, e);
    LossKeepsInv(s, s'.procs, s'.links, s'.alive);
  }

  lemma {:induction false} RunKeepsInv(states: seq<State>, steps: seq<Step>, n: nat)
    requires Run(states, steps) && NeverOvertakes(states, steps) && n < |states|
    ensures Inv(states[n])
  {
    if n == 0 {
      InitialInv();
    } else {
      RunKeepsInv(states, steps, n - 1);
      assert Next(states[n - 1], steps[n - 1], states[n]);
      StepKeepsInv(states[n - 1], steps[n - 1]);
    }
  }

  lemma InvIsSafe(s: State)
    requires Inv(s)
    ensures OneReceiverPerTuner(s)
  {
    forall d | d in s.alive ensures d in s.devices {
      assert StartOrder(s.devices, s.toAgent, s.alive, s.flags.sent, d);
    }
    forall d, e | d in s.alive && e in s.alive && KeyOf(s.devices[d]) == KeyOf(s.devices[e]) ensures d == e {
      assert Alone(View(s.devices, s.alive, s.toAgent, s.links), s.hub.sessions, s.flags.sent, s.hubClosed, d, e);
    }
  }

  /** In every run of hub, agents and network in which no stop overtakes a failed cleanup's
      report, no tuner ever has two receivers alive. */
  lemma OneReceiverAlways(states: seq<State>, steps: seq<Step>, n: nat)
    requires Run(states, steps) && NeverOvertakes(states, steps) && n < |states|
    ensures OneReceiverPerTuner(states[n])
  {
    RunKeepsInv(states, steps, n);
    InvIsSafe(states[n]);
  }
}
