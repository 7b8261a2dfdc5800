/** A reachable state in which an active connection belongs to a failed sandbox. */
module QuarantineWitness {
  import opened Common
  import opened SupervisorFleet
  import opened FleetSafety
  import opened SupervisorRuns
  import opened RetirementInvariant
  import opened SupervisorSafety
  import SM = StateMachines

  // ------------------------------------------------------------------ an active connection on a failed sandbox

  lemma QuarantineStep(w: World, c: ConnectionId, s: SandboxId)
    requires Good(w) && ActiveOn(w.store.fleet.connections, c, s)
    ensures var f' := Quarantining(w, s).store.fleet;
            ActiveOn(f'.connections, c, s) && s in f'.sandboxes && f'.sandboxes[s].state.Failed?
  {
    ConnectionParts(w);
    hide Good, ActiveOn, Linked, OneActive, RetiredClosed, ClaimShape;
  }

  /** Quarantining closes no connection, so the one on a serving sandbox stays active there. */
  lemma QuarantineKeepsConnection(steps: seq<Step>, c: ConnectionId, s: SandboxId)
    requires ActiveOn(After(steps).store.fleet.connections, c, s)
    ensures var f' := After(steps + [QuarantineSandbox(s)]).store.fleet;
            ActiveOn(f'.connections, c, s) && s in f'.sandboxes && f'.sandboxes[s].state.Failed?
  {
    hide Good, Ready, After, Quarantining, ActiveOn;
    var longer := steps + [QuarantineSandbox(s)];
    assert longer[..|longer| - 1] == steps;
    RunGood(steps);
    QuarantineStep(After(steps), c, s);
    RunStep(longer);
  }

  const WITNESS_BOOT := ProvisionRequest(0, 0, 0, 0, 0, 0, 1, 0)
  const WITNESS_REGISTRATION := Registration(Authority(0, 0, 0, 0), 0, 0, 0, 1, true, 0, 10)

  lemma WitnessEnrolled()
    ensures ProvisionedFleet(EMPTY_FLEET, WITNESS_BOOT, None, 1, true, 0, 10) ==
            Enroll(EMPTY_FLEET.(hosts := map[0 := Host(1, 0)]), WITNESS_BOOT, 0, 10)
  {
    assert ConflictAnswer(EMPTY_FLEET, WITNESS_BOOT, None);
    hide Enroll, ConflictAnswer;
  }

  lemma WitnessProvision()
    ensures After([Provision(WITNESS_BOOT, None, 1, true, 0, 10)]).store.fleet ==
            Enroll(EMPTY_FLEET.(hosts := map[0 := Host(1, 0)]), WITNESS_BOOT, 0, 10)
  {
    hide Good, Ready, Enroll, ProvisionedFleet;
    var steps := [Provision(WITNESS_BOOT, None, 1, true, 0, 10)];
    assert steps[..|steps| - 1] == [];
    RunStep(steps);
    WitnessEnrolled();
  }

  lemma WitnessDecision(f: Fleet)
    requires f == Enroll(EMPTY_FLEET.(hosts := map[0 := Host(1, 0)]), WITNESS_BOOT, 0, 10)
    ensures OnePerSandbox(f.connections) && RequestsUnique(f.connections)
    ensures f.connections == map[]
    ensures Decide(f, WITNESS_REGISTRATION, 0) == Open(None)
  {
    assert f.connections == map[];
    assert f.sandboxes == map[0 := Sandbox(0, 0, SM.SandboxState.Provisioning, 1, 0)];
    assert !BootElsewhere(f, WITNESS_REGISTRATION.authority);
    hide Enroll, BootElsewhere;
  }

  lemma WitnessConnected(f: Fleet)
    requires OnePerSandbox(f.connections) && RequestsUnique(f.connections)
    requires Decide(f, WITNESS_REGISTRATION, 0) == Open(None)
    ensures ActiveOn(Register(f, WITNESS_REGISTRATION, 0).connections, 0, 0)
  {
    hide Decide, OnePerSandbox, RequestsUnique, FenceAll;
  }

  /** A reachable state in which a supervisor's active connection belongs to a failed sandbox. */
  lemma ActiveOnFailedSandbox() returns (steps: seq<Step>)
    ensures var f := After(steps).store.fleet;
            ActiveOn(f.connections, 0, 0) && 0 in f.sandboxes && f.sandboxes[0].state.Failed?
  {
    hide Good, Decide, After, Register, Enroll, ProvisionedFleet, ActiveOn, OnePerSandbox, RequestsUnique;
    var first := [Provision(WITNESS_BOOT, None, 1, true, 0, 10)];
    WitnessProvision();
    var f := After(first).store.fleet;
    WitnessDecision(f);
    WitnessConnected(f);
    var second := first + [RegisterBoot(WITNESS_REGISTRATION, 0)];
    assert second[..|second| - 1] == first;
    RunStep(second);
    QuarantineKeepsConnection(second, 0, 0);
    steps := second + [QuarantineSandbox(0)];
  }
}
