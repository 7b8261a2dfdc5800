/** Over every run: once a connection stands expired, its sandbox gets no other active connection. */
module ExpiredConnections {
  import opened Common
  import opened SupervisorFleet
  import opened FleetSafety
  import opened Reconciliation
  import opened SupervisorRuns
  import opened SupervisorInvariant
  import opened RetirementInvariant
  import opened SupervisorSafety
  import Q = QuarantineExact
  import G = RegistrationConditions
  import L = LifecycleRuns

  /** Connection `c` keeps its row, or its sandbox has been fenced. */
  ghost predicate KeptOrFenced(f: Fleet, f': Fleet, c: ConnectionId, s: SandboxId) {
    (c in f.connections && c in f'.connections && f'.connections[c] == f.connections[c]) || s in f'.retirements
  }

  lemma FenceKeepsOrFences(f: Fleet, fenced: set<SandboxId>, reason: Reason, now: Time, c: ConnectionId, s: SandboxId)
    requires ActiveOn(f.connections, c, s) && s in f.sandboxes && !f.sandboxes[s].state.Terminated?
    ensures KeptOrFenced(f, FenceAll(f, fenced, reason, now), c, s)
  {
    hide FailAll;
  }

  lemma OpenKeepsOrFences(f: Fleet, r: Registration, previous: Option<ConnectionId>, now: Time, c: ConnectionId,
                          s: SandboxId)
    requires ActiveOn(f.connections, c, s) && s in f.sandboxes && !f.sandboxes[s].state.Terminated?
    requires CanOpen(f, r, previous) && r.connection !in f.connections && r.authority.sandbox != s
    ensures KeptOrFenced(f, OpenConnection(f, r, previous, now), c, s)
  {
    FenceKeepsOrFences(f, Replaced(f, r.authority), NewBoot, now, c, s);
    hide FailAll, RetireAll, Replaced, HasHistory, MessageUsed, TransportUsed, CloseAll;
  }

  /** A registration at or after the deadline leaves an active connection as it is, or fences its sandbox. */
  lemma RegisterKeepsOrFences(f: Fleet, quarantined: set<SandboxId>, r: Registration, now: Time, c: ConnectionId,
                              s: SandboxId)
    requires Safe(f, quarantined) && ActiveOn(f.connections, c, s) && f.connections[c].expiresAt <= now
    requires r.connection !in f.connections && OnePerSandbox(f.connections) && RequestsUnique(f.connections)
    ensures KeptOrFenced(f, Register(f, r, now), c, s)
  {
    ActiveServes(f, quarantined, c, s);
    DecideOpens(f, r, now);
    if r.authority.sandbox == s {
      G.ExpiredNotRevived(f, quarantined, r, now, c);
    }
    hide Safe, Decide, OnePerSandbox, RequestsUnique, KeptOrFenced, FenceAll, OpenConnection, CanOpen;
    SameKept(f, c, s);
    match Decide(f, r, now)
    case Open(previous) => OpenKeepsOrFences(f, r, previous, now, c, s);
    case Expired => FenceKeepsOrFences(f, {r.authority.sandbox}, HeartbeatTimeout, now, c, s);
    case _ =>
  }

  lemma SameKept(f: Fleet, c: ConnectionId, s: SandboxId)
    requires ActiveOn(f.connections, c, s)
    ensures KeptOrFenced(f, f, c, s)
  {
  }

  lemma ActiveServes(f: Fleet, quarantined: set<SandboxId>, c: ConnectionId, s: SandboxId)
    requires Safe(f, quarantined) && ActiveOn(f.connections, c, s)
    ensures s in f.sandboxes && !f.sandboxes[s].state.Terminated?
  {
    hide Linked, OneActive, RequestsUnique, Quarantined, RetirementLinked, RetiredClosed, ClaimShape, Load, LeaseLinked,
      CredentialsUnique, Enrolled, ActiveOn;
  }

  lemma ExpireKeepsOrFences(f: Fleet, d: ConnectionId, now: Time, c: ConnectionId, s: SandboxId)
    requires ActiveOn(f.connections, c, s) && s in f.sandboxes && !f.sandboxes[s].state.Terminated?
    ensures KeptOrFenced(f, Expire(f, d, now), c, s)
  {
    SameKept(f, c, s);
    if IsExpired(f.connections, d, now) {
      FenceKeepsOrFences(f, {f.connections[d].sandbox}, HeartbeatTimeout, now, c, s);
    }
    hide FenceAll, KeptOrFenced;
  }

  /** The step takes place at or after `deadline`, if it looks at connections at all. */
  predicate Late(step: Step, deadline: Time) {
    match step
    case RegisterBoot(_, now) => now >= deadline
    case Beat(_, _, _, now, _) => now >= deadline
    case _ => true
  }

  lemma BeatKeeps(f: Fleet, d: ConnectionId, a: Authority, instance: InstanceId, now: Time, timeout: nat,
                  c: ConnectionId,
                  s: SandboxId)
    requires ActiveOn(f.connections, c, s) && f.connections[c].expiresAt <= now
    ensures KeptOrFenced(f, Heartbeat(f, d, a, instance, now, timeout), c, s)
  {
  }

  lemma TableKeepsOrFences(w: World, step: Step, c: ConnectionId, s: SandboxId)
    requires Good(w) && !IsWorkerStep(step) && ActiveOn(w.store.fleet.connections, c, s)
    requires Late(step, w.store.fleet.connections[c].expiresAt)
    ensures KeptOrFenced(w.store.fleet, Do(w, step).store.fleet, c, s)
  {
    hide Good, Ready, ProvisionedFleet, Register, Heartbeat, Expire, L.Do, GrantLease, Extended, CanRelease, Drop,
      Quarantine;
    hide Reconciled, NewlyQuarantined, Enrolled, OnePerSandbox, RequestsUnique, KeptOrFenced, Safe, WorkersOk, ActiveOn;
    var f := w.store.fleet;
    GoodParts(w);
    ActiveServes(f, w.quarantined, c, s);
    SameKept(f, c, s);
    match step {
      case Provision(p, conflict, maximum, allowed, now, ttl) =>
        Q.ProvisionConnections(f, p, conflict, maximum, allowed, now, ttl);
      case RegisterBoot(r, now) =>
        if Ready(w) && r.connection !in f.connections {
          ReadyIs(w);
          RegisterKeepsOrFences(f, w.quarantined, r, now, c, s);
        }
      case Beat(d, a, instance, now, timeout) => BeatKeeps(f, d, a, instance, now, timeout, c, s);
      case ExpireConnection(d, now) => ExpireKeepsOrFences(f, d, now, c, s);
      case Grant(x, d, b, lease) => Q.LeaseConnections(f, x, b, lease, 0);
      case RenewLease(x, until) => Q.LeaseConnections(f, x, 0, Lease(0, 0, 0, 0), until);
      case ReleaseLease(x) => Q.LeaseConnections(f, x, 0, Lease(0, 0, 0, 0), 0);
      case ReconcileExpired(b, targets, now) => Q.ReconciledConnections(w, b, targets, now);
      case QuarantineSandbox(b) => Q.LeaseConnections(f, 0, b, Lease(0, 0, 0, 0), 0);
      case _ =>
    }
    if Do(w, step).store.fleet.connections == f.connections {
      SameConnectionsKept(f, Do(w, step).store.fleet, c, s);
    }
  }

  lemma SameConnectionsKept(f: Fleet, f': Fleet, c: ConnectionId, s: SandboxId)
    requires ActiveOn(f.connections, c, s) && f'.connections == f.connections
    ensures KeptOrFenced(f, f', c, s)
  {
  }

  lemma DoKeepsOrFences(w: World, step: Step, c: ConnectionId, s: SandboxId)
    requires Good(w) && ActiveOn(w.store.fleet.connections, c, s) && Late(step, w.store.fleet.connections[c].expiresAt)
    ensures KeptOrFenced(w.store.fleet, Do(w, step).store.fleet, c, s)
  {
    hide Good, Do, KeptOrFenced, ActiveOn, Late;
    if IsWorkerStep(step) {
      Q.WorkerOpensNothing(w, step);
      SameConnectionsKept(w.store.fleet, Do(w, step).store.fleet, c, s);
    } else {
      TableKeepsOrFences(w, step, c, s);
    }
  }

  /** `c` is still the expired connection of `s`, or `s` has been fenced. */
  ghost predicate Dead(f: Fleet, c: ConnectionId, s: SandboxId, deadline: Time) {
    (ActiveOn(f.connections, c, s) && f.connections[c].expiresAt == deadline) || s in f.retirements
  }

  lemma DeadStays(f: Fleet, f': Fleet, c: ConnectionId, s: SandboxId, deadline: Time)
    requires Dead(f, c, s, deadline) && (ActiveOn(f.connections, c, s) ==> KeptOrFenced(f, f', c, s))
    requires s in f.retirements ==> s in f'.retirements
    ensures Dead(f', c, s, deadline)
  {
  }

  lemma {:induction false} DeadThroughout(steps: seq<Step>, n: nat, c: ConnectionId, s: SandboxId, deadline: Time)
    requires n <= |steps| && Dead(After(steps[..n]).store.fleet, c, s, deadline)
    requires forall i :: n <= i < |steps| ==> Late(steps[i], deadline)
    ensures Dead(After(steps).store.fleet, c, s, deadline)
  {
    hide Do, Good, Ready, Late, After, ActiveOn, KeptOrFenced, Evolves, ClaimsTaken;
    if n == |steps| {
      assert steps[..n] == steps;
    } else {
      var before := steps[..|steps| - 1];
      assert before[..n] == steps[..n];
      DeadThroughout(before, n, c, s, deadline);
      RunGood(before);
      RunStep(steps);
      var w := After(before);
      DoEvolves(w, steps[|steps| - 1], s);
      EvolvesIs(w.store.fleet, After(steps).store.fleet, s, ClaimsTaken(w, steps[|steps| - 1], s));
      if s !in w.store.fleet.retirements {
        DoKeepsOrFences(w, steps[|steps| - 1], c, s);
      }
      if ActiveOn(w.store.fleet.connections, c, s) && s in w.store.fleet.retirements {
        ConnectionParts(w);
      }
      DeadStays(w.store.fleet, After(steps).store.fleet, c, s, deadline);
    }
  }

  lemma EvolvesIs(f: Fleet, f': Fleet, s: SandboxId, claims: nat)
    requires Evolves(f, f', s, claims)
    ensures s in f.retirements ==> s in f'.retirements
  {
  }

  /**
   Over every run: from the moment an active connection has passed its deadline, as far as the clocks
   of registrations and heartbeats go, no step ever makes another connection active on its sandbox.
   */
  lemma ExpiredStaysAlone(steps: seq<Step>, n: nat, c: ConnectionId, s: SandboxId, d: ConnectionId)
    requires n <= |steps| && ActiveOn(After(steps[..n]).store.fleet.connections, c, s)
    requires forall i :: n <= i < |steps| ==> Late(steps[i], After(steps[..n]).store.fleet.connections[c].expiresAt)
    requires ActiveOn(After(steps).store.fleet.connections, d, s)
    ensures d == c
    ensures After(steps).store.fleet.connections[c].expiresAt == After(steps[..n]).store.fleet.connections[c].expiresAt
  {
    hide Do, Good, Ready, Late, After;
    DeadThroughout(steps, n, c, s, After(steps[..n]).store.fleet.connections[c].expiresAt);
    RunGood(steps);
    ConnectionParts(After(steps));
    hide Serving, ClaimShape;
  }
}
