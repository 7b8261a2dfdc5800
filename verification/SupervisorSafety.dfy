/** Over every run: one authority per supervisor, fenced for good, and retirement ordered, complete and fenced. */
module SupervisorSafety {
  import opened Common
  import opened SupervisorFleet
  import opened FleetSafety
  import opened Reconciliation
  import opened SupervisorRuns
  import opened SupervisorInvariant
  import opened RetirementInvariant
  import C = RetirementClaims
  import L = LifecycleRuns

  // ------------------------------------------------------------------ one authority, and fenced means fenced for good

  /**
   In every reachable state a supervisor has at most one active connection over all its boots, and
   the sandbox behind it serves exactly when it was not quarantined.
   */
  lemma SingleAuthority(steps: seq<Step>, c: ConnectionId, d: ConnectionId)
    requires var cn := After(steps).store.fleet.connections;
             && c in cn && d in cn && cn[c].state.Active? && cn[d].state.Active? && cn[c].supervisor == cn[d].supervisor
    ensures c == d
    ensures var f := After(steps).store.fleet;
            var s := f.connections[c].sandbox;
            && s in f.sandboxes && s !in f.retirements
            && f.sandboxes[s].supervisor == f.connections[c].supervisor && f.sandboxes[s].boot == f.connections[c].boot
            && (f.sandboxes[s].state.Ready? || f.sandboxes[s].state.Leased? <==> s !in After(steps).quarantined)
  {
    RunGood(steps);
    var w := After(steps);
    ConnectionParts(w);
    assert ActiveOn(w.store.fleet.connections, c, w.store.fleet.connections[c].sandbox);
    hide Good, Ready, After;
  }

  lemma ConnectionParts(w: World)
    requires Good(w)
    ensures Linked(w.store.fleet.sandboxes, w.store.fleet.connections) && OneActive(w.store.fleet.connections)
    ensures Serving(w.store.fleet.sandboxes, w.store.fleet.connections, w.quarantined)
    ensures RetiredClosed(w.store.fleet.connections, w.store.fleet.retirements)
    ensures ClaimShape(w.store.fleet.retirements)
  {
    hide WorkersOk, LivesConsistent, RetirementLinked, Linked, OneActive, RequestsUnique, Serving, Quarantined,
      RetiredClosed;
    hide ClaimShape, Load, LeaseLinked, CredentialsUnique, Enrolled;
  }

  predicate Settled(r: Retirement) {
    r.state.Completed? || r.state.Blocked?
  }

  /** A retirement row is never removed, counts its claims, and once completed or blocked never changes again. */
  ghost predicate Evolves(f: Fleet, f': Fleet, s: SandboxId, claims: nat) {
    s in f.retirements ==>
      && s in f'.retirements
      && f'.retirements[s].attempts == f.retirements[s].attempts + claims
      && (Settled(f.retirements[s]) ==> f'.retirements[s] == f.retirements[s])
  }

  /** Whether the step takes the claim on `s`. */
  function ClaimsTaken(w: World, step: Step, s: SandboxId): nat {
    match step
    case TakeClaim(x, id, _, now, _) =>
      if x == s && s in w.store.fleet.retirements && C.Claimable(w.store.fleet.retirements[s], now) && id !in w.workers then 1 else 0
    case _ => 0
  }

  lemma GrowsEvolves(f: Fleet, f': Fleet, s: SandboxId)
    requires Grows(f, f')
    ensures Evolves(f, f', s, 0)
  {
  }

  lemma SameRowsEvolve(f: Fleet, f': Fleet, s: SandboxId)
    requires f'.retirements == f.retirements
    ensures Evolves(f, f', s, 0)
  {
  }

  lemma WorkerStepEvolves(w: World, id: ClaimId, s: SandboxId, retryable: bool, now: Time, span: nat)
    ensures Evolves(w.store.fleet, Renewal(w, id, now, span).store.fleet, s, 0)
    ensures Evolves(w.store.fleet, Completion(w, id).store.fleet, s, 0)
    ensures Evolves(w.store.fleet, Failure(w, id, retryable, now, span).store.fleet, s, 0)
    ensures Evolves(w.store.fleet, Stop(w, id).store.fleet, s, 0)
  {
    hide C.Terminated;
  }

  lemma TakeEvolves(w: World, x: SandboxId, id: ClaimId, owner: InstanceId, now: Time, duration: nat, s: SandboxId)
    ensures Evolves(w.store.fleet, ClaimDue(w, x, id, owner, now, duration).store.fleet, s,
                    ClaimsTaken(w, TakeClaim(x, id, owner, now, duration), s))
  {
  }

  lemma RetireRows(w: World, id: ClaimId, assignments: seq<Assignment>, now: Time)
    requires Good(w)
    ensures Retire(w, id, assignments, now).store.fleet.retirements == w.store.fleet.retirements
  {
    if At(w, id, Renewed) {
      var k := w.workers[id];
      BeginIsNothing(w, id);
      WorkerFacts(w, id);
      assert w.store.(fleet := w.store.fleet) == w.store;
      hide Good, CommitRetirement, BeginRetirement, LivesFinalized;
      if CommitRetirement(w.store, k.sandbox, assignments, now).Ok? {
        CommitRetirementRows(w.store, k.sandbox, assignments, now);
      }
    }
    hide Good, BeginRetirement, CommitRetirement;
  }

  lemma ReconciledRows(w: World, s: SandboxId, targets: seq<Assignment>, now: Time)
    ensures Reconciled(w, s, targets, now).store.fleet.retirements == w.store.fleet.retirements
  {
    if CommitExpired(w.store, s, targets, now).Ok? {
      CommitExpiredRows(w.store, s, targets, now);
    }
    hide CommitExpired;
  }

  lemma LeaseRows(f: Fleet, x: SessionId, s: SandboxId, lease: Lease, until: Time)
    ensures s in f.sandboxes ==> GrantLease(f, x, s, lease).retirements == f.retirements
    ensures Extended(f, x, until).retirements == f.retirements
    ensures CanRelease(f, x) ==> Drop(f, x).retirements == f.retirements
    ensures Quarantine(f, s).retirements == f.retirements
  {
  }

  lemma ProvisionedRows(f: Fleet, p: ProvisionRequest, conflict: Option<CredentialId>, maximum: nat, allowed: bool,
                        now: Time, ttl: nat)
    ensures ProvisionedFleet(f, p, conflict, maximum, allowed, now, ttl).retirements == f.retirements
  {
    hide ConflictAnswer, SameProvision;
  }

  lemma BeatRows(f: Fleet, c: ConnectionId, a: Authority, instance: InstanceId, now: Time, timeout: nat)
    ensures Heartbeat(f, c, a, instance, now, timeout).retirements == f.retirements
  {
  }

  predicate IsWorkerStep(step: Step) {
    || step.TakeClaim? || step.StopOwner? || step.RenewClaim? || step.RetireSandbox? || step.CompleteClaim? || step.FailClaim?
  }

  lemma WorkerEvolves(w: World, step: Step, s: SandboxId)
    requires Good(w) && IsWorkerStep(step)
    ensures Evolves(w.store.fleet, Do(w, step).store.fleet, s, ClaimsTaken(w, step, s))
  {
    hide Good, Ready, ClaimDue, Stop, Renewal, Retire, Completion, Failure, Evolves, C.Claimable;
    match step {
      case TakeClaim(b, id, owner, now, duration) => TakeEvolves(w, b, id, owner, now, duration, s);
      case StopOwner(id) => WorkerStepEvolves(w, id, s, false, 0, 0);
      case RenewClaim(id, now, duration) => WorkerStepEvolves(w, id, s, false, now, duration);
      case RetireSandbox(id, assignments, now) =>
        RetireRows(w, id, assignments, now);
        SameRowsEvolve(w.store.fleet, Retire(w, id, assignments, now).store.fleet, s);
      case CompleteClaim(id) => WorkerStepEvolves(w, id, s, false, 0, 0);
      case FailClaim(id, retryable, now, delay) => WorkerStepEvolves(w, id, s, retryable, now, delay);
    }
  }

  lemma TableEvolves(w: World, step: Step, s: SandboxId)
    requires Good(w) && !IsWorkerStep(step)
    ensures Evolves(w.store.fleet, Do(w, step).store.fleet, s, 0)
  {
    hide Good, Ready, ProvisionedFleet, Register, Heartbeat, Expire, L.Do, CanGrant, GrantLease, Extended, CanRelease;
    hide Drop, Quarantine, Reconciled, Evolves, NewlyQuarantined, Safe, WorkersOk, Enrolled, OnePerSandbox,
      RequestsUnique;
    var f := w.store.fleet;
    SameRowsEvolve(f, f, s);
    match step {
      case Provision(p, conflict, maximum, allowed, now, ttl) =>
        ProvisionedRows(f, p, conflict, maximum, allowed, now, ttl);
      case RegisterBoot(r, now) =>
        if Ready(w) && r.connection !in f.connections {
          ReadyIs(w);
          RegisterEvolves(f, r, now, s);
        }
      case Beat(c, a, instance, now, timeout) => BeatRows(f, c, a, instance, now, timeout);
      case ExpireConnection(c, now) => ExpireEvolves(f, c, now, s);
      case Grant(x, c, b, lease) => GrantRows(w, x, c, b, lease);
      case RenewLease(x, until) => LeaseRows(f, x, s, Lease(0, 0, 0, 0), until);
      case ReleaseLease(x) => LeaseRows(f, x, s, Lease(0, 0, 0, 0), 0);
      case ReconcileExpired(b, targets, now) => ReconciledRows(w, b, targets, now);
      case QuarantineSandbox(b) => LeaseRows(f, 0, b, Lease(0, 0, 0, 0), 0);
      case _ =>
    }
    if Do(w, step).store.fleet.retirements == f.retirements {
      SameRowsEvolve(f, Do(w, step).store.fleet, s);
    }
  }

  lemma GrantRows(w: World, x: SessionId, c: ConnectionId, b: SandboxId, lease: Lease)
    ensures CanGrant(w.store, x, c, b, lease) ==>
              b in w.store.fleet.sandboxes && GrantLease(w.store.fleet, x, b, lease).retirements == w.store.fleet.retirements
  {
    hide ActiveOn;
  }

  lemma DoEvolves(w: World, step: Step, s: SandboxId)
    requires Good(w)
    ensures Evolves(w.store.fleet, Do(w, step).store.fleet, s, ClaimsTaken(w, step, s))
  {
    hide Good, Do, Evolves;
    if IsWorkerStep(step) {
      WorkerEvolves(w, step, s);
    } else {
      TableEvolves(w, step, s);
    }
  }

  lemma RegisterEvolves(f: Fleet, r: Registration, now: Time, s: SandboxId)
    requires OnePerSandbox(f.connections) && RequestsUnique(f.connections)
    ensures Evolves(f, Register(f, r, now), s, 0)
  {
    RegisterGrows(f, r, now);
    hide Register, Grows, OnePerSandbox, RequestsUnique, Evolves;
    GrowsEvolves(f, Register(f, r, now), s);
  }

  lemma ExpireEvolves(f: Fleet, c: ConnectionId, now: Time, s: SandboxId)
    ensures Evolves(f, Expire(f, c, now), s, 0)
  {
    ExpireGrows(f, c, now);
    hide Expire, Grows, Evolves;
    GrowsEvolves(f, Expire(f, c, now), s);
  }

  lemma EvolvesOn(f: Fleet, g: Fleet, h: Fleet, s: SandboxId, m: nat, n: nat)
    requires Evolves(f, g, s, m) && Evolves(g, h, s, n)
    ensures Evolves(f, h, s, m + n)
  {
  }

  lemma RunStep(steps: seq<Step>)
    requires steps != []
    ensures After(steps) == Do(After(steps[..|steps| - 1]), steps[|steps| - 1])
  {
    hide Good, Ready, Do;
  }

  /** How often the claim on `s` was taken after the first `n` steps. */
  ghost function ClaimsSince(steps: seq<Step>, n: nat, s: SandboxId): nat
    requires n <= |steps|
  {
    if n == |steps| then 0
    else
      var m := |steps| - 1;
      ClaimsSince(steps[..m], n, s) + ClaimsTaken(After(steps[..m]), steps[m], s)
  }

  /** Over any continuation of a run a retirement row stays, counts the claims taken, and keeps its verdict. */
  lemma {:induction false} RetirementEvolves(steps: seq<Step>, n: nat, s: SandboxId)
    requires n <= |steps|
    ensures Evolves(After(steps[..n]).store.fleet, After(steps).store.fleet, s, ClaimsSince(steps, n, s))
  {
    hide Do, Good, Ready, ClaimsTaken, Evolves, After;
    if n == |steps| {
      assert steps[..n] == steps;
      SameRowsEvolve(After(steps).store.fleet, After(steps).store.fleet, s);
    } else {
      var before := steps[..|steps| - 1];
      assert before[..n] == steps[..n];
      RetirementEvolves(before, n, s);
      RunGood(before);
      DoEvolves(After(before), steps[|steps| - 1], s);
      RunStep(steps);
      EvolvesOn(After(steps[..n]).store.fleet, After(before).store.fleet, After(steps).store.fleet, s,
                ClaimsSince(before, n, s), ClaimsTaken(After(before), steps[|steps| - 1], s));
    }
  }

  lemma ClosedUnauthorized(f: Fleet, s: SandboxId, c: ConnectionId, a: Authority, instance: InstanceId,
                           x: SessionId, lease: nat, token: nat, now: Time)
    requires RetiredClosed(f.connections, f.retirements) && s in f.retirements && a.sandbox == s
    ensures !ActiveOn(f.connections, c, s)
    ensures !EventAuthorized(f, c, a, instance, x, lease, token, now)
  {
    assert IsCurrent(f.connections, c, a, instance, now) ==> ActiveOn(f.connections, c, s);
  }

  /**
   Once a sandbox is fenced, no later step of any run gives it an active connection or accepts
   an event for one of its sessions.
   */
  lemma FencedForever(steps: seq<Step>, n: nat, s: SandboxId, c: ConnectionId, a: Authority, instance: InstanceId,
                      x: SessionId, lease: nat, token: nat, now: Time)
    requires n <= |steps| && s in After(steps[..n]).store.fleet.retirements && a.sandbox == s
    ensures s in After(steps).store.fleet.retirements
    ensures !ActiveOn(After(steps).store.fleet.connections, c, s)
    ensures !EventAuthorized(After(steps).store.fleet, c, a, instance, x, lease, token, now)
  {
    hide Good, Ready, After, Linked, OneActive, Serving, RetiredClosed, ClaimShape, EventAuthorized, ActiveOn;
    RetirementEvolves(steps, n, s);
    RunGood(steps);
    ConnectionParts(After(steps));
    ClosedUnauthorized(After(steps).store.fleet, s, c, a, instance, x, lease, token, now);
  }

  // ------------------------------------------------------------------ retirement is ordered, complete and fenced

  /**
   In every reachable state a completed retirement means that the stop of exactly that boot was
   confirmed, and that its sandbox is terminated without a lease.
   */
  lemma RetirementOrdered(steps: seq<Step>, s: SandboxId)
    requires var rt := After(steps).store.fleet.retirements; s in rt && rt[s].state.Completed?
    ensures var w := After(steps);
            var f := w.store.fleet;
            && s in f.sandboxes && f.sandboxes[s].state.Terminated?
            && LeasesOn(f.leases, s) == {} && f.sandboxes[s].activeSessions == 0
            && Identity(f.sandboxes[s].supervisor, f.sandboxes[s].boot, s) in w.stopped
  {
    hide Good, Ready, After, Load, LeasesOn;
    RunGood(steps);
    var w := After(steps);
    LoadParts(w);
    CompletionParts(w);
    RetirementIdentity(w);
    hide LeaseLinked, LeasedAlive, LivesConsistent;
    LoadEmpty(w.store.fleet, s);
    TerminatedIdle(w.store.fleet, s);
  }

  lemma TerminatedIdle(f: Fleet, s: SandboxId)
    requires Load(f.sandboxes, f.leases) && s in f.sandboxes && f.sandboxes[s].state.Terminated?
    ensures f.sandboxes[s].activeSessions == 0
  {
    hide LeasesOn;
  }

  lemma CompletionParts(w: World)
    requires Good(w)
    ensures CompletionEarned(w.store.fleet, w.stopped)
    ensures ClaimsLatest(w.workers, w.store.fleet.retirements)
    ensures AttemptsCounted(w.workers, w.store.fleet.retirements)
    ensures WorkersLinked(w.workers, w.store.fleet.retirements)
  {
    hide Safe, LivesConsistent, LeasedAlive, StopsConfirmed, RetiredTerminated, CompletionEarned, ClaimsLatest,
      AttemptsCounted, WorkersLinked;
  }

  /**
   In every reachable state the claim columns of a row are filled exactly while it is claimed, and
   its attempts are the claims ever taken on it.
   */
  lemma ClaimColumns(steps: seq<Step>, s: SandboxId)
    requires s in After(steps).store.fleet.retirements
    ensures var r := After(steps).store.fleet.retirements[s];
            && (r.claim.Some? <==> r.state.Claimed?)
            && r.attempts == |WorkersOf(After(steps).workers, s)|
  {
    hide Good, Ready, After, WorkersOf;
    RunGood(steps);
    ConnectionParts(After(steps));
    CompletionParts(After(steps));
    hide Linked, OneActive, Serving, RetiredClosed, CompletionEarned, ClaimsLatest, WorkersLinked;
  }

  lemma RetakenHolds(w: World, id: ClaimId)
    requires ClaimsLatest(w.workers, w.store.fleet.retirements) && id in w.workers
    requires w.workers[id].sandbox in w.store.fleet.retirements
    requires w.workers[id].attempt < w.store.fleet.retirements[w.workers[id].sandbox].attempts
    ensures var r := w.store.fleet.retirements[w.workers[id].sandbox];
            r.claim.Some? ==> r.claim.value.id != id
  {
  }

  lemma PowerlessSteps(w: World, id: ClaimId, retryable: bool, now: Time, span: nat)
    requires id in w.workers
    requires var r := w.store.fleet.retirements;
             w.workers[id].sandbox in r && r[w.workers[id].sandbox].claim.Some? ==> r[w.workers[id].sandbox].claim.value.id != id
    ensures Renewal(w, id, now, span).store == w.store
    ensures Completion(w, id).store == w.store
    ensures Failure(w, id, retryable, now, span).store == w.store
  {
    var k := w.workers[id];
    C.LostClaim(w.store.fleet, k.sandbox, k.supervisor, k.boot, id, k.owner, retryable, now, span);
    hide C.Renew, C.Complete, C.Release;
  }

  /** A worker whose claim was taken again by another can no longer renew, complete or release the row. */
  lemma RetakenIsPowerless(steps: seq<Step>, id: ClaimId, retryable: bool, now: Time, span: nat)
    requires var w := After(steps);
             id in w.workers && w.workers[id].sandbox in w.store.fleet.retirements &&
             w.workers[id].attempt < w.store.fleet.retirements[w.workers[id].sandbox].attempts
    ensures var w := After(steps);
            && Do(w, RenewClaim(id, now, span)).store == w.store
            && Do(w, CompleteClaim(id)).store == w.store
            && Do(w, FailClaim(id, retryable, now, span)).store == w.store
  {
    hide Good, Ready, After, Renewal, Completion, Failure, ClaimsLatest, CompletionEarned, AttemptsCounted,
      WorkersLinked;
    RunGood(steps);
    var w := After(steps);
    CompletionParts(w);
    RetakenHolds(w, id);
    PowerlessSteps(w, id, retryable, now, span);
  }

  /** Once completed or blocked, a retirement row is the same row in every continuation of the run. */
  lemma VerdictIsFinal(steps: seq<Step>, n: nat, s: SandboxId)
    requires n <= |steps|
    requires var rt := After(steps[..n]).store.fleet.retirements; s in rt && Settled(rt[s])
    ensures var rt' := After(steps).store.fleet.retirements;
            s in rt' && rt'[s] == After(steps[..n]).store.fleet.retirements[s]
  {
    hide Good, Ready, After, Settled, ClaimsSince;
    RetirementEvolves(steps, n, s);
  }

  /** A retirement attempt that fails leaves every lease and every session as it was. */
  lemma FailedRetirementKeepsLeases(steps: seq<Step>, id: ClaimId, assignments: seq<Assignment>, now: Time)
    requires var w := After(steps);
             At(w, id, Renewed) && CommitRetirement(w.store, w.workers[id].sandbox, assignments, now).Err?
    ensures var w := After(steps);
            var w' := Do(w, RetireSandbox(id, assignments, now));
            w'.store.fleet.leases == w.store.fleet.leases && w'.store.lives == w.store.lives && At(w', id, Failing)
  {
    RunGood(steps);
    var w := After(steps);
    hide Good, Ready, After, CommitRetirement, BeginRetirement, NewlyQuarantined;
    BeginIsNothing(w, id);
    assert w.store.(fleet := w.store.fleet) == w.store;
    QuarantineKeeps(w.store.fleet, w.workers[id].sandbox);
    hide Quarantine, Grows;
  }

  lemma CommitDealsWithAll(st: Store, s: SandboxId, assignments: seq<Assignment>, now: Time, i: nat)
    requires CommitRetirement(st, s, assignments, now).Ok? && i < |assignments|
    ensures var f' := CommitRetirement(st, s, assignments, now).value.0.fleet;
            !SameLease(f', s, assignments[i]) && LeasesOn(f'.leases, s) == {}
  {
    hide FinalizeAll, LeasesOn, SameLease, Terminate;
    FinalizeAllExhausts(st, s, assignments, now, false, i);
    var mid := FinalizeAll(st, s, assignments, now, false).value.0.fleet;
    TerminateRow(mid, s);
    SameLeases(mid, CommitRetirement(st, s, assignments, now).value.0.fleet, s, assignments[i]);
  }

  /** One that succeeds has dealt with every lease it observed and leaves the sandbox none. */
  lemma RetirementDealsWithAll(steps: seq<Step>, id: ClaimId, assignments: seq<Assignment>, now: Time, i: nat)
    requires var w := After(steps);
             At(w, id, Renewed) && CommitRetirement(w.store, w.workers[id].sandbox, assignments, now).Ok? && i < |assignments|
    ensures var w := After(steps);
            var s := w.workers[id].sandbox;
            var f' := Do(w, RetireSandbox(id, assignments, now)).store.fleet;
            !SameLease(f', s, assignments[i]) && LeasesOn(f'.leases, s) == {}
  {
    hide Good, Ready, After, BeginRetirement, CommitRetirement, LeasesOn, SameLease;
    RunGood(steps);
    var w := After(steps);
    BeginIsNothing(w, id);
    assert w.store.(fleet := w.store.fleet) == w.store;
    CommitDealsWithAll(w.store, w.workers[id].sandbox, assignments, now, i);
  }

  lemma SameLeases(f: Fleet, f': Fleet, s: SandboxId, a: Assignment)
    requires f'.leases == f.leases
    ensures SameLease(f', s, a) <==> SameLease(f, s, a)
    ensures LeasesOn(f'.leases, s) == LeasesOn(f.leases, s)
  {
  }
}
