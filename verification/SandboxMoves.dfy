/** Over every run sandboxes move along their transition table. */
module SandboxMoves {
  import opened Common
  import opened SupervisorFleet
  import opened FleetSafety
  import opened Reconciliation
  import opened SupervisorRuns
  import opened SupervisorInvariant
  import opened RetirementInvariant
  import opened SupervisorSafety
  import C = RetirementClaims
  import L = LifecycleRuns
  import SM = StateMachines

  // ------------------------------------------------------------------ sandboxes move along their table

  /** No sandbox row disappears, and its state changes only as the transition table allows. */
  ghost predicate SandboxesMove(before: Sandboxes, after: Sandboxes) {
    forall s :: s in before ==>
      && s in after && after[s].state in SM.SandboxNext(before[s].state) + {before[s].state}
      && after[s].supervisor == before[s].supervisor && after[s].boot == before[s].boot
  }

  lemma SandboxesStay(before: Sandboxes)
    ensures SandboxesMove(before, before)
  {
  }

  lemma FailMoves(before: Sandboxes, fenced: set<SandboxId>)
    ensures SandboxesMove(before, FailAll(before, fenced))
  {
  }

  lemma OpenMoves(f: Fleet, r: Registration, superseding: Option<ConnectionId>, now: Time)
    requires CanOpen(f, r, superseding)
    ensures SandboxesMove(f.sandboxes, OpenConnection(f, r, superseding, now).sandboxes)
  {
    FailMoves(f.sandboxes, Replaced(f, r.authority));
    assert r.authority.sandbox !in Replaced(f, r.authority);
    assert SM.SandboxState.Ready in SM.SandboxNext(SM.SandboxState.Provisioning);
    hide HasHistory, MessageUsed, TransportUsed, ActiveOn, Replaced, SM.SandboxNext, CloseAll, RetireAll;
  }

  lemma RegisterMoves(f: Fleet, r: Registration, now: Time)
    requires OnePerSandbox(f.connections) && RequestsUnique(f.connections)
    ensures SandboxesMove(f.sandboxes, Register(f, r, now).sandboxes)
  {
    hide Decide, OpenConnection, OnePerSandbox, RequestsUnique, SandboxesMove, CanOpen, FailAll;
    SandboxesStay(f.sandboxes);
    FailMoves(f.sandboxes, {r.authority.sandbox});
    DecideOpens(f, r, now);
    match Decide(f, r, now)
    case Open(superseding) => OpenMoves(f, r, superseding, now);
    case _ =>
  }

  lemma ExpireMoves(f: Fleet, c: ConnectionId, now: Time)
    ensures SandboxesMove(f.sandboxes, Expire(f, c, now).sandboxes)
  {
    SandboxesStay(f.sandboxes);
    if IsExpired(f.connections, c, now) {
      FailMoves(f.sandboxes, {f.connections[c].sandbox});
    }
    hide SandboxesMove, FailAll;
  }

  lemma ProvisionMoves(f: Fleet, p: ProvisionRequest, conflict: Option<CredentialId>, maximum: nat, allowed: bool,
                       now: Time, ttl: nat)
    requires Enrolled(f.sandboxes, f.credentials)
    ensures SandboxesMove(f.sandboxes, ProvisionedFleet(f, p, conflict, maximum, allowed, now, ttl).sandboxes)
  {
    if ConflictAnswer(f, p, conflict) && conflict.None? {
      FreshIdentity(f, p);
    }
    hide ConflictAnswer, Enrolled, SameProvision, SM.SandboxNext, RevokeAll;
  }

  lemma RowMoves(before: Sandboxes, after: Sandboxes, s: SandboxId)
    requires s in before && s in after && after == before[s := after[s]]
    requires after[s].state in SM.SandboxNext(before[s].state) + {before[s].state}
    requires after[s].supervisor == before[s].supervisor && after[s].boot == before[s].boot
    ensures SandboxesMove(before, after)
  {
    hide SM.SandboxNext;
  }

  lemma LeaseMoves(f: Fleet, x: SessionId, s: SandboxId, lease: Lease)
    ensures s in f.sandboxes && (f.sandboxes[s].state.Ready? || f.sandboxes[s].state.Leased?) ==>
              SandboxesMove(f.sandboxes, GrantLease(f, x, s, lease).sandboxes)
    ensures CanRelease(f, x) ==> SandboxesMove(f.sandboxes, Drop(f, x).sandboxes)
    ensures SandboxesMove(f.sandboxes, Quarantine(f, s).sandboxes)
  {
    SandboxesStay(f.sandboxes);
    hide SandboxesMove;
    if s in f.sandboxes {
      if f.sandboxes[s].state.Ready? || f.sandboxes[s].state.Leased? {
        RowMoves(f.sandboxes, GrantLease(f, x, s, lease).sandboxes, s);
      }
      if Quarantine(f, s) != f {
        RowMoves(f.sandboxes, Quarantine(f, s).sandboxes, s);
      }
    }
    if CanRelease(f, x) {
      RowMoves(f.sandboxes, Drop(f, x).sandboxes, f.leases[x].sandbox);
    }
  }

  lemma SynchronizeMoves(st: Store, s: SandboxId, targets: seq<Assignment>, now: Time)
    requires CommitExpired(st, s, targets, now).Ok?
    ensures SandboxesMove(st.fleet.sandboxes, CommitExpired(st, s, targets, now).value.0.fleet.sandboxes)
  {
    FinalizeAllChanges(st, s, targets, now, true);
    hide FinalizeAll, LivesFinalized, Targeted, SandboxesMove, LeasesOn;
    RowMoves(st.fleet.sandboxes, CommitExpired(st, s, targets, now).value.0.fleet.sandboxes, s);
  }

  lemma ReconciledMoves(w: World, s: SandboxId, targets: seq<Assignment>, now: Time)
    ensures SandboxesMove(w.store.fleet.sandboxes, Reconciled(w, s, targets, now).store.fleet.sandboxes)
  {
    hide CommitExpired, SandboxesMove, Quarantine, NewlyQuarantined;
    if CommitExpired(w.store, s, targets, now).Ok? {
      SynchronizeMoves(w.store, s, targets, now);
    }
    LeaseMoves(w.store.fleet, 0, s, Lease(0, 0, 0, 0));
  }

  lemma TerminateMoves(st: Store, s: SandboxId, assignments: seq<Assignment>, now: Time)
    requires CommitRetirement(st, s, assignments, now).Ok?
    ensures SandboxesMove(st.fleet.sandboxes, CommitRetirement(st, s, assignments, now).value.0.fleet.sandboxes)
  {
    FinalizeAllChanges(st, s, assignments, now, false);
    hide FinalizeAll, LivesFinalized, Targeted, SandboxesMove, LeasesOn;
    RowMoves(st.fleet.sandboxes, CommitRetirement(st, s, assignments, now).value.0.fleet.sandboxes, s);
  }

  lemma RetireMoves(w: World, id: ClaimId, assignments: seq<Assignment>, now: Time)
    requires Good(w)
    ensures SandboxesMove(w.store.fleet.sandboxes, Retire(w, id, assignments, now).store.fleet.sandboxes)
  {
    SandboxesStay(w.store.fleet.sandboxes);
    hide Good, CommitRetirement, BeginRetirement, SandboxesMove, Quarantine, NewlyQuarantined;
    if At(w, id, Renewed) {
      var s := w.workers[id].sandbox;
      BeginIsNothing(w, id);
      assert w.store.(fleet := w.store.fleet) == w.store;
      if CommitRetirement(w.store, s, assignments, now).Ok? {
        TerminateMoves(w.store, s, assignments, now);
      }
      LeaseMoves(w.store.fleet, 0, s, Lease(0, 0, 0, 0));
    }
  }

  lemma WorkerStepSandboxes(w: World, id: ClaimId, retryable: bool, now: Time, span: nat)
    ensures Renewal(w, id, now, span).store.fleet.sandboxes == w.store.fleet.sandboxes
    ensures Completion(w, id).store.fleet.sandboxes == w.store.fleet.sandboxes
    ensures Failure(w, id, retryable, now, span).store.fleet.sandboxes == w.store.fleet.sandboxes
    ensures Stop(w, id).store.fleet.sandboxes == w.store.fleet.sandboxes
  {
    hide C.Renew, C.Complete, C.Release;
  }

  lemma ClaimSandboxes(w: World, s: SandboxId, id: ClaimId, owner: InstanceId, now: Time, duration: nat)
    ensures ClaimDue(w, s, id, owner, now, duration).store.fleet.sandboxes == w.store.fleet.sandboxes
  {
    hide C.Take, C.Claimable;
  }

  lemma UntouchedSandboxes(f: Fleet, x: SessionId, until: Time, c: ConnectionId, a: Authority, instance: InstanceId,
                           now: Time, timeout: nat)
    ensures Extended(f, x, until).sandboxes == f.sandboxes
    ensures Heartbeat(f, c, a, instance, now, timeout).sandboxes == f.sandboxes
  {
  }

  lemma WorkerMoves(w: World, step: Step)
    requires Good(w) && IsWorkerStep(step)
    ensures SandboxesMove(w.store.fleet.sandboxes, Do(w, step).store.fleet.sandboxes)
  {
    hide Good, Ready, ClaimDue, Renewal, Completion, Failure, Stop, Retire, SandboxesMove;
    SandboxesStay(w.store.fleet.sandboxes);
    match step {
      case TakeClaim(s, id, owner, now, duration) => ClaimSandboxes(w, s, id, owner, now, duration);
      case RetireSandbox(id, assignments, now) => RetireMoves(w, id, assignments, now);
      case StopOwner(id) => WorkerStepSandboxes(w, id, false, 0, 0);
      case RenewClaim(id, now, duration) => WorkerStepSandboxes(w, id, false, now, duration);
      case CompleteClaim(id) => WorkerStepSandboxes(w, id, false, 0, 0);
      case FailClaim(id, retryable, now, delay) => WorkerStepSandboxes(w, id, retryable, now, delay);
    }
  }

  lemma TableMoves(w: World, step: Step)
    requires Good(w) && !IsWorkerStep(step)
    ensures SandboxesMove(w.store.fleet.sandboxes, Do(w, step).store.fleet.sandboxes)
  {
    hide Good, Ready, ProvisionedFleet, Register, Heartbeat, Expire, L.Do, GrantLease, Extended, CanRelease, Drop;
    hide Quarantine, Reconciled, SandboxesMove, NewlyQuarantined, Enrolled, OnePerSandbox, RequestsUnique, ActiveOn;
    hide Safe, WorkersOk;
    GoodParts(w);
    ReadyIs(w);
    var f := w.store.fleet;
    SandboxesStay(f.sandboxes);
    match step {
      case Provision(p, conflict, maximum, allowed, now, ttl) =>
        ProvisionMoves(f, p, conflict, maximum, allowed, now, ttl);
      case RegisterBoot(r, now) => RegisterMoves(f, r, now);
      case Beat(c, a, instance, now, timeout) => UntouchedSandboxes(f, 0, 0, c, a, instance, now, timeout);
      case ExpireConnection(c, now) => ExpireMoves(f, c, now);
      case Grant(x, c, s, lease) => LeaseMoves(f, x, s, lease);
      case RenewLease(x, until) => UntouchedSandboxes(f, x, until, 0, Authority(0, 0, 0, 0), 0, 0, 0);
      case ReleaseLease(x) => LeaseMoves(f, x, 0, Lease(0, 0, 0, 0));
      case ReconcileExpired(s, targets, now) => ReconciledMoves(w, s, targets, now);
      case QuarantineSandbox(s) => LeaseMoves(f, 0, s, Lease(0, 0, 0, 0));
      case _ =>
    }
  }

  /** In every run each step changes sandbox states only as the domain's table allows, and never an identity. */
  lemma SandboxesMoveLegally(steps: seq<Step>, step: Step)
    ensures SandboxesMove(After(steps).store.fleet.sandboxes, Do(After(steps), step).store.fleet.sandboxes)
  {
    hide Good, Ready, After, Do, SandboxesMove;
    RunGood(steps);
    if IsWorkerStep(step) {
      WorkerMoves(After(steps), step);
    } else {
      TableMoves(After(steps), step);
    }
  }
}
