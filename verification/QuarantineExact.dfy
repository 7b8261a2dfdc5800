/** When exactly an active connection's sandbox is out of service: in one state, and over whole runs. */
module QuarantineExact {
  import opened Common
  import opened SupervisorFleet
  import opened FleetSafety
  import opened Reconciliation
  import opened SupervisorRuns
  import opened SupervisorInvariant
  import opened RetirementInvariant
  import opened SupervisorSafety
  import C = RetirementClaims
  import A = Assignments
  import L = LifecycleRuns

  /** Connection `c` is active on sandbox `s`, and the sandbox is ready or leased. */
  predicate ServedBy(f: Fleet, c: ConnectionId, s: SandboxId) {
    ActiveOn(f.connections, c, s) && s in f.sandboxes && (f.sandboxes[s].state.Ready? || f.sandboxes[s].state.Leased?)
  }

  // ------------------------------------------------------------------ one quarantine

  lemma QuarantineBreaks(f: Fleet, quarantined: set<SandboxId>, s: SandboxId, c: ConnectionId, t: SandboxId)
    requires Serving(f.sandboxes, f.connections, quarantined)
    ensures var f' := Quarantine(f, s);
            && (ActiveOn(f'.connections, c, t) <==> ActiveOn(f.connections, c, t))
            && (ServedBy(f, c, t) && !ServedBy(f', c, t) <==>
                  t == s && ActiveOn(f.connections, c, s) && s in f.sandboxes &&
                  !f.sandboxes[s].state.Failed? && !f.sandboxes[s].state.Terminated?)
            && (ServedBy(f', c, t) ==> ServedBy(f, c, t))
  {
    hide ActiveOn;
  }

  /**
   In every reachable state: quarantining `s` takes the sandbox of connection `c` out of service if
   and only if `c` is active on `s` and `s` has neither failed nor terminated yet; it never closes a
   connection and never puts a sandbox into service.
   */
  lemma QuarantineBreaksIff(steps: seq<Step>, s: SandboxId, c: ConnectionId, t: SandboxId)
    ensures var f := After(steps).store.fleet;
            var f' := Do(After(steps), QuarantineSandbox(s)).store.fleet;
            && (ActiveOn(f'.connections, c, t) <==> ActiveOn(f.connections, c, t))
            && (ServedBy(f, c, t) && !ServedBy(f', c, t) <==>
                  t == s && ActiveOn(f.connections, c, s) && s in f.sandboxes &&
                  !f.sandboxes[s].state.Failed? && !f.sandboxes[s].state.Terminated?)
            && (ServedBy(f', c, t) ==> ServedBy(f, c, t))
  {
    hide Good, Ready, After, ActiveOn, ServedBy, Quarantine, NewlyQuarantined;
    RunGood(steps);
    ConnectionParts(After(steps));
    hide Linked, OneActive, Serving, RetiredClosed, ClaimShape;
    QuarantineBreaks(After(steps).store.fleet, After(steps).quarantined, s, c, t);
  }

  // ------------------------------------------------------------------ who else could quarantine

  /** Reconciling the expired leases of a sandbox that exists always commits. */
  lemma {:induction false} FinalizeAllCommits(st: Store, s: SandboxId, targets: seq<Assignment>, now: Time,
                                              requireExpired: bool)
    requires LivesConsistent(st.lives) && LeasedAlive(st.fleet.leases, st.lives)
    ensures FinalizeAll(st, s, targets, now, requireExpired).Ok?
    ensures var st' := FinalizeAll(st, s, targets, now, requireExpired).value.0;
            LivesConsistent(st'.lives) && LeasedAlive(st'.fleet.leases, st'.lives) && st'.fleet.sandboxes == st.fleet.sandboxes
  {
    hide FinalizeLease, A.Consistent, LivesConsistent, LeasedAlive;
    if targets != [] {
      var n := |targets| - 1;
      FinalizeAllCommits(st, s, targets[..n], now, requireExpired);
      FinalizeLeaseCommits(FinalizeAll(st, s, targets[..n], now, requireExpired).value.0, s, targets[n], now,
                           requireExpired);
    }
  }

  lemma FinalizeLeaseCommits(st: Store, s: SandboxId, a: Assignment, now: Time, requireExpired: bool)
    requires LivesConsistent(st.lives) && LeasedAlive(st.fleet.leases, st.lives)
    ensures FinalizeLease(st, s, a, now, requireExpired).Ok?
    ensures var st' := FinalizeLease(st, s, a, now, requireExpired).value.0;
            LivesConsistent(st'.lives) && LeasedAlive(st'.fleet.leases, st'.lives) && st'.fleet.sandboxes == st.fleet.sandboxes
  {
    hide A.Consistent, A.Finalize;
    if Finalizable(st.fleet, s, a, now, requireExpired) {
      assert a.session in st.lives;
      L.ReconcileConsistent(st.lives[a.session], now);
    }
    hide Finalizable;
  }

  lemma ReconcilingQuarantinesNothing(w: World, s: SandboxId, targets: seq<Assignment>, now: Time)
    requires Good(w)
    ensures Reconciled(w, s, targets, now).quarantined == w.quarantined
  {
    hide Good, FinalizeAll, SynchronizeCapacity, LivesConsistent, LeasedAlive, Load, LeaseLinked;
    LoadParts(w);
    FinalizeAllCommits(w.store, s, targets, now, true);
    if CommitExpired(w.store, s, targets, now).Err? {
      assert Quarantine(w.store.fleet, s) == w.store.fleet;
    }
  }

  lemma RetiringQuarantinesNothing(w: World, id: ClaimId, assignments: seq<Assignment>, now: Time)
    requires Good(w)
    ensures Retire(w, id, assignments, now).quarantined == w.quarantined
  {
    if At(w, id, Renewed) {
      BeginIsNothing(w, id);
      WorkerFacts(w, id);
      RetirementIdentity(w);
      hide Good, CommitRetirement, BeginRetirement;
      assert Quarantine(w.store.fleet, w.workers[id].sandbox) == w.store.fleet;
    }
    hide Good, CommitRetirement, BeginRetirement;
  }

  lemma WorkersQuarantineNothing(w: World, id: ClaimId, s: SandboxId, owner: InstanceId, retryable: bool, now: Time,
                                 span: nat)
    ensures Renewal(w, id, now, span).quarantined == w.quarantined
    ensures Completion(w, id).quarantined == w.quarantined
    ensures Failure(w, id, retryable, now, span).quarantined == w.quarantined
    ensures Stop(w, id).quarantined == w.quarantined
    ensures ClaimDue(w, s, id, owner, now, span).quarantined == w.quarantined
  {
    hide C.Renew, C.Complete, C.Release, C.Take, C.Claimable;
  }

  /** In a run only a quarantine of `s` itself adds `s` to the quarantined sandboxes. */
  lemma OnlyQuarantines(w: World, step: Step, s: SandboxId)
    requires Good(w) && step != QuarantineSandbox(s)
    ensures s in Do(w, step).quarantined <==> s in w.quarantined
  {
    hide Good, Ready, ProvisionedFleet, Register, Heartbeat, Expire, L.Do, CanGrant, GrantLease, Extended,
      CanRelease, Drop, Quarantine;
    hide Reconciled, ClaimDue, Stop, Renewal, Retire, Completion, Failure;
    match step {
      case ReconcileExpired(b, targets, now) => ReconcilingQuarantinesNothing(w, b, targets, now);
      case RetireSandbox(id, assignments, now) => RetiringQuarantinesNothing(w, id, assignments, now);
      case TakeClaim(b, id, owner, now, duration) => WorkersQuarantineNothing(w, id, b, owner, false, now, duration);
      case StopOwner(id) => WorkersQuarantineNothing(w, id, 0, 0, false, 0, 0);
      case RenewClaim(id, now, duration) => WorkersQuarantineNothing(w, id, 0, 0, false, now, duration);
      case CompleteClaim(id) => WorkersQuarantineNothing(w, id, 0, 0, false, 0, 0);
      case FailClaim(id, retryable, now, delay) => WorkersQuarantineNothing(w, id, 0, 0, retryable, now, delay);
      case _ =>
    }
  }

  // ------------------------------------------------------------------ where active connections come from

  /** Connections stay in the table, and one becomes active only by being opened, on a sandbox in service. */
  ghost predicate OpensOnlyServed(f: Fleet, f': Fleet, c: ConnectionId, s: SandboxId) {
    && (c in f.connections ==> c in f'.connections)
    && (ActiveOn(f'.connections, c, s) && !ActiveOn(f.connections, c, s) ==>
          c !in f.connections && s in f.sandboxes && !f.sandboxes[s].state.Failed? && !f.sandboxes[s].state.Terminated?)
  }

  lemma SameConnections(f: Fleet, f': Fleet, c: ConnectionId, s: SandboxId)
    requires f'.connections == f.connections
    ensures OpensOnlyServed(f, f', c, s)
  {
    hide ActiveOn;
  }

  lemma FenceOpensNothing(f: Fleet, fenced: set<SandboxId>, reason: Reason, now: Time, c: ConnectionId, s: SandboxId)
    ensures OpensOnlyServed(f, FenceAll(f, fenced, reason, now), c, s)
  {
    hide FailAll, RetireAll;
  }

  lemma OpenOpensServed(f: Fleet, r: Registration, superseding: Option<ConnectionId>, now: Time, c: ConnectionId,
                        s: SandboxId)
    requires CanOpen(f, r, superseding) && r.connection !in f.connections
    ensures OpensOnlyServed(f, OpenConnection(f, r, superseding, now), c, s)
  {
    hide FailAll, RetireAll, Replaced, HasHistory, MessageUsed, TransportUsed;
  }

  lemma RegisterOpensServed(f: Fleet, r: Registration, now: Time, c: ConnectionId, s: SandboxId)
    requires OnePerSandbox(f.connections) && RequestsUnique(f.connections) && r.connection !in f.connections
    ensures OpensOnlyServed(f, Register(f, r, now), c, s)
  {
    hide Decide, OnePerSandbox, RequestsUnique, OpenConnection, FenceAll, CanOpen, OpensOnlyServed;
    DecideOpens(f, r, now);
    SameConnections(f, f, c, s);
    match Decide(f, r, now)
    case Open(superseding) => OpenOpensServed(f, r, superseding, now, c, s);
    case Expired => FenceOpensNothing(f, {r.authority.sandbox}, HeartbeatTimeout, now, c, s);
    case _ =>
  }

  lemma ExpireOpensNothing(f: Fleet, d: ConnectionId, now: Time, c: ConnectionId, s: SandboxId)
    ensures OpensOnlyServed(f, Expire(f, d, now), c, s)
  {
    hide OpensOnlyServed, FenceAll;
    SameConnections(f, f, c, s);
    if IsExpired(f.connections, d, now) {
      FenceOpensNothing(f, {f.connections[d].sandbox}, HeartbeatTimeout, now, c, s);
    }
  }

  lemma BeatOpensNothing(f: Fleet, d: ConnectionId, a: Authority, instance: InstanceId, now: Time, timeout: nat,
                         c: ConnectionId, s: SandboxId)
    ensures OpensOnlyServed(f, Heartbeat(f, d, a, instance, now, timeout), c, s)
  {
  }

  lemma ProvisionConnections(f: Fleet, p: ProvisionRequest, conflict: Option<CredentialId>, maximum: nat, allowed: bool,
                             now: Time, ttl: nat)
    ensures ProvisionedFleet(f, p, conflict, maximum, allowed, now, ttl).connections == f.connections
  {
    hide ConflictAnswer, SameProvision;
  }

  lemma LeaseConnections(f: Fleet, x: SessionId, s: SandboxId, lease: Lease, until: Time)
    ensures s in f.sandboxes ==> GrantLease(f, x, s, lease).connections == f.connections
    ensures Extended(f, x, until).connections == f.connections
    ensures CanRelease(f, x) ==> Drop(f, x).connections == f.connections
    ensures Quarantine(f, s).connections == f.connections
  {
  }

  lemma ReconciledConnections(w: World, s: SandboxId, targets: seq<Assignment>, now: Time)
    ensures Reconciled(w, s, targets, now).store.fleet.connections == w.store.fleet.connections
  {
    FinalizeAllChanges(w.store, s, targets, now, true);
    hide FinalizeAll, LivesFinalized, Targeted;
  }

  lemma RetiredConnections(w: World, id: ClaimId, assignments: seq<Assignment>, now: Time)
    requires Good(w)
    ensures Retire(w, id, assignments, now).store.fleet.connections == w.store.fleet.connections
  {
    if At(w, id, Renewed) {
      BeginIsNothing(w, id);
      assert w.store.(fleet := w.store.fleet) == w.store;
      FinalizeAllChanges(w.store, w.workers[id].sandbox, assignments, now, false);
    }
    hide Good, BeginRetirement, FinalizeAll, LivesFinalized, Targeted;
  }

  lemma WorkerConnections(w: World, id: ClaimId, s: SandboxId, owner: InstanceId, retryable: bool, now: Time, span: nat)
    ensures Renewal(w, id, now, span).store.fleet.connections == w.store.fleet.connections
    ensures Completion(w, id).store.fleet.connections == w.store.fleet.connections
    ensures Failure(w, id, retryable, now, span).store.fleet.connections == w.store.fleet.connections
    ensures Stop(w, id).store.fleet.connections == w.store.fleet.connections
    ensures ClaimDue(w, s, id, owner, now, span).store.fleet.connections == w.store.fleet.connections
  {
    hide C.Renew, C.Complete, C.Release, C.Take, C.Claimable;
  }

  lemma WorkerOpensNothing(w: World, step: Step)
    requires Good(w) && IsWorkerStep(step)
    ensures Do(w, step).store.fleet.connections == w.store.fleet.connections
  {
    hide Good, Ready, ClaimDue, Renewal, Completion, Failure, Stop, Retire;
    match step {
      case TakeClaim(b, id, owner, now, duration) => WorkerConnections(w, id, b, owner, false, now, duration);
      case RetireSandbox(id, assignments, now) => RetiredConnections(w, id, assignments, now);
      case StopOwner(id) => WorkerConnections(w, id, 0, 0, false, 0, 0);
      case RenewClaim(id, now, duration) => WorkerConnections(w, id, 0, 0, false, now, duration);
      case CompleteClaim(id) => WorkerConnections(w, id, 0, 0, false, 0, 0);
      case FailClaim(id, retryable, now, delay) => WorkerConnections(w, id, 0, 0, retryable, now, delay);
    }
  }

  lemma TableOpensServed(w: World, step: Step, c: ConnectionId, s: SandboxId)
    requires Good(w) && !IsWorkerStep(step)
    ensures OpensOnlyServed(w.store.fleet, Do(w, step).store.fleet, c, s)
  {
    hide Good, Ready, ProvisionedFleet, Register, Heartbeat, Expire, L.Do, GrantLease, Extended, CanRelease, Drop,
      Quarantine;
    hide Reconciled, NewlyQuarantined, Enrolled, OnePerSandbox, RequestsUnique, ActiveOn, OpensOnlyServed, Safe,
      WorkersOk;
    var f := w.store.fleet;
    SameConnections(f, f, c, s);
    match step {
      case Provision(p, conflict, maximum, allowed, now, ttl) =>
        ProvisionConnections(f, p, conflict, maximum, allowed, now, ttl);
      case RegisterBoot(r, now) =>
        if Ready(w) && r.connection !in f.connections {
          ReadyIs(w);
          RegisterOpensServed(f, r, now, c, s);
        }
      case Beat(d, a, instance, now, timeout) => BeatOpensNothing(f, d, a, instance, now, timeout, c, s);
      case ExpireConnection(d, now) => ExpireOpensNothing(f, d, now, c, s);
      case Grant(x, d, b, lease) => LeaseConnections(f, x, b, lease, 0);
      case RenewLease(x, until) => LeaseConnections(f, x, 0, Lease(0, 0, 0, 0), until);
      case ReleaseLease(x) => LeaseConnections(f, x, 0, Lease(0, 0, 0, 0), 0);
      case ReconcileExpired(b, targets, now) => ReconciledConnections(w, b, targets, now);
      case QuarantineSandbox(b) => LeaseConnections(f, 0, b, Lease(0, 0, 0, 0), 0);
      case _ =>
    }
    if Do(w, step).store.fleet.connections == f.connections {
      SameConnections(f, Do(w, step).store.fleet, c, s);
    }
  }

  lemma DoOpensServed(w: World, step: Step, c: ConnectionId, s: SandboxId)
    requires Good(w)
    ensures OpensOnlyServed(w.store.fleet, Do(w, step).store.fleet, c, s)
  {
    hide Good, Do, OpensOnlyServed;
    if IsWorkerStep(step) {
      WorkerOpensNothing(w, step);
      SameConnections(w.store.fleet, Do(w, step).store.fleet, c, s);
    } else {
      TableOpensServed(w, step, c, s);
    }
  }

  // ------------------------------------------------------------------ over whole runs

  /** A quarantine of `s` was among the steps, after connection `c` had been opened. */
  ghost predicate QuarantinedSince(steps: seq<Step>, c: ConnectionId, s: SandboxId) {
    exists i :: 0 <= i < |steps| && steps[i] == QuarantineSandbox(s) && c in After(steps[..i]).store.fleet.connections
  }

  lemma QuarantinedSinceStep(steps: seq<Step>, c: ConnectionId, s: SandboxId)
    requires steps != []
    ensures var n := |steps| - 1;
            QuarantinedSince(steps, c, s) <==>
              QuarantinedSince(steps[..n], c, s) || (steps[n] == QuarantineSandbox(s) && c in After(steps[..n]).store.fleet.connections)
  {
    hide After;
    var n := |steps| - 1;
    var before := steps[..n];
    if QuarantinedSince(steps, c, s) {
      var i :| 0 <= i < |steps| && steps[i] == QuarantineSandbox(s) && c in After(steps[..i]).store.fleet.connections;
      if i < n {
        assert before[..i] == steps[..i] && before[i] == steps[i];
      }
    }
    if QuarantinedSince(before, c, s) {
      var i :| 0 <= i < n && before[i] == QuarantineSandbox(s) && c in After(before[..i]).store.fleet.connections;
      assert before[..i] == steps[..i] && before[i] == steps[i];
    }
  }

  /** A connection that is not in the table yet has not been there to see a quarantine. */
  lemma {:induction false} UnopenedUnquarantined(steps: seq<Step>, c: ConnectionId, s: SandboxId)
    requires c !in After(steps).store.fleet.connections
    ensures !QuarantinedSince(steps, c, s)
  {
    hide Do, Good, Ready, QuarantinedSince, ActiveOn;
    if steps != [] {
      var before := steps[..|steps| - 1];
      RunGood(before);
      DoOpensServed(After(before), steps[|steps| - 1], c, s);
      UnopenedUnquarantined(before, c, s);
      QuarantinedSinceStep(steps, c, s);
    } else {
      NoneSince(c, s);
    }
  }

  lemma NoneSince(c: ConnectionId, s: SandboxId)
    ensures !QuarantinedSince([], c, s)
  {
    hide After;
  }

  lemma ActiveFacts(w: World, c: ConnectionId, s: SandboxId)
    requires Good(w)
    ensures ActiveOn(w.store.fleet.connections, c, s) ==>
              c in w.store.fleet.connections && s in w.store.fleet.sandboxes && (ServedBy(w.store.fleet, c, s) <==> s !in w.quarantined)
    ensures s in w.quarantined && s in w.store.fleet.sandboxes ==>
              w.store.fleet.sandboxes[s].state.Failed? || w.store.fleet.sandboxes[s].state.Terminated?
  {
    hide WorkersOk, LivesConsistent, RetirementLinked, Linked, OneActive, RequestsUnique;
    hide RetiredClosed, ClaimShape, Load, LeaseLinked, CredentialsUnique, Enrolled, LeasedAlive;
  }

  /** The last step of a run, for a connection that is active after it. */
  lemma ServedStep(w: World, step: Step, c: ConnectionId, s: SandboxId)
    requires Good(w) && Good(Do(w, step)) && ActiveOn(Do(w, step).store.fleet.connections, c, s)
    ensures ActiveOn(w.store.fleet.connections, c, s) ==>
              (s in Do(w, step).quarantined <==> s in w.quarantined || step == QuarantineSandbox(s))
    ensures !ActiveOn(w.store.fleet.connections, c, s) ==>
              c !in w.store.fleet.connections && s !in Do(w, step).quarantined
  {
    hide Good, Ready, Do, OpensOnlyServed, ActiveOn, ServedBy;
    DoOpensServed(w, step, c, s);
    ActiveFacts(w, c, s);
    OpensIs(w.store.fleet, Do(w, step).store.fleet, c, s);
    if step == QuarantineSandbox(s) {
      QuarantineAdds(w, s, c);
    } else {
      OnlyQuarantines(w, step, s);
    }
  }

  lemma OpensIs(f: Fleet, f': Fleet, c: ConnectionId, s: SandboxId)
    requires OpensOnlyServed(f, f', c, s)
    ensures ActiveOn(f'.connections, c, s) && !ActiveOn(f.connections, c, s) ==>
              c !in f.connections && s in f.sandboxes && !f.sandboxes[s].state.Failed? && !f.sandboxes[s].state.Terminated?
  {
    hide ActiveOn;
  }

  lemma QuarantineAdds(w: World, s: SandboxId, c: ConnectionId)
    requires Good(w)
    ensures ActiveOn(w.store.fleet.connections, c, s) ==> s in Do(w, QuarantineSandbox(s)).quarantined
    ensures ActiveOn(Do(w, QuarantineSandbox(s)).store.fleet.connections, c, s) ==> ActiveOn(w.store.fleet.connections, c, s)
  {
    hide Good, Ready, ActiveOn, Quarantine, NewlyQuarantined;
    ActiveFacts(w, c, s);
    hide ServedBy;
    LeaseConnections(w.store.fleet, 0, s, Lease(0, 0, 0, 0), 0);
    ServedIsNew(w.store.fleet, c, s);
  }

  lemma ServedIsNew(f: Fleet, c: ConnectionId, s: SandboxId)
    ensures ServedBy(f, c, s) ==> NewlyQuarantined(f, s) == {s}
  {
    hide ActiveOn;
  }

  /**
   Over every run: while connection `c` is active on `s`, the sandbox is ready or leased if and only
   if no step of the run has quarantined `s` since `c` was opened.
   */
  lemma {:induction false} ServedUntilQuarantined(steps: seq<Step>, c: ConnectionId, s: SandboxId)
    requires ActiveOn(After(steps).store.fleet.connections, c, s)
    ensures ServedBy(After(steps).store.fleet, c, s) <==> !QuarantinedSince(steps, c, s)
    decreases |steps|
  {
    hide Do, Good, Ready, QuarantinedSince, ActiveOn, ServedBy;
    RunGood(steps);
    ActiveFacts(After(steps), c, s);
    if steps == [] {
      NothingActive(c, s);
    } else {
      var before := steps[..|steps| - 1];
      RunGood(before);
      ActiveFacts(After(before), c, s);
      ServedStep(After(before), steps[|steps| - 1], c, s);
      QuarantinedSinceStep(steps, c, s);
      if ActiveOn(After(before).store.fleet.connections, c, s) {
        ServedUntilQuarantined(before, c, s);
      } else {
        UnopenedUnquarantined(before, c, s);
      }
    }
  }

  lemma NothingActive(c: ConnectionId, s: SandboxId)
    ensures !ActiveOn(EMPTY_WORLD.store.fleet.connections, c, s)
  {
  }
}
