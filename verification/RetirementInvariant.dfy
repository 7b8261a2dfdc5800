/** What the steps of retirement workers keep, and with them every run. */
module RetirementInvariant {
  import opened Common
  import opened SupervisorFleet
  import opened FleetSafety
  import opened Reconciliation
  import opened SupervisorRuns
  import opened SupervisorInvariant
  import C = RetirementClaims
  import A = Assignments
  import L = LifecycleRuns

  // ------------------------------------------------------------------ retirement workers keep the invariant

  lemma TakeTables(w: World, s: SandboxId, id: ClaimId, owner: InstanceId, now: Time, duration: nat)
    requires WorkersOk(w) && s in w.store.fleet.retirements && id !in w.workers
    requires C.Claimable(w.store.fleet.retirements[s], now)
    ensures var w' := ClaimDue(w, s, id, owner, now, duration);
            WorkersLinked(w'.workers, w'.store.fleet.retirements) && ClaimsLatest(w'.workers, w'.store.fleet.retirements)
  {
    hide AttemptsCounted, StopsConfirmed, RetiredTerminated, CompletionEarned;
  }

  lemma TakeCounted(w: World, s: SandboxId, id: ClaimId, owner: InstanceId, now: Time, duration: nat)
    requires AttemptsCounted(w.workers, w.store.fleet.retirements) && s in w.store.fleet.retirements && id !in w.workers
    requires C.Claimable(w.store.fleet.retirements[s], now)
    ensures var w' := ClaimDue(w, s, id, owner, now, duration); AttemptsCounted(w'.workers, w'.store.fleet.retirements)
  {
    var w' := ClaimDue(w, s, id, owner, now, duration);
    assert WorkersOf(w'.workers, s) == WorkersOf(w.workers, s) + {id};
    assert forall b :: b != s ==> WorkersOf(w'.workers, b) == WorkersOf(w.workers, b);
    hide WorkersOf;
  }

  lemma TakeProgress(w: World, s: SandboxId, id: ClaimId, owner: InstanceId, now: Time, duration: nat)
    requires WorkersOk(w) && s in w.store.fleet.retirements && id !in w.workers
    requires C.Claimable(w.store.fleet.retirements[s], now)
    ensures var w' := ClaimDue(w, s, id, owner, now, duration);
            && StopsConfirmed(w'.workers, w'.stopped) && RetiredTerminated(w'.workers, w'.store.fleet.sandboxes)
            && CompletionEarned(w'.store.fleet, w'.stopped)
  {
    hide AttemptsCounted, WorkersLinked, ClaimsLatest;
  }

  lemma ClaimGood(w: World, s: SandboxId, id: ClaimId, owner: InstanceId, now: Time, duration: nat)
    requires Good(w)
    ensures Good(ClaimDue(w, s, id, owner, now, duration))
  {
    var f := w.store.fleet;
    if s in f.retirements && C.Claimable(f.retirements[s], now) && id !in w.workers {
      TakeTables(w, s, id, owner, now, duration);
      TakeCounted(w, s, id, owner, now, duration);
      TakeProgress(w, s, id, owner, now, duration);
      hide Safe, C.Claimable, WorkersLinked, ClaimsLatest, AttemptsCounted, StopsConfirmed, RetiredTerminated,
        CompletionEarned, LivesConsistent;
      C.RowUpdatedSafe(f, C.Take(f.retirements, s, id, owner, now, duration), s, w.quarantined);
    }
    hide Good, C.Claimable;
  }

  /** The row of one worker's sandbox changes hands no further than from its holder to nobody. */
  ghost predicate RowReleased(rt: Retirements, rt': Retirements, s: SandboxId) {
    && s in rt && s in rt' && rt' == rt[s := rt'[s]]
    && rt'[s].supervisor == rt[s].supervisor && rt'[s].boot == rt[s].boot && rt'[s].attempts == rt[s].attempts
    && (rt'[s].claim.Some? ==>
          && rt[s].claim.Some?
          && rt'[s].claim.value.id == rt[s].claim.value.id && rt'[s].claim.value.owner == rt[s].claim.value.owner)
  }

  lemma PhaseLinked(w: World, id: ClaimId, phase: Phase, rt': Retirements)
    requires WorkersOk(w) && id in w.workers
    requires rt' == w.store.fleet.retirements || RowReleased(w.store.fleet.retirements, rt', w.workers[id].sandbox)
    ensures var workers' := InPhase(w, id, phase).workers;
            WorkersLinked(workers', rt') && ClaimsLatest(workers', rt')
  {
    hide AttemptsCounted, StopsConfirmed, RetiredTerminated, CompletionEarned;
  }

  lemma PhaseCounted(w: World, id: ClaimId, phase: Phase, rt': Retirements)
    requires AttemptsCounted(w.workers, w.store.fleet.retirements) && id in w.workers
    requires rt' == w.store.fleet.retirements || RowReleased(w.store.fleet.retirements, rt', w.workers[id].sandbox)
    ensures AttemptsCounted(InPhase(w, id, phase).workers, rt')
  {
    var workers' := InPhase(w, id, phase).workers;
    assert forall b :: WorkersOf(workers', b) == WorkersOf(w.workers, b);
    hide WorkersOf, InPhase;
  }

  lemma PhaseProgress(w: World, id: ClaimId, phase: Phase, stopped: set<Identity>)
    requires WorkersOk(w) && id in w.workers && w.stopped <= stopped
    requires PastStop(phase) ==> IdentityOf(w.workers[id]) in stopped
    requires phase.Retired? ==> C.Terminated(w.store.fleet, w.workers[id].sandbox, w.workers[id].supervisor, w.workers[id].boot)
    ensures StopsConfirmed(InPhase(w, id, phase).workers, stopped)
    ensures RetiredTerminated(InPhase(w, id, phase).workers, w.store.fleet.sandboxes)
  {
    hide AttemptsCounted, WorkersLinked, ClaimsLatest, CompletionEarned;
  }

  /** Completion is recorded only for a terminated sandbox whose owner's stop was confirmed. */
  lemma CompletionKept(f: Fleet, rt': Retirements, s: SandboxId, stopped: set<Identity>, stopped': set<Identity>)
    requires CompletionEarned(f, stopped) && stopped <= stopped'
    requires rt' == f.retirements || RowReleased(f.retirements, rt', s)
    requires rt' != f.retirements && rt'[s].state.Completed? ==>
               C.Terminated(f, s, rt'[s].supervisor, rt'[s].boot) && Identity(rt'[s].supervisor, rt'[s].boot, s) in stopped'
    ensures CompletionEarned(f.(retirements := rt'), stopped')
  {
  }

  /** A worker takes its next phase, perhaps rewriting its row and perhaps after a confirmed stop. */
  lemma PhaseGood(w: World, id: ClaimId, phase: Phase, rt': Retirements, stopped: set<Identity>)
    requires Good(w) && id in w.workers && w.stopped <= stopped
    requires rt' == w.store.fleet.retirements ||
             (RowReleased(w.store.fleet.retirements, rt', w.workers[id].sandbox) &&
              C.RowUpdated(w.store.fleet.retirements, rt', w.workers[id].sandbox))
    requires PastStop(phase) ==> IdentityOf(w.workers[id]) in stopped
    requires phase.Retired? ==> C.Terminated(w.store.fleet, w.workers[id].sandbox, w.workers[id].supervisor, w.workers[id].boot)
    requires var s := w.workers[id].sandbox;
             rt' != w.store.fleet.retirements && rt'[s].state.Completed? ==>
               C.Terminated(w.store.fleet, s, rt'[s].supervisor, rt'[s].boot) && Identity(rt'[s].supervisor, rt'[s].boot, s) in stopped
    ensures Good(WithRetirements(InPhase(w, id, phase), rt').(stopped := stopped))
  {
    PhaseLinked(w, id, phase, rt');
    PhaseCounted(w, id, phase, rt');
    PhaseProgress(w, id, phase, stopped);
    CompletionKept(w.store.fleet, rt', w.workers[id].sandbox, w.stopped, stopped);
    hide Safe, WorkersLinked, ClaimsLatest, AttemptsCounted, StopsConfirmed, RetiredTerminated, CompletionEarned,
      LivesConsistent;
    hide C.RowUpdated, RowReleased, C.Terminated, PastStop;
    if rt' != w.store.fleet.retirements {
      C.RowUpdatedSafe(w.store.fleet, rt', w.workers[id].sandbox, w.quarantined);
    } else {
      assert w.store.fleet.(retirements := rt') == w.store.fleet;
    }
  }

  lemma SamePhase(w: World, id: ClaimId, phase: Phase)
    requires id in w.workers
    ensures WithRetirements(InPhase(w, id, phase), w.store.fleet.retirements).(stopped := w.stopped) == InPhase(w, id, phase)
  {
  }

  lemma WorkerFacts(w: World, id: ClaimId)
    requires Good(w) && id in w.workers
    ensures var k := w.workers[id];
            && k.sandbox in w.store.fleet.retirements
            && k.supervisor == w.store.fleet.retirements[k.sandbox].supervisor && k.boot == w.store.fleet.retirements[k.sandbox].boot
            && w.store.fleet.retirements[k.sandbox].attempts > 0
            && (PastStop(k.phase) ==> IdentityOf(k) in w.stopped)
  {
    hide Safe, ClaimsLatest, AttemptsCounted, CompletionEarned, LivesConsistent, LeasedAlive, RetiredTerminated;
  }

  lemma StopGood(w: World, id: ClaimId)
    requires Good(w)
    ensures Good(Stop(w, id))
  {
    if At(w, id, Claiming) {
      var stopped := w.stopped + {IdentityOf(w.workers[id])};
      hide Good;
      PhaseGood(w, id, OwnerStopped, w.store.fleet.retirements, stopped);
      assert WithRetirements(InPhase(w, id, OwnerStopped), w.store.fleet.retirements).(stopped := stopped) == Stop(w, id);
    }
    hide Good;
  }

  /** A worker that cannot go on only changes its phase. */
  lemma FailingGood(w: World, id: ClaimId, phase: Phase)
    requires Good(w) && id in w.workers && (phase.Failing? || phase.Finished?)
    ensures Good(InPhase(w, id, phase))
  {
    SamePhase(w, id, phase);
    hide Good, InPhase;
    PhaseGood(w, id, phase, w.store.fleet.retirements, w.stopped);
  }

  lemma RenewalGood(w: World, id: ClaimId, now: Time, duration: nat)
    requires Good(w)
    ensures Good(Renewal(w, id, now, duration))
  {
    if At(w, id, OwnerStopped) {
      var k := w.workers[id];
      WorkerFacts(w, id);
      hide Good, InPhase;
      match C.Renew(w.store.fleet.retirements, k.sandbox, id, k.owner, now, duration)
      case Some(rt) =>
        PhaseGood(w, id, Renewed, rt, w.stopped);
        assert WithRetirements(InPhase(w, id, Renewed), rt).(stopped := w.stopped) == Renewal(w, id, now, duration) by {
          PhaseStops(w, id, Renewed);
        }
      case None => FailingGood(w, id, Failing);
    }
    hide Good;
  }

  lemma PhaseStops(w: World, id: ClaimId, phase: Phase)
    requires id in w.workers
    ensures InPhase(w, id, phase).stopped == w.stopped && InPhase(w, id, phase).store == w.store
    ensures InPhase(w, id, phase).quarantined == w.quarantined
  {
  }

  lemma CompletionGood(w: World, id: ClaimId)
    requires Good(w)
    ensures Good(Completion(w, id))
  {
    if At(w, id, Retired) {
      var k := w.workers[id];
      WorkerFacts(w, id);
      hide Good, InPhase, C.Terminated;
      match C.Complete(w.store.fleet, k.sandbox, k.supervisor, k.boot, id, k.owner)
      case Some(rt) =>
        PhaseGood(w, id, Finished, rt, w.stopped);
        assert WithRetirements(InPhase(w, id, Finished), rt).(stopped := w.stopped) == Completion(w, id) by {
          PhaseStops(w, id, Finished);
        }
      case None => FailingGood(w, id, Failing);
    }
    hide Good;
  }

  lemma FailureGood(w: World, id: ClaimId, retryable: bool, now: Time, delay: nat)
    requires Good(w)
    ensures Good(Failure(w, id, retryable, now, delay))
  {
    if id in w.workers && w.workers[id].phase != Finished {
      var k := w.workers[id];
      WorkerFacts(w, id);
      hide Good, InPhase;
      match C.Release(w.store.fleet.retirements, k.sandbox, id, k.owner, retryable, now, delay)
      case Some(rt) =>
        PhaseGood(w, id, Finished, rt, w.stopped);
        assert WithRetirements(InPhase(w, id, Finished), rt).(stopped := w.stopped) == Failure(w, id, retryable, now, delay) by {
          PhaseStops(w, id, Finished);
        }
      case None => FailingGood(w, id, Finished);
    }
    hide Good;
  }

  lemma CommitRetirementRows(st: Store, s: SandboxId, assignments: seq<Assignment>, now: Time)
    requires CommitRetirement(st, s, assignments, now).Ok?
    ensures var st' := CommitRetirement(st, s, assignments, now).value.0;
            && LivesFinalized(st, st', now)
            && (forall x :: x in st'.fleet.leases ==> x in st.fleet.leases)
            && RowChanged(st.fleet, st'.fleet, s) && st'.fleet.sandboxes[s].state.Terminated?
  {
    FinalizeAllChanges(st, s, assignments, now, false);
    var mid := FinalizeAll(st, s, assignments, now, false).value.0;
    hide FinalizeAll, Targeted, A.Finalize, LeasesOn, Terminate;
    TerminateRow(mid.fleet, s);
    var st' := CommitRetirement(st, s, assignments, now).value.0;
    assert forall x :: LostLease(st, st', x) <==> LostLease(st, mid, x);
    hide LostLease;
  }

  lemma CommitRetirementGood(w: World, s: SandboxId, assignments: seq<Assignment>, now: Time)
    requires Good(w) && s in w.store.fleet.retirements && CommitRetirement(w.store, s, assignments, now).Ok?
    ensures Good(w.(store := CommitRetirement(w.store, s, assignments, now).value.0))
    ensures CommitRetirement(w.store, s, assignments, now).value.0.fleet.retirements == w.store.fleet.retirements
  {
    var st := CommitRetirement(w.store, s, assignments, now).value.0;
    hide Safe, WorkersOk, LivesConsistent, CommitRetirement, LivesFinalized, LeasedAlive, Grows, LeasesOn;
    CommitRetirementSafe(w.store, s, assignments, now, w.quarantined);
    CommitRetirementRows(w.store, s, assignments, now);
    FinalizedLives(w.store, st, now);
    RowGrows(w.store.fleet, st.fleet, s);
    GrowsWorkers(w, st.fleet);
    SameWorkers(WithFleet(w, st.fleet), w.(store := st));
  }

  /** The sandbox of a worker is under retirement, so beginning its retirement has nothing left to do. */
  lemma BeginIsNothing(w: World, id: ClaimId)
    requires Good(w) && id in w.workers
    ensures BeginRetirement(w.store.fleet, w.workers[id].sandbox) == Ok(w.store.fleet)
  {
    WorkerFacts(w, id);
    GoodParts(w);
    hide Good, Safe, WorkersOk, Enrolled, Ready, BeginRetirement;
    BeginRetirementSafe(w.store.fleet, w.workers[id].sandbox, w.quarantined);
  }

  lemma RetireGood(w: World, id: ClaimId, assignments: seq<Assignment>, now: Time)
    requires Good(w)
    ensures Good(Retire(w, id, assignments, now))
  {
    if At(w, id, Renewed) {
      var k := w.workers[id];
      BeginIsNothing(w, id);
      WorkerFacts(w, id);
      hide Good, CommitRetirement, BeginRetirement, Quarantining, InPhase;
      assert w.store.(fleet := w.store.fleet) == w.store;
      match CommitRetirement(w.store, k.sandbox, assignments, now)
      case Ok((st, _)) => RetiredGood(w, id, assignments, now);
      case Err(_) =>
        FailingGood(w, id, Failing);
        PhaseStops(w, id, Failing);
        assert WithFleet(InPhase(w, id, Failing), w.store.fleet) == InPhase(w, id, Failing);
        QuarantineGood(InPhase(w, id, Failing), k.sandbox);
    }
    hide Good;
  }

  lemma RetiredGood(w: World, id: ClaimId, assignments: seq<Assignment>, now: Time)
    requires Good(w) && At(w, id, Renewed)
    requires CommitRetirement(w.store, w.workers[id].sandbox, assignments, now).Ok?
    ensures Good(InPhase(w, id, Retired).(store := CommitRetirement(w.store, w.workers[id].sandbox, assignments, now).value.0))
  {
    var k := w.workers[id];
    var st := CommitRetirement(w.store, k.sandbox, assignments, now).value.0;
    var mid := w.(store := st);
    WorkerFacts(w, id);
    hide Good, CommitRetirement;
    CommitRetirementGood(w, k.sandbox, assignments, now);
    TerminatedIdentity(w, mid, id, assignments, now);
    SamePhase(mid, id, Retired);
    PhaseGood(mid, id, Retired, mid.store.fleet.retirements, mid.stopped);
  }

  lemma TerminatedIdentity(w: World, mid: World, id: ClaimId, assignments: seq<Assignment>, now: Time)
    requires Good(w) && Good(mid) && id in w.workers && mid.workers == w.workers
    requires CommitRetirement(w.store, w.workers[id].sandbox, assignments, now).Ok?
    requires mid.store == CommitRetirement(w.store, w.workers[id].sandbox, assignments, now).value.0
    ensures C.Terminated(mid.store.fleet, w.workers[id].sandbox, w.workers[id].supervisor, w.workers[id].boot)
  {
    CommitRetirementRows(w.store, w.workers[id].sandbox, assignments, now);
    WorkerFacts(mid, id);
    RetirementIdentity(mid);
    hide Good, CommitRetirement, LivesFinalized;
  }

  lemma RetirementIdentity(w: World)
    requires Good(w)
    ensures RetirementLinked(w.store.fleet.sandboxes, w.store.fleet.retirements)
  {
    hide WorkersOk, LivesConsistent, RetirementLinked, Linked, OneActive, RequestsUnique, Serving, Quarantined,
      RetiredClosed;
    hide ClaimShape, Load, LeaseLinked, CredentialsUnique, Enrolled;
  }

  lemma ReconciledGood(w: World, s: SandboxId, targets: seq<Assignment>, now: Time)
    requires Good(w)
    ensures Good(Reconciled(w, s, targets, now))
  {
    hide Good, CommitExpired, Quarantining;
    if CommitExpired(w.store, s, targets, now).Ok? {
      CommitExpiredGood(w, s, targets, now);
    } else {
      QuarantineGood(w, s);
    }
  }

  lemma DoGood(w: World, step: Step)
    requires Good(w) && Ready(w)
    ensures Good(Do(w, step)) && Ready(Do(w, step))
  {
    hide Good, Ready, ProvisionedFleet, Register, Heartbeat, Expire, L.Do, CanGrant, GrantLease, Extended,
      CanRelease, Drop;
    hide Reconciled, Quarantining, ClaimDue, Stop, Renewal, Retire, Completion, Failure;
    assert WithFleet(w, w.store.fleet) == w;
    match step {
      case Provision(p, conflict, maximum, allowed, now, ttl) => ProvisionGood(w, p, conflict, maximum, allowed, now, ttl);
      case RegisterBoot(r, now) =>
        if r.connection !in w.store.fleet.connections {
          RegisterGood(w, r, now);
        }
      case Beat(c, a, instance, now, timeout) => BeatGood(w, c, a, instance, now, timeout);
      case ExpireConnection(c, now) => ExpireGood(w, c, now);
      case OpenSession(x) =>
        if x !in w.store.lives {
          OpenSessionGood(w, x);
        }
      case Execute(x, e) =>
        if x in w.store.lives {
          ExecuteGood(w, x, e);
        }
      case Grant(x, c, s, lease) =>
        if CanGrant(w.store, x, c, s, lease) {
          GrantGood(w, x, c, s, lease);
        }
      case RenewLease(x, until) => ExtendedGood(w, x, until);
      case ReleaseLease(x) =>
        if CanRelease(w.store.fleet, x) {
          DropGood(w, x);
        }
      case ReconcileExpired(s, targets, now) => ReconciledGood(w, s, targets, now);
      case QuarantineSandbox(s) => QuarantineGood(w, s);
      case TakeClaim(s, id, owner, now, duration) => ClaimGood(w, s, id, owner, now, duration);
      case StopOwner(id) => StopGood(w, id);
      case RenewClaim(id, now, duration) => RenewalGood(w, id, now, duration);
      case RetireSandbox(id, assignments, now) => RetireGood(w, id, assignments, now);
      case CompleteClaim(id) => CompletionGood(w, id);
      case FailClaim(id, retryable, now, delay) => FailureGood(w, id, retryable, now, delay);
    }
    GoodParts(Do(w, step));
  }

  /** Every state that an interleaving of the protocol's steps reaches satisfies the invariant. */
  lemma {:induction false} RunGood(steps: seq<Step>)
    ensures Good(After(steps)) && Ready(After(steps))
  {
    if steps == [] {
      EmptyGood();
      GoodIsReady(EMPTY_WORLD);
    } else {
      RunGood(steps[..|steps| - 1]);
      hide Good, Ready, Do;
      DoGood(After(steps[..|steps| - 1]), steps[|steps| - 1]);
    }
  }
}
