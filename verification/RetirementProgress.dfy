/**
 How a retirement gets done: what each step of a claim's holder achieves, and that nobody else can
 end a claim that runs.
 */
module RetirementProgress {
  import opened Common
  import opened SupervisorFleet
  import opened FleetSafety
  import opened Reconciliation
  import opened SupervisorRuns
  import opened SupervisorInvariant
  import opened RetirementInvariant
  import opened SupervisorSafety
  import C = RetirementClaims
  import L = LifecycleRuns
  import Q = QuarantineExact

  // ------------------------------------------------------------------ opening

  /**
   Fencing a sandbox opens its retirement, due at once, for the very boot that was fenced; a row
   that is there already stays.
   */
  lemma FencedIsDue(f: Fleet, fenced: set<SandboxId>, reason: Reason, now: Time, s: SandboxId)
    requires s in fenced && s in f.sandboxes && !f.sandboxes[s].state.Terminated?
    ensures var g := FenceAll(f, fenced, reason, now);
            && s in g.retirements && g.sandboxes[s].state.Failed?
            && (s in f.retirements ==> g.retirements[s] == f.retirements[s])
            && (s !in f.retirements ==>
                  && g.retirements[s].state.Waiting? && g.retirements[s].availableAt == now && g.retirements[s].createdAt == now
                  && g.retirements[s].attempts == 0 && g.retirements[s].claim.None? && g.retirements[s].reason == reason
                  && g.retirements[s].supervisor == f.sandboxes[s].supervisor && g.retirements[s].boot == f.sandboxes[s].boot)
  {
    hide CloseAll;
  }

  // ------------------------------------------------------------------ a claim that is held

  /** Worker `id` is in `phase` and the row it works on is claimed by it until `until`. */
  ghost predicate Holding(w: World, id: ClaimId, phase: Phase, until: Time) {
    && At(w, id, phase) && Claimed(w.store.fleet.retirements, w.workers[id].sandbox, id, w.workers[id].owner, until)
  }

  ghost predicate Claimed(rt: Retirements, s: SandboxId, id: ClaimId, owner: InstanceId, until: Time) {
    s in rt && rt[s].state == RetirementState.Claimed && rt[s].claim == Some(Claim(id, owner, until))
  }

  /** A row can be taken exactly if it waits and its time has come, or its claim has run out. */
  ghost predicate Due(rt: Retirements, s: SandboxId, now: Time) {
    && s in rt
    && ((rt[s].state.Waiting? && rt[s].availableAt <= now) ||
        (rt[s].state.Claimed? && rt[s].claim.Some? && rt[s].claim.value.until <= now))
  }

  /**
   Taking succeeds exactly on a due row; it begins one more attempt, for the duration asked, and
   leaves every other row.
   */
  lemma TakeHolds(w: World, s: SandboxId, id: ClaimId, owner: InstanceId, now: Time, duration: nat)
    requires id !in w.workers
    ensures var w' := Do(w, TakeClaim(s, id, owner, now, duration));
            if Due(w.store.fleet.retirements, s, now)
            then
              && Holding(w', id, Claiming, now + duration) && w'.workers[id].sandbox == s && w'.workers[id].owner == owner
              && w'.store.fleet.retirements[s].attempts == w.store.fleet.retirements[s].attempts + 1
              && (forall b :: b in w.store.fleet.retirements && b != s ==>
                    b in w'.store.fleet.retirements && w'.store.fleet.retirements[b] == w.store.fleet.retirements[b])
            else w' == w
  {
    hide Good, Ready;
  }

  /** A claim that runs cannot be taken over. */
  lemma RunningClaimIsExclusive(w: World, id: ClaimId, phase: Phase, until: Time, other: ClaimId, owner: InstanceId,
                                now: Time,
                                duration: nat)
    requires Holding(w, id, phase, until) && now < until
    ensures Do(w, TakeClaim(w.workers[id].sandbox, other, owner, now, duration)) == w
  {
    hide Good, Ready;
  }

  lemma StopHolds(w: World, id: ClaimId, until: Time)
    requires Holding(w, id, Claiming, until)
    ensures var w' := Do(w, StopOwner(id));
            && Holding(w', id, OwnerStopped, until) && IdentityOf(w.workers[id]) in w'.stopped
            && w'.store == w.store && w'.workers[id] == w.workers[id].(phase := OwnerStopped)
  {
    hide Good, Ready;
  }

  /** A renewal in time goes on for the duration asked; one that is too late fails and leaves the row. */
  lemma RenewHolds(w: World, id: ClaimId, until: Time, now: Time, duration: nat)
    requires Holding(w, id, OwnerStopped, until)
    ensures var w' := Do(w, RenewClaim(id, now, duration));
            if now < until
            then Holding(w', id, Renewed, now + duration) && w'.workers[id] == w.workers[id].(phase := Renewed)
            else At(w', id, Failing) && w'.store == w.store
  {
    hide Good, Ready;
  }

  // ------------------------------------------------------------------ the retirement itself

  /** The list has every lease of `s`, each as it is now. */
  ghost predicate AllObserved(f: Fleet, s: SandboxId, assignments: seq<Assignment>) {
    forall x :: x in f.leases && f.leases[x].sandbox == s ==>
      exists i :: 0 <= i < |assignments| && assignments[i].session == x && SameLease(f, s, assignments[i])
  }

  lemma {:induction false} AllFinalized(st: Store, s: SandboxId, assignments: seq<Assignment>, now: Time)
    requires AllObserved(st.fleet, s, assignments) && FinalizeAll(st, s, assignments, now, false).Ok?
    ensures LeasesOn(FinalizeAll(st, s, assignments, now, false).value.0.fleet.leases, s) == {}
  {
    var after := FinalizeAll(st, s, assignments, now, false).value.0;
    FinalizeAllChanges(st, s, assignments, now, false);
    hide FinalizeAll, LivesFinalized, Targeted;
    forall x | x in after.fleet.leases && after.fleet.leases[x].sandbox == s
      ensures false
    {
      var i :| 0 <= i < |assignments| && assignments[i].session == x && SameLease(st.fleet, s, assignments[i]);
      FinalizeAllExhausts(st, s, assignments, now, false, i);
    }
  }

  /** A retirement whose observation is complete commits: the sandbox is terminated and has no lease. */
  lemma RetireHolds(w: World, id: ClaimId, until: Time, assignments: seq<Assignment>, now: Time)
    requires Good(w) && Holding(w, id, Renewed, until)
    requires AllObserved(w.store.fleet, w.workers[id].sandbox, assignments)
    ensures var w' := Do(w, RetireSandbox(id, assignments, now));
            var s := w.workers[id].sandbox;
            && Holding(w', id, Retired, until) && w'.workers[id] == w.workers[id].(phase := Retired)
            && C.Terminated(w'.store.fleet, s, w.workers[id].supervisor, w.workers[id].boot)
            && LeasesOn(w'.store.fleet.leases, s) == {}
  {
    var s := w.workers[id].sandbox;
    BeginIsNothing(w, id);
    WorkerFacts(w, id);
    RetirementIdentity(w);
    LoadParts(w);
    assert w.store.(fleet := w.store.fleet) == w.store;
    hide Good, LivesConsistent, LeasedAlive, Load, LeaseLinked, BeginRetirement, AllObserved, RetirementLinked,
      CommitRetirement, LeasesOn;
    RetirementRowIs(w.store.fleet, s);
    RetirementCommits(w.store, s, assignments, now);
  }

  lemma RetirementRowIs(f: Fleet, s: SandboxId)
    requires RetirementLinked(f.sandboxes, f.retirements) && s in f.retirements
    ensures s in f.sandboxes && (f.sandboxes[s].state.Failed? || f.sandboxes[s].state.Terminated?)
    ensures f.retirements[s].supervisor == f.sandboxes[s].supervisor && f.retirements[s].boot == f.sandboxes[s].boot
  {
  }

  lemma RetirementCommits(st: Store, s: SandboxId, assignments: seq<Assignment>, now: Time)
    requires LivesConsistent(st.lives) && LeasedAlive(st.fleet.leases, st.lives)
    requires AllObserved(st.fleet, s, assignments)
    requires s in st.fleet.sandboxes && (st.fleet.sandboxes[s].state.Failed? || st.fleet.sandboxes[s].state.Terminated?)
    ensures CommitRetirement(st, s, assignments, now).Ok?
    ensures var g := CommitRetirement(st, s, assignments, now).value.0.fleet;
            && g.retirements == st.fleet.retirements && LeasesOn(g.leases, s) == {}
            && C.Terminated(g, s, st.fleet.sandboxes[s].supervisor, st.fleet.sandboxes[s].boot)
  {
    hide FinalizeAll, LivesConsistent, LeasedAlive, LivesFinalized, Targeted, LeasesOn, AllObserved, Terminate;
    Q.FinalizeAllCommits(st, s, assignments, now, false);
    AllFinalized(st, s, assignments, now);
    FinalizeAllChanges(st, s, assignments, now, false);
    Terminates(FinalizeAll(st, s, assignments, now, false).value.0.fleet, s);
  }

  lemma Terminates(f: Fleet, s: SandboxId)
    requires LeasesOn(f.leases, s) == {} && s in f.sandboxes && (f.sandboxes[s].state.Failed? || f.sandboxes[s].state.Terminated?)
    ensures Terminate(f, s).Ok?
    ensures var g := Terminate(f, s).value;
            && g.retirements == f.retirements && g.leases == f.leases && s in g.sandboxes && g.sandboxes[s].state.Terminated?
            && g.sandboxes[s].supervisor == f.sandboxes[s].supervisor && g.sandboxes[s].boot == f.sandboxes[s].boot
  {
    hide LeasesOn;
  }

  lemma CompleteHolds(w: World, id: ClaimId, until: Time)
    requires Holding(w, id, Retired, until)
    requires C.Terminated(w.store.fleet, w.workers[id].sandbox, w.workers[id].supervisor, w.workers[id].boot)
    ensures var w' := Do(w, CompleteClaim(id));
            var rt', s := w'.store.fleet.retirements, w.workers[id].sandbox;
            At(w', id, Finished) && s in rt' && rt'[s].state.Completed? && rt'[s].claim.None?
  {
    hide Good, Ready;
  }

  /** Giving up frees the row: to be taken again after the delay, or blocked for good. */
  lemma FailFrees(w: World, id: ClaimId, phase: Phase, until: Time, retryable: bool, now: Time, delay: nat, later: Time)
    requires Holding(w, id, phase, until) && phase != Finished
    ensures var w' := Do(w, FailClaim(id, retryable, now, delay));
            var rt', s := w'.store.fleet.retirements, w.workers[id].sandbox;
            && At(w', id, Finished) && s in rt' && rt'[s].claim.None? && rt'[s].failed
            && (Due(rt', s, later) <==> retryable && later >= now + delay)
            && (!retryable ==> rt'[s].state.Blocked?)
  {
    hide Good, Ready;
  }

  /**
   A due retirement whose worker is left alone is done: claimed, its owner stopped, renewed in time,
   with every lease observed, it ends completed, with the sandbox terminated and free of leases.
   */
  lemma RetirementGetsDone(w: World, s: SandboxId, id: ClaimId, owner: InstanceId, t: Time, d: nat, t': Time, d': nat,
                           assignments: seq<Assignment>, t'': Time)
    requires Good(w) && id !in w.workers && Due(w.store.fleet.retirements, s, t) && t' < t + d
    requires AllObserved(w.store.fleet, s, assignments)
    ensures var w1 := Do(w, TakeClaim(s, id, owner, t, d));
            var w2 := Do(w1, StopOwner(id));
            var w3 := Do(w2, RenewClaim(id, t', d'));
            var w4 := Do(w3, RetireSandbox(id, assignments, t''));
            var f := Do(w4, CompleteClaim(id)).store.fleet;
            && s in f.retirements && f.retirements[s].state.Completed?
            && s in f.sandboxes && f.sandboxes[s].state.Terminated? && LeasesOn(f.leases, s) == {}
  {
    var w1 := Do(w, TakeClaim(s, id, owner, t, d));
    var w2 := Do(w1, StopOwner(id));
    var w3 := Do(w2, RenewClaim(id, t', d'));
    var w4 := Do(w3, RetireSandbox(id, assignments, t''));
    hide Good, Do, Ready, Holding, AllObserved, LeasesOn, Due, C.Terminated;
    GoodIs(w);
    DoGood(w, TakeClaim(s, id, owner, t, d));
    DoGood(w1, StopOwner(id));
    DoGood(w2, RenewClaim(id, t', d'));
    HalfDone(w, s, id, owner, t, d, t', d');
    HoldingIs(w3, id, Renewed, t' + d');
    SameObserved(w.store.fleet, w3.store.fleet, s, assignments);
    RetireHolds(w3, id, t' + d', assignments, t'');
    CompleteHolds(w4, id, t' + d');
    CompletionKeepsTables(w4, id);
    TerminatedIs(w4.store.fleet, s, w3.workers[id].supervisor, w3.workers[id].boot);
  }

  lemma TerminatedIs(f: Fleet, s: SandboxId, supervisor: SupervisorId, boot: BootId)
    requires C.Terminated(f, s, supervisor, boot)
    ensures s in f.sandboxes && f.sandboxes[s].state.Terminated?
  {
  }

  lemma HalfDone(w: World, s: SandboxId, id: ClaimId, owner: InstanceId, t: Time, d: nat, t': Time, d': nat)
    requires id !in w.workers && Due(w.store.fleet.retirements, s, t) && t' < t + d
    ensures var w3 := Do(Do(Do(w, TakeClaim(s, id, owner, t, d)), StopOwner(id)), RenewClaim(id, t', d'));
            && Holding(w3, id, Renewed, t' + d') && w3.workers[id].sandbox == s
            && w3.store.fleet.leases == w.store.fleet.leases
  {
    hide Good, Do, Ready, Holding, Due;
    var w1 := Do(w, TakeClaim(s, id, owner, t, d));
    TakeHolds(w, s, id, owner, t, d);
    StopHolds(w1, id, t + d);
    RenewHolds(Do(w1, StopOwner(id)), id, t + d, t', d');
    ClaimKeepsTables(w, s, id, owner, t, d, t', d');
    HoldingIs(Do(Do(w1, StopOwner(id)), RenewClaim(id, t', d')), id, Renewed, t' + d');
  }

  lemma HoldingIs(w: World, id: ClaimId, phase: Phase, until: Time)
    requires Holding(w, id, phase, until)
    ensures id in w.workers
  {
  }

  lemma GoodIs(w: World)
    requires Good(w)
    ensures Ready(w)
  {
    GoodParts(w);
    hide Good, Ready, Safe, WorkersOk, Enrolled;
  }

  lemma SameObserved(f: Fleet, f': Fleet, s: SandboxId, assignments: seq<Assignment>)
    requires AllObserved(f, s, assignments) && f'.leases == f.leases
    ensures AllObserved(f', s, assignments)
  {
    forall x | x in f'.leases && f'.leases[x].sandbox == s
      ensures exists i :: 0 <= i < |assignments| && assignments[i].session == x && SameLease(f', s, assignments[i])
    {
      var i :| 0 <= i < |assignments| && assignments[i].session == x && SameLease(f, s, assignments[i]);
      assert SameLease(f', s, assignments[i]);
    }
  }

  lemma ClaimKeepsTables(w: World, s: SandboxId, id: ClaimId, owner: InstanceId, t: Time, d: nat, t': Time, d': nat)
    requires id !in w.workers && Due(w.store.fleet.retirements, s, t)
    ensures var w3 := Do(Do(Do(w, TakeClaim(s, id, owner, t, d)), StopOwner(id)), RenewClaim(id, t', d'));
            w3.store.fleet.leases == w.store.fleet.leases && id in w3.workers && w3.workers[id].sandbox == s
  {
    hide Good, Ready;
  }

  lemma CompletionKeepsTables(w: World, id: ClaimId)
    ensures var f' := Do(w, CompleteClaim(id)).store.fleet;
            f'.leases == w.store.fleet.leases && f'.sandboxes == w.store.fleet.sandboxes
  {
    hide Good, Ready, C.Complete;
  }

  // ------------------------------------------------------------------ who can end a claim

  /** The row `s` is claimed under `id`. */
  ghost predicate ClaimedBy(f: Fleet, s: SandboxId, id: ClaimId) {
    s in f.retirements && f.retirements[s].claim.Some? && f.retirements[s].claim.value.id == id
  }

  /** What may end a claim: its own holder, or somebody who takes it once it has run out. */
  predicate MayEnd(w: World, step: Step, s: SandboxId, id: ClaimId) {
    match step
    case TakeClaim(b, _, _, now, _) =>
      b == s && s in w.store.fleet.retirements && w.store.fleet.retirements[s].claim.Some? && w.store.fleet.retirements[s].claim.value.until <= now
    case CompleteClaim(other) => other == id
    case FailClaim(other, _, _, _) => other == id
    case _ => false
  }

  lemma SameClaim(f: Fleet, f': Fleet, s: SandboxId, id: ClaimId)
    requires ClaimedBy(f, s, id) && s in f'.retirements && f'.retirements[s] == f.retirements[s]
    ensures ClaimedBy(f', s, id)
  {
  }

  lemma TakeKeepsClaim(w: World, b: SandboxId, other: ClaimId, owner: InstanceId, now: Time, duration: nat,
                       s: SandboxId,
                       id: ClaimId)
    requires ClaimShape(w.store.fleet.retirements) && ClaimedBy(w.store.fleet, s, id)
    requires !MayEnd(w, TakeClaim(b, other, owner, now, duration), s, id)
    ensures ClaimedBy(ClaimDue(w, b, other, owner, now, duration).store.fleet, s, id)
  {
  }

  lemma HolderKeepsClaim(w: World, other: ClaimId, retryable: bool, now: Time, span: nat, s: SandboxId, id: ClaimId)
    requires ClaimedBy(w.store.fleet, s, id)
    ensures ClaimedBy(Stop(w, other).store.fleet, s, id) && ClaimedBy(Renewal(w, other, now, span).store.fleet, s, id)
    ensures other != id ==>
              && ClaimedBy(Completion(w, other).store.fleet, s, id)
              && ClaimedBy(Failure(w, other, retryable, now, span).store.fleet, s, id)
  {
    hide C.Terminated;
  }

  lemma WorkerKeepsClaim(w: World, step: Step, s: SandboxId, id: ClaimId)
    requires Good(w) && IsWorkerStep(step) && ClaimedBy(w.store.fleet, s, id) && !MayEnd(w, step, s, id)
    ensures ClaimedBy(Do(w, step).store.fleet, s, id)
  {
    hide Good, Ready, Retire, ClaimDue, Stop, Renewal, Completion, Failure, Linked, OneActive, Serving, RetiredClosed,
      ClaimShape, ClaimedBy;
    ConnectionParts(w);
    ClaimedRow(w.store.fleet, s, id);
    match step {
      case RetireSandbox(other, assignments, now) =>
        RetireRows(w, other, assignments, now);
        SameClaim(w.store.fleet, Retire(w, other, assignments, now).store.fleet, s, id);
      case TakeClaim(b, other, owner, now, duration) => TakeKeepsClaim(w, b, other, owner, now, duration, s, id);
      case StopOwner(other) => HolderKeepsClaim(w, other, false, 0, 0, s, id);
      case RenewClaim(other, now, duration) => HolderKeepsClaim(w, other, false, now, duration, s, id);
      case CompleteClaim(other) => HolderKeepsClaim(w, other, false, 0, 0, s, id);
      case FailClaim(other, retryable, now, delay) => HolderKeepsClaim(w, other, retryable, now, delay, s, id);
    }
  }

  lemma ClaimedRow(f: Fleet, s: SandboxId, id: ClaimId)
    requires ClaimedBy(f, s, id)
    ensures s in f.retirements
  {
  }

  lemma TableKeepsClaim(w: World, step: Step, s: SandboxId, id: ClaimId)
    requires Good(w) && !IsWorkerStep(step) && ClaimedBy(w.store.fleet, s, id)
    ensures ClaimedBy(Do(w, step).store.fleet, s, id)
  {
    hide Good, Do, ClaimedBy;
    TableGrows(w, step);
    GrownRow(w.store.fleet, Do(w, step).store.fleet, s, id);
  }

  lemma GrownRow(f: Fleet, f': Fleet, s: SandboxId, id: ClaimId)
    requires ClaimedBy(f, s, id) && RowsGrow(f, f')
    ensures ClaimedBy(f', s, id)
  {
  }

  /** No row of a retirement is changed. */
  ghost predicate RowsGrow(f: Fleet, f': Fleet) {
    forall s :: s in f.retirements ==> s in f'.retirements && f'.retirements[s] == f.retirements[s]
  }

  lemma GrowsRows(f: Fleet, f': Fleet)
    requires Grows(f, f')
    ensures RowsGrow(f, f')
  {
  }

  lemma SameRows(f: Fleet, f': Fleet)
    requires f'.retirements == f.retirements
    ensures RowsGrow(f, f')
  {
  }

  lemma TableGrows(w: World, step: Step)
    requires Good(w) && !IsWorkerStep(step)
    ensures RowsGrow(w.store.fleet, Do(w, step).store.fleet)
  {
    hide Good, Ready, ProvisionedFleet, Register, Heartbeat, Expire, L.Do, CanGrant, GrantLease, Extended, CanRelease;
    hide Drop, Quarantine, Reconciled, RowsGrow, Grows, NewlyQuarantined, Safe, WorkersOk, Enrolled, OnePerSandbox,
      RequestsUnique;
    var f := w.store.fleet;
    SameRows(f, f);
    match step {
      case Provision(p, conflict, maximum, allowed, now, ttl) =>
        ProvisionedRows(f, p, conflict, maximum, allowed, now, ttl);
      case RegisterBoot(r, now) =>
        if Ready(w) && r.connection !in f.connections {
          ReadyIs(w);
          RegisterGrows(f, r, now);
          GrowsRows(f, Register(f, r, now));
        }
      case Beat(c, a, instance, now, timeout) => BeatRows(f, c, a, instance, now, timeout);
      case ExpireConnection(c, now) =>
        ExpireGrows(f, c, now);
        GrowsRows(f, Expire(f, c, now));
      case Grant(x, c, b, lease) => GrantRows(w, x, c, b, lease);
      case RenewLease(x, until) => LeaseRows(f, x, 0, Lease(0, 0, 0, 0), until);
      case ReleaseLease(x) => LeaseRows(f, x, 0, Lease(0, 0, 0, 0), 0);
      case ReconcileExpired(b, targets, now) => ReconciledRows(w, b, targets, now);
      case QuarantineSandbox(b) => LeaseRows(f, 0, b, Lease(0, 0, 0, 0), 0);
      case _ =>
    }
    if Do(w, step).store.fleet.retirements == f.retirements {
      SameRows(f, Do(w, step).store.fleet);
    }
  }

  /**
   In every run a claim ends only by a step of its own holder, or by being taken once it has run out:
   no other step of anybody ends it.
   */
  lemma ClaimsEndProperly(steps: seq<Step>, step: Step, s: SandboxId, id: ClaimId)
    requires ClaimedBy(After(steps).store.fleet, s, id) && !ClaimedBy(Do(After(steps), step).store.fleet, s, id)
    ensures MayEnd(After(steps), step, s, id)
  {
    hide Good, Ready, After, Do, ClaimedBy, MayEnd;
    RunGood(steps);
    if !MayEnd(After(steps), step, s, id) {
      if IsWorkerStep(step) {
        WorkerKeepsClaim(After(steps), step, s, id);
      } else {
        TableKeepsClaim(After(steps), step, s, id);
      }
    }
  }

  // ------------------------------------------------------------------ a claim's operations, whoever calls them

  /**
   Each operation of a claim works if and only if the row is claimed under it by its owner; renewal
   also if it still runs, completion if the claimed boot's sandbox is terminated.
   */
  lemma ClaimOperationsIff(f: Fleet, s: SandboxId, supervisor: SupervisorId, boot: BootId, id: ClaimId,
                           owner: InstanceId,
                           retryable: bool, now: Time, span: nat)
    ensures var held := exists until: Time :: Claimed(f.retirements, s, id, owner, until);
            var running := exists until: Time :: Claimed(f.retirements, s, id, owner, until) && now < until;
            && (C.Renew(f.retirements, s, id, owner, now, span).Some? <==> running)
            && (C.Release(f.retirements, s, id, owner, retryable, now, span).Some? <==> held)
            && (C.Complete(f, s, supervisor, boot, id, owner).Some? <==>
                  held && s in f.sandboxes && f.sandboxes[s].state.Terminated? && f.sandboxes[s].supervisor == supervisor && f.sandboxes[s].boot == boot)
  {
    if C.Holds(f.retirements, s, id, owner) {
      assert Claimed(f.retirements, s, id, owner, f.retirements[s].claim.value.until);
    }
  }
}
