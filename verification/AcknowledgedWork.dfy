/** Over every run of the whole protocol, acknowledged work never runs again. */
module AcknowledgedWork {
  import opened SupervisorFleet
  import opened Reconciliation
  import opened SupervisorRuns
  import opened RetirementInvariant
  import opened SupervisorSafety
  import C = RetirementClaims
  import A = Assignments
  import L = LifecycleRuns

  // ------------------------------------------------------------------ acknowledged work, over the whole protocol

  /** No session disappears, and its commands only move along their transition table. */
  ghost predicate SessionsAdvance(lives: Lives, lives': Lives) {
    forall x :: x in lives ==> x in lives' && L.CommandsAdvance(lives[x], lives'[x])
  }

  lemma SessionsStay(lives: Lives)
    ensures SessionsAdvance(lives, lives)
  {
    forall x | x in lives
      ensures L.CommandsAdvance(lives[x], lives[x])
    {
      L.AdvanceRefl(lives[x]);
    }
    hide L.CommandsAdvance;
  }

  lemma FinalizedAdvance(before: Store, after: Store, now: Time)
    requires LivesFinalized(before, after, now)
    ensures SessionsAdvance(before.lives, after.lives)
  {
    hide A.Finalize, L.CommandsAdvance, LostLease;
    forall x | x in before.lives
      ensures L.CommandsAdvance(before.lives[x], after.lives[x])
    {
      L.AdvanceRefl(before.lives[x]);
      L.FinalizeAdvances(before.lives[x], now);
    }
  }

  lemma ExecuteAdvances(lives: Lives, x: SessionId, e: L.Event)
    requires x in lives
    ensures SessionsAdvance(lives, lives[x := L.Do(lives[x], e)])
  {
    SessionsStay(lives);
    L.DoAdvances(lives[x], e);
    hide L.CommandsAdvance, L.Do;
  }

  lemma RetireAdvances(w: World, id: ClaimId, assignments: seq<Assignment>, now: Time)
    requires Good(w)
    ensures SessionsAdvance(w.store.lives, Retire(w, id, assignments, now).store.lives)
  {
    SessionsStay(w.store.lives);
    if At(w, id, Renewed) {
      var s := w.workers[id].sandbox;
      BeginIsNothing(w, id);
      assert w.store.(fleet := w.store.fleet) == w.store;
      hide Good, CommitRetirement, BeginRetirement, LivesFinalized, SessionsAdvance;
      if CommitRetirement(w.store, s, assignments, now).Ok? {
        CommitRetirementRows(w.store, s, assignments, now);
        FinalizedAdvance(w.store, CommitRetirement(w.store, s, assignments, now).value.0, now);
      }
    }
    hide Good, BeginRetirement, CommitRetirement, SessionsAdvance;
  }

  lemma ReconciledAdvances(w: World, s: SandboxId, targets: seq<Assignment>, now: Time)
    ensures SessionsAdvance(w.store.lives, Reconciled(w, s, targets, now).store.lives)
  {
    SessionsStay(w.store.lives);
    hide CommitExpired, LivesFinalized, SessionsAdvance;
    if CommitExpired(w.store, s, targets, now).Ok? {
      CommitKeepsLease(w.store, s, targets, now);
      FinalizedAdvance(w.store, CommitExpired(w.store, s, targets, now).value.0, now);
    }
  }

  lemma WorkerStepLives(w: World, id: ClaimId, retryable: bool, now: Time, span: nat)
    ensures Renewal(w, id, now, span).store.lives == w.store.lives
    ensures Completion(w, id).store.lives == w.store.lives
    ensures Failure(w, id, retryable, now, span).store.lives == w.store.lives
    ensures Stop(w, id).store.lives == w.store.lives
  {
  }

  lemma DoAdvances(w: World, step: Step)
    requires Good(w) && Ready(w)
    ensures SessionsAdvance(w.store.lives, Do(w, step).store.lives)
  {
    SessionsStay(w.store.lives);
    hide Good, Ready, ProvisionedFleet, Register, Heartbeat, Expire, L.Do, CanGrant, GrantLease, Extended, CanRelease,
      Drop, Quarantine;
    hide Reconciled, Renewal, Completion, Failure, Stop, Retire, SessionsAdvance, NewlyQuarantined, C.Claimable, C.Take;
    match step {
      case OpenSession(x) => OpenAdvances(w.store.lives, x);
      case Execute(x, e) =>
        if x in w.store.lives {
          ExecuteAdvances(w.store.lives, x, e);
        }
      case ReconcileExpired(s, targets, now) => ReconciledAdvances(w, s, targets, now);
      case RetireSandbox(id, assignments, now) => RetireAdvances(w, id, assignments, now);
      case StopOwner(id) => WorkerStepLives(w, id, false, 0, 0);
      case RenewClaim(id, now, duration) => WorkerStepLives(w, id, false, now, duration);
      case CompleteClaim(id) => WorkerStepLives(w, id, false, 0, 0);
      case FailClaim(id, retryable, now, delay) => WorkerStepLives(w, id, retryable, now, delay);
      case _ =>
    }
  }

  lemma OpenAdvances(lives: Lives, x: SessionId)
    ensures x !in lives ==> SessionsAdvance(lives, lives[x := L.NEW_SESSION])
  {
    SessionsStay(lives);
    hide L.CommandsAdvance;
  }

  ghost predicate Acknowledged(lives: Lives, x: SessionId, c: A.CommandId) {
    x in lives && c in lives[x].commands && L.PastAcknowledgement(lives[x].commands[c].state)
  }

  lemma AcknowledgedStays(lives: Lives, lives': Lives, x: SessionId, c: A.CommandId)
    requires SessionsAdvance(lives, lives') && Acknowledged(lives, x, c)
    ensures Acknowledged(lives', x, c)
  {
  }

  /**
   Over every run of the whole protocol, with sandboxes expiring, being fenced and being retired
   at any point, a command once acknowledged is never pending or dispatched again.
   */
  lemma {:induction false} AcknowledgedNeverReruns(steps: seq<Step>, n: nat, x: SessionId, c: A.CommandId)
    requires n <= |steps| && Acknowledged(After(steps[..n]).store.lives, x, c)
    ensures Acknowledged(After(steps).store.lives, x, c)
  {
    hide Do, Good, Ready, Acknowledged, After, SessionsAdvance;
    if n == |steps| {
      assert steps[..n] == steps;
    } else {
      var before := steps[..|steps| - 1];
      assert before[..n] == steps[..n];
      AcknowledgedNeverReruns(before, n, x, c);
      RunGood(before);
      DoAdvances(After(before), steps[|steps| - 1]);
      RunStep(steps);
      AcknowledgedStays(After(before).store.lives, After(steps).store.lives, x, c);
    }
  }
}
