/**
 Reconciling the assignments of one sandbox: what is observed, what is planned from it, and the
 transactions that finalize leases and settle the sandbox's own row.
 */
module Reconciliation {
  import opened Common
  import opened SupervisorFleet
  import opened FleetSafety
  import A = Assignments
  import SM = StateMachines

  type Lives = map<SessionId, A.Lifecycle>

  datatype Store = Store(fleet: Fleet, lives: Lives)

  /** A lease as it was observed, with the turn and command it was running. */
  datatype Assignment = Assignment(
    session: SessionId,
    lease: nat,
    token: nat,
    validUntil: Time,
    command: Option<A.CommandId>,
    turn: Option<A.TurnId>)

  datatype Runtime = Runtime(
    id: nat,
    sandbox: SandboxId,
    supervisor: SupervisorId,
    boot: BootId,
    session: SessionId,
    lease: nat,
    token: nat,
    command: A.CommandId,
    turn: A.TurnId)

  datatype ReconcileError =
    | Invariant(cause: A.FinalizeError)
    | MultipleActive
    | Incomplete
    | NotFenced
    | SandboxMissing
    | RuntimeMismatch
    | InventoryFailed

  // ------------------------------------------------------------------ one lease

  /** The lease row is the very one that was observed. */
  predicate SameLease(f: Fleet, s: SandboxId, a: Assignment) {
    && a.session in f.leases
    && f.leases[a.session].id == a.lease && f.leases[a.session].sandbox == s && f.leases[a.session].token == a.token
  }

  predicate Finalizable(f: Fleet, s: SandboxId, a: Assignment, now: Time, requireExpired: bool) {
    SameLease(f, s, a) && (requireExpired ==> f.leases[a.session].validUntil <= now)
  }

  function FinalizeLease(st: Store, s: SandboxId, a: Assignment, now: Time, requireExpired: bool)
    : Result<(Store, A.Finalization), ReconcileError>
  {
    if !Finalizable(st.fleet, s, a, now, requireExpired) then Ok((st, A.Skipped))
    else if a.session !in st.lives then Err(Invariant(A.MissingRow))
    else
      match A.Finalize(st.lives[a.session], now)
      case Err(e) => Err(Invariant(e))
      case Ok((l, outcome)) =>
        Ok((Store(st.fleet.(leases := st.fleet.leases - {a.session}), st.lives[a.session := l]), outcome))
  }

  /** One transaction finalizes the assignments in order; any error rolls all of it back. */
  function FinalizeAll(st: Store, s: SandboxId, assignments: seq<Assignment>, now: Time, requireExpired: bool)
    : Result<(Store, seq<A.Finalization>), ReconcileError>
  {
    if assignments == [] then Ok((st, []))
    else
      var n := |assignments| - 1;
      match FinalizeAll(st, s, assignments[..n], now, requireExpired)
      case Err(e) => Err(e)
      case Ok((mid, outcomes)) =>
        match FinalizeLease(mid, s, assignments[n], now, requireExpired)
        case Err(e) => Err(e)
        case Ok((last, outcome)) => Ok((last, outcomes + [outcome]))
  }

  // ------------------------------------------------------------------ the sandbox row

  /** The count of remaining leases, and a serving sandbox is leased exactly when it has some. */
  function Synchronized(b: Sandbox, remaining: nat): Sandbox {
    b.(activeSessions := remaining,
       state := if b.state.Ready? && remaining > 0 then SM.SandboxState.Leased
                else if b.state.Leased? && remaining == 0 then SM.SandboxState.Ready
                else b.state)
  }

  function SynchronizeCapacity(f: Fleet, s: SandboxId): Fleet
    requires s in f.sandboxes
  {
    f.(sandboxes := f.sandboxes[s := Synchronized(f.sandboxes[s], |LeasesOn(f.leases, s)|)])
  }

  /** The transaction that commits an expired reconciliation. */
  function CommitExpired(st: Store, s: SandboxId, targets: seq<Assignment>, now: Time)
    : Result<(Store, seq<A.Finalization>), ReconcileError>
  {
    match FinalizeAll(st, s, targets, now, true)
    case Err(e) => Err(e)
    case Ok((after, outcomes)) =>
      if s !in after.fleet.sandboxes then Err(SandboxMissing)
      else Ok((after.(fleet := SynchronizeCapacity(after.fleet, s)), outcomes))
  }

  function Terminate(f: Fleet, s: SandboxId): Result<Fleet, ReconcileError> {
    if LeasesOn(f.leases, s) != {} then Err(Incomplete)
    else if s !in f.sandboxes then Err(SandboxMissing)
    else
      var b := f.sandboxes[s];
      if b.state.Terminated? then Ok(f)
      else if !b.state.Draining? && !b.state.Failed? && !b.state.Provisioning? then Err(NotFenced)
      else Ok(f.(sandboxes := f.sandboxes[s := b.(state := SM.SandboxState.Terminated, activeSessions := 0)]))
  }

  /** The transaction that commits a retirement. */
  function CommitRetirement(st: Store, s: SandboxId, assignments: seq<Assignment>, now: Time)
    : Result<(Store, seq<A.Finalization>), ReconcileError>
  {
    match FinalizeAll(st, s, assignments, now, false)
    case Err(e) => Err(e)
    case Ok((after, outcomes)) =>
      match Terminate(after.fleet, s)
      case Err(e) => Err(e)
      case Ok(f) => Ok((after.(fleet := f), outcomes))
  }

  function BeginRetirement(f: Fleet, s: SandboxId): Result<Fleet, ReconcileError> {
    if s !in f.sandboxes then Err(SandboxMissing)
    else
      var b := f.sandboxes[s];
      if b.state.Terminated? || b.state.Draining? || b.state.Failed? then Ok(f)
      else
        var next := if b.state.Provisioning? then SM.SandboxState.Failed else SM.SandboxState.Draining;
        Ok(f.(sandboxes := f.sandboxes[s := b.(state := next)]))
  }

  /** After an error the sandbox is taken out of service. */
  function Quarantine(f: Fleet, s: SandboxId): Fleet {
    if s !in f.sandboxes || f.sandboxes[s].state.Failed? || f.sandboxes[s].state.Terminated? then f
    else f.(sandboxes := f.sandboxes[s := f.sandboxes[s].(state := SM.SandboxState.Failed)])
  }

  /** The sandbox a quarantine has just taken out of service. */
  function NewlyQuarantined(f: Fleet, s: SandboxId): set<SandboxId> {
    if Quarantine(f, s) == f then {} else {s}
  }

  // ------------------------------------------------------------------ what one transaction does to the leases

  ghost predicate Targeted(f: Fleet, s: SandboxId, assignments: seq<Assignment>, now: Time, requireExpired: bool,
                           x: SessionId) {
    exists i :: 0 <= i < |assignments| && assignments[i].session == x && Finalizable(f, s, assignments[i], now, requireExpired)
  }

  /** Nothing but leases of `s` that were observed, and still are as observed, is gone from the fleet's tables. */
  ghost predicate LeasesRemoved(before: Fleet, after: Fleet, s: SandboxId, assignments: seq<Assignment>, now: Time,
                                requireExpired: bool) {
    && after == before.(leases := after.leases)
    && (forall x :: x in after.leases ==> x in before.leases && after.leases[x] == before.leases[x])
    && (forall x :: x in before.leases && x !in after.leases ==> Targeted(before, s, assignments, now, requireExpired, x))
  }

  predicate LostLease(before: Store, after: Store, x: SessionId) {
    x in before.fleet.leases && x !in after.fleet.leases
  }

  /** Exactly the sessions that lost their lease have been finalized. */
  ghost predicate LivesFinalized(before: Store, after: Store, now: Time) {
    && after.lives.Keys == before.lives.Keys
    && (forall x :: LostLease(before, after, x) ==>
          x in before.lives && A.Finalize(before.lives[x], now).Ok? && after.lives[x] == A.Finalize(before.lives[x], now).value.0)
    && (forall x :: x in before.lives && !LostLease(before, after, x) ==> after.lives[x] == before.lives[x])
  }

  ghost predicate OnlyFinalized(before: Store, after: Store, s: SandboxId, assignments: seq<Assignment>, now: Time,
                                requireExpired: bool) {
    && LeasesRemoved(before.fleet, after.fleet, s, assignments, now, requireExpired)
    && LivesFinalized(before, after, now)
  }

  lemma FinalizeLeaseChanges(st: Store, s: SandboxId, a: Assignment, now: Time, requireExpired: bool)
    ensures var r := FinalizeLease(st, s, a, now, requireExpired);
            r.Ok? ==>
              && (r.value.1.Skipped? ==> r.value.0 == st)
              && (r.value.1.Skipped? <==> !Finalizable(st.fleet, s, a, now, requireExpired))
              && (!r.value.1.Skipped? ==>
                    && a.session in st.lives && A.Finalize(st.lives[a.session], now).Ok?
                    && r.value.0.fleet == st.fleet.(leases := st.fleet.leases - {a.session})
                    && r.value.0.lives == st.lives[a.session := A.Finalize(st.lives[a.session], now).value.0])
  {
    if a.session in st.lives {
      NeverSkipped(st.lives[a.session], now);
    }
    hide A.Finalize, Finalizable;
  }

  lemma NeverSkipped(l: A.Lifecycle, now: Time)
    ensures A.Finalize(l, now).Ok? ==> !A.Finalize(l, now).value.1.Skipped?
  {
    hide A.CanFailEverything, A.CanRequeue, A.SafelyUnacknowledged, A.ExecuteCommands, A.ActiveTurns, A.Requeue,
      A.FailEverything;
  }

  lemma RemovedLonger(before: Fleet, after: Fleet, s: SandboxId, assignments: seq<Assignment>, a: Assignment,
                      now: Time, requireExpired: bool)
    requires LeasesRemoved(before, after, s, assignments, now, requireExpired)
    ensures LeasesRemoved(before, after, s, assignments + [a], now, requireExpired)
  {
    var more := assignments + [a];
    forall x | x in before.leases && x !in after.leases
      ensures Targeted(before, s, more, now, requireExpired, x)
    {
      var i :| 0 <= i < |assignments| && assignments[i].session == x && Finalizable(before, s, assignments[i], now, requireExpired);
      assert more[i] == assignments[i];
    }
    hide Finalizable, Targeted;
  }

  lemma OneMoreRemoved(before: Fleet, mid: Fleet, after: Fleet, s: SandboxId, assignments: seq<Assignment>,
                       a: Assignment, now: Time, requireExpired: bool)
    requires LeasesRemoved(before, mid, s, assignments, now, requireExpired)
    requires Finalizable(mid, s, a, now, requireExpired)
    requires after == mid.(leases := mid.leases - {a.session})
    ensures LeasesRemoved(before, after, s, assignments + [a], now, requireExpired)
  {
    var more := assignments + [a];
    assert Targeted(before, s, more, now, requireExpired, a.session) by {
      assert more[|assignments|] == a && Finalizable(before, s, a, now, requireExpired);
    }
    RemovedLonger(before, mid, s, assignments, a, now, requireExpired);
    hide Finalizable, Targeted;
  }

  lemma OneMoreLife(before: Store, mid: Store, after: Store, x: SessionId, now: Time)
    requires LivesFinalized(before, mid, now)
    requires forall y :: y in mid.fleet.leases ==> y in before.fleet.leases
    requires x in mid.fleet.leases && x in mid.lives && A.Finalize(mid.lives[x], now).Ok?
    requires after.fleet.leases == mid.fleet.leases - {x}
    requires after.lives == mid.lives[x := A.Finalize(mid.lives[x], now).value.0]
    ensures LivesFinalized(before, after, now)
  {
    hide A.Finalize, LostLease;
    OneMoreLost(before, mid, after, x);
    assert mid.lives[x] == before.lives[x];
  }

  lemma OneMoreLost(before: Store, mid: Store, after: Store, x: SessionId)
    requires forall y :: y in mid.fleet.leases ==> y in before.fleet.leases
    requires x in mid.fleet.leases && after.fleet.leases == mid.fleet.leases - {x}
    ensures forall y :: LostLease(before, after, y) <==> y == x || LostLease(before, mid, y)
    ensures !LostLease(before, mid, x)
  {
  }

  lemma OneMoreFinalized(before: Store, mid: Store, after: Store, s: SandboxId, assignments: seq<Assignment>,
                         a: Assignment, now: Time, requireExpired: bool)
    requires OnlyFinalized(before, mid, s, assignments, now, requireExpired)
    requires Finalizable(mid.fleet, s, a, now, requireExpired)
    requires a.session in mid.lives && A.Finalize(mid.lives[a.session], now).Ok?
    requires after.fleet == mid.fleet.(leases := mid.fleet.leases - {a.session})
    requires after.lives == mid.lives[a.session := A.Finalize(mid.lives[a.session], now).value.0]
    ensures OnlyFinalized(before, after, s, assignments + [a], now, requireExpired)
  {
    OneMoreRemoved(before.fleet, mid.fleet, after.fleet, s, assignments, a, now, requireExpired);
    hide LivesFinalized, Targeted, A.Finalize;
    OneMoreLife(before, mid, after, a.session, now);
  }

  /** A committed batch removes observed leases only, each as the observation had it, and touches no other session. */
  lemma {:induction false} FinalizeAllChanges(st: Store, s: SandboxId, assignments: seq<Assignment>, now: Time,
                                              requireExpired: bool)
    ensures var r := FinalizeAll(st, s, assignments, now, requireExpired);
            r.Ok? ==> OnlyFinalized(st, r.value.0, s, assignments, now, requireExpired) && |r.value.1| == |assignments|
  {
    hide LeasesRemoved, LivesFinalized, FinalizeLease, Finalizable, A.Finalize;
    if assignments == [] {
      NothingFinalized(st, s, now, requireExpired);
    } else {
      var n := |assignments| - 1;
      FinalizeAllChanges(st, s, assignments[..n], now, requireExpired);
      assert assignments[..n] + [assignments[n]] == assignments;
      var m := FinalizeAll(st, s, assignments[..n], now, requireExpired);
      if m.Ok? {
        var mid := m.value.0;
        FinalizeLeaseChanges(mid, s, assignments[n], now, requireExpired);
        var r := FinalizeLease(mid, s, assignments[n], now, requireExpired);
        if r.Ok? {
          if r.value.1.Skipped? {
            RemovedLonger(st.fleet, mid.fleet, s, assignments[..n], assignments[n], now, requireExpired);
          } else {
            OneMoreFinalized(st, mid, r.value.0, s, assignments[..n], assignments[n], now, requireExpired);
          }
        }
      }
    }
  }

  lemma NothingFinalized(st: Store, s: SandboxId, now: Time, requireExpired: bool)
    ensures OnlyFinalized(st, st, s, [], now, requireExpired)
  {
  }

  lemma StillGone(before: Fleet, after: Fleet, s: SandboxId, a: Assignment, now: Time, requireExpired: bool)
    requires forall x :: x in after.leases ==> x in before.leases && after.leases[x] == before.leases[x]
    requires !Finalizable(before, s, a, now, requireExpired)
    ensures !Finalizable(after, s, a, now, requireExpired)
  {
  }

  /** After a committed batch no observed lease is left that the batch should have finalized. */
  lemma {:induction false} FinalizeAllExhausts(st: Store, s: SandboxId, assignments: seq<Assignment>, now: Time,
                                               requireExpired: bool, i: nat)
    requires i < |assignments| && FinalizeAll(st, s, assignments, now, requireExpired).Ok?
    ensures !Finalizable(FinalizeAll(st, s, assignments, now, requireExpired).value.0.fleet, s, assignments[i], now, requireExpired)
  {
    hide Finalizable, FinalizeLease, A.Finalize, LivesFinalized, Targeted;
    var n := |assignments| - 1;
    var mid := FinalizeAll(st, s, assignments[..n], now, requireExpired).value.0;
    var after := FinalizeAll(st, s, assignments, now, requireExpired).value.0;
    FinalizeLeaseChanges(mid, s, assignments[n], now, requireExpired);
    if i < n {
      FinalizeAllExhausts(st, s, assignments[..n], now, requireExpired, i);
      assert assignments[..n][i] == assignments[i];
      StillGone(mid.fleet, after.fleet, s, assignments[i], now, requireExpired);
    } else {
      LeaseGone(mid.fleet, after.fleet, s, assignments[n], now, requireExpired);
    }
  }

  lemma LeaseGone(mid: Fleet, after: Fleet, s: SandboxId, a: Assignment, now: Time, requireExpired: bool)
    requires (after == mid && !Finalizable(mid, s, a, now, requireExpired)) || after.leases == mid.leases - {a.session}
    ensures !Finalizable(after, s, a, now, requireExpired)
  {
  }

  // ------------------------------------------------------------------ expired reconciliation is exact

  /** Each lease that a committed reconciliation ended is a target, still as observed and still expired. */
  lemma ExpiredTargetsOnly(st: Store, s: SandboxId, targets: seq<Assignment>, now: Time, x: SessionId)
    requires CommitExpired(st, s, targets, now).Ok?
    requires LostLease(st, CommitExpired(st, s, targets, now).value.0, x)
    ensures st.fleet.leases[x].sandbox == s && st.fleet.leases[x].validUntil <= now
    ensures exists i :: 0 <= i < |targets| && targets[i].session == x &&
              targets[i].lease == st.fleet.leases[x].id && targets[i].token == st.fleet.leases[x].token
  {
    FinalizeAllChanges(st, s, targets, now, true);
    hide LivesFinalized, FinalizeAll, A.Finalize;
    assert Targeted(st.fleet, s, targets, now, true, x);
  }

  lemma CommitKeepsLease(st: Store, s: SandboxId, targets: seq<Assignment>, now: Time)
    requires CommitExpired(st, s, targets, now).Ok?
    ensures var st' := CommitExpired(st, s, targets, now).value.0;
            && LivesFinalized(st, st', now)
            && (forall x :: x in st'.fleet.leases ==> x in st.fleet.leases && st'.fleet.leases[x] == st.fleet.leases[x])
  {
    FinalizeAllChanges(st, s, targets, now, true);
    var mid := FinalizeAll(st, s, targets, now, true).value.0;
    assert CommitExpired(st, s, targets, now).value.0.fleet.leases == mid.fleet.leases;
    hide A.Finalize, FinalizeAll, Targeted;
  }

  /**
   A committed retirement ends only leases of the sandbox that were observed under the same identity
   and token, and terminates only a sandbox that serves nobody any more.
   */
  lemma RetirementEndsObserved(st: Store, s: SandboxId, assignments: seq<Assignment>, now: Time, x: SessionId)
    requires CommitRetirement(st, s, assignments, now).Ok?
    ensures s in st.fleet.sandboxes && !st.fleet.sandboxes[s].state.Ready? && !st.fleet.sandboxes[s].state.Leased?
    ensures x in st.fleet.leases && x !in CommitRetirement(st, s, assignments, now).value.0.fleet.leases ==>
              && st.fleet.leases[x].sandbox == s
              && exists i :: 0 <= i < |assignments| && assignments[i].session == x &&
                   assignments[i].lease == st.fleet.leases[x].id && assignments[i].token == st.fleet.leases[x].token
  {
    FinalizeAllChanges(st, s, assignments, now, false);
    hide LivesFinalized, FinalizeAll, A.Finalize, LeasesOn;
    if x in st.fleet.leases && x !in CommitRetirement(st, s, assignments, now).value.0.fleet.leases {
      assert Targeted(st.fleet, s, assignments, now, false, x);
    }
  }

  /** A lease renewed since it was observed survives with its session untouched. */
  lemma RenewedUntouched(st: Store, s: SandboxId, targets: seq<Assignment>, now: Time, x: SessionId)
    requires CommitExpired(st, s, targets, now).Ok?
    requires x in st.fleet.leases && (st.fleet.leases[x].validUntil > now || st.fleet.leases[x].sandbox != s)
    ensures var st' := CommitExpired(st, s, targets, now).value.0;
            && x in st'.fleet.leases && st'.fleet.leases[x] == st.fleet.leases[x]
            && (x in st.lives ==> x in st'.lives && st'.lives[x] == st.lives[x])
  {
    CommitKeepsLease(st, s, targets, now);
    var st' := CommitExpired(st, s, targets, now).value.0;
    if x !in st'.fleet.leases {
      ExpiredTargetsOnly(st, s, targets, now, x);
    }
    hide CommitExpired, A.Finalize;
  }

  /** After a committed reconciliation every target is finalized, renewed or replaced. */
  lemma TargetsExhausted(st: Store, s: SandboxId, targets: seq<Assignment>, now: Time, i: nat)
    requires CommitExpired(st, s, targets, now).Ok? && i < |targets|
    ensures !Finalizable(CommitExpired(st, s, targets, now).value.0.fleet, s, targets[i], now, true)
  {
    FinalizeAllExhausts(st, s, targets, now, true, i);
    hide FinalizeAll;
  }

  /**
   The sandbox's counter is the number of leases left, and a serving sandbox is leased exactly when
   there are some.
   */
  lemma CapacityExact(st: Store, s: SandboxId, targets: seq<Assignment>, now: Time)
    requires CommitExpired(st, s, targets, now).Ok?
    ensures var f' := CommitExpired(st, s, targets, now).value.0.fleet;
            && s in st.fleet.sandboxes && s in f'.sandboxes
            && f'.sandboxes[s].activeSessions == |LeasesOn(f'.leases, s)|
            && (st.fleet.sandboxes[s].state.Ready? || st.fleet.sandboxes[s].state.Leased? ==>
                  if LeasesOn(f'.leases, s) == {} then f'.sandboxes[s].state.Ready? else f'.sandboxes[s].state.Leased?)
            && (!st.fleet.sandboxes[s].state.Ready? && !st.fleet.sandboxes[s].state.Leased? ==>
                  f'.sandboxes[s].state == st.fleet.sandboxes[s].state)
            && f'.sandboxes == st.fleet.sandboxes[s := f'.sandboxes[s]]
  {
    FinalizeAllChanges(st, s, targets, now, true);
    hide FinalizeAll, LivesFinalized, Targeted, LeasesOn;
    EmptyCount(LeasesOn(CommitExpired(st, s, targets, now).value.0.fleet.leases, s));
  }

  lemma EmptyCount<T>(xs: set<T>)
    ensures |xs| == 0 <==> xs == {}
  {
  }

  // ------------------------------------------------------------------ the plan

  predicate SameAssignment(r: Runtime, a: Assignment) {
    && r.session == a.session && r.lease == a.lease && r.token == a.token
    && a.command == Some(r.command) && a.turn == Some(r.turn)
  }

  predicate MatchesSome(r: Runtime, assignments: seq<Assignment>) {
    exists i :: 0 <= i < |assignments| && SameAssignment(r, assignments[i])
  }

  function ExpiredAmong(assignments: seq<Assignment>, now: Time): seq<Assignment> {
    if assignments == [] then []
    else
      var n := |assignments| - 1;
      ExpiredAmong(assignments[..n], now) + if assignments[n].validUntil <= now then [assignments[n]] else []
  }

  function TargetsOf(assignments: seq<Assignment>, now: Time, limit: nat): seq<Assignment> {
    var expired := ExpiredAmong(assignments, now);
    if |expired| <= limit then expired else expired[..limit]
  }

  function Orphans(runtimes: seq<Runtime>, durable: seq<Assignment>): seq<Runtime> {
    if runtimes == [] then []
    else
      var n := |runtimes| - 1;
      Orphans(runtimes[..n], durable) + if MatchesSome(runtimes[n], durable) then [] else [runtimes[n]]
  }

  predicate OnTarget(r: Runtime, targets: seq<Assignment>) {
    (exists i :: 0 <= i < |targets| && targets[i].lease == r.lease) && MatchesSome(r, targets)
  }

  function TargetRuntimes(runtimes: seq<Runtime>, targets: seq<Assignment>): seq<Runtime> {
    if runtimes == [] then []
    else
      var n := |runtimes| - 1;
      TargetRuntimes(runtimes[..n], targets) + if OnTarget(runtimes[n], targets) then [runtimes[n]] else []
  }

  /** Later runtimes replace earlier ones under the same identifier. */
  function ById(runtimes: seq<Runtime>): map<nat, Runtime> {
    if runtimes == [] then map[]
    else
      var n := |runtimes| - 1;
      ById(runtimes[..n])[runtimes[n].id := runtimes[n]]
  }

  function ToTerminate(runtimes: seq<Runtime>, durable: seq<Assignment>, targets: seq<Assignment>): map<nat, Runtime> {
    ById(Orphans(runtimes, durable) + TargetRuntimes(runtimes, targets))
  }

  lemma {:induction false} ExpiredAmongIs(assignments: seq<Assignment>, now: Time, a: Assignment)
    ensures a in ExpiredAmong(assignments, now) <==> a in assignments && a.validUntil <= now
  {
    if assignments != [] {
      var n := |assignments| - 1;
      ExpiredAmongIs(assignments[..n], now, a);
      assert assignments == assignments[..n] + [assignments[n]];
    }
  }

  lemma {:induction false} OrphansAre(runtimes: seq<Runtime>, durable: seq<Assignment>, r: Runtime)
    ensures r in Orphans(runtimes, durable) <==> r in runtimes && !MatchesSome(r, durable)
  {
    if runtimes != [] {
      var n := |runtimes| - 1;
      OrphansAre(runtimes[..n], durable, r);
      assert runtimes == runtimes[..n] + [runtimes[n]];
    }
    hide MatchesSome;
  }

  lemma {:induction false} TargetRuntimesAre(runtimes: seq<Runtime>, targets: seq<Assignment>, r: Runtime)
    ensures r in TargetRuntimes(runtimes, targets) <==> r in runtimes && MatchesSome(r, targets)
  {
    if runtimes != [] {
      var n := |runtimes| - 1;
      TargetRuntimesAre(runtimes[..n], targets, r);
      assert runtimes == runtimes[..n] + [runtimes[n]];
    }
  }

  lemma {:induction false} ByIdIs(runtimes: seq<Runtime>)
    ensures forall r :: r in runtimes ==> r.id in ById(runtimes)
    ensures forall k :: k in ById(runtimes) ==> ById(runtimes)[k] in runtimes && ById(runtimes)[k].id == k
  {
    if runtimes != [] {
      var n := |runtimes| - 1;
      ByIdIs(runtimes[..n]);
      assert runtimes == runtimes[..n] + [runtimes[n]];
    }
  }

  /**
   Every runtime the plan leaves running runs a durable assignment, and none that is a target;
   every runtime it stops is one that was listed and is an orphan or runs a target.
   */
  lemma PlanIsExact(runtimes: seq<Runtime>, durable: seq<Assignment>, now: Time, limit: nat)
    ensures var targets := TargetsOf(durable, now, limit);
            && (forall a :: a in targets ==> a in durable && a.validUntil <= now)
            && (forall r :: r in runtimes && r.id !in ToTerminate(runtimes, durable, targets) ==>
                  MatchesSome(r, durable) && !MatchesSome(r, targets))
            && (forall k :: k in ToTerminate(runtimes, durable, targets) ==>
                  var r := ToTerminate(runtimes, durable, targets)[k];
                  r in runtimes && r.id == k && (!MatchesSome(r, durable) || MatchesSome(r, targets)))
  {
    var targets := TargetsOf(durable, now, limit);
    hide MatchesSome, ToTerminate;
    forall a | a in targets
      ensures a in durable && a.validUntil <= now
    {
      ExpiredAmongIs(durable, now, a);
    }
    forall r | r in runtimes && r.id !in ToTerminate(runtimes, durable, targets)
      ensures MatchesSome(r, durable) && !MatchesSome(r, targets)
    {
      LeftRunning(runtimes, durable, targets, r);
    }
    forall k | k in ToTerminate(runtimes, durable, targets)
      ensures var r := ToTerminate(runtimes, durable, targets)[k];
              r in runtimes && r.id == k && (!MatchesSome(r, durable) || MatchesSome(r, targets))
    {
      Stopped(runtimes, durable, targets, k);
    }
  }

  ghost predicate ByExpiry(assignments: seq<Assignment>) {
    forall i, j :: 0 <= i < j < |assignments| ==> assignments[i].validUntil <= assignments[j].validUntil
  }

  lemma {:induction false} ExpiredByExpiry(assignments: seq<Assignment>, now: Time)
    requires ByExpiry(assignments)
    ensures ByExpiry(ExpiredAmong(assignments, now))
  {
    if assignments != [] {
      var n := |assignments| - 1;
      ExpiredByExpiry(assignments[..n], now);
      var before := ExpiredAmong(assignments[..n], now);
      forall i | 0 <= i < |before|
        ensures before[i].validUntil <= assignments[n].validUntil
      {
        ExpiredAmongIs(assignments[..n], now, before[i]);
      }
    }
  }

  lemma {:induction false} ExpiredOnce(assignments: seq<Assignment>, now: Time)
    requires OnePerSession(assignments)
    ensures OnePerSession(ExpiredAmong(assignments, now))
  {
    if assignments != [] {
      var n := |assignments| - 1;
      ExpiredOnce(assignments[..n], now);
      var before := ExpiredAmong(assignments[..n], now);
      forall i | 0 <= i < |before|
        ensures before[i].session != assignments[n].session
      {
        ExpiredAmongIs(assignments[..n], now, before[i]);
      }
    }
  }

  /**
   The targets are the first expired assignments, as many as the limit allows: an expired assignment
   is left out only if there are `limit` targets, none of which expires later than it does.
   */
  lemma TargetsExactly(assignments: seq<Assignment>, now: Time, limit: nat, a: Assignment)
    requires a in assignments && a.validUntil <= now
    ensures var targets := TargetsOf(assignments, now, limit);
            && |targets| <= limit
            && (a !in targets ==> |targets| == limit)
            && (OnePerSession(assignments) ==> OnePerSession(targets))
            && (ByExpiry(assignments) && a !in targets ==> forall t :: t in targets ==> t.validUntil <= a.validUntil)
  {
    var expired := ExpiredAmong(assignments, now);
    ExpiredAmongIs(assignments, now, a);
    if ByExpiry(assignments) {
      ExpiredByExpiry(assignments, now);
    }
    if OnePerSession(assignments) {
      ExpiredOnce(assignments, now);
    }
    hide ExpiredAmong;
    var k :| 0 <= k < |expired| && expired[k] == a;
    if k >= limit {
      assert forall i :: 0 <= i < limit ==> expired[..limit][i] == expired[i];
    } else if |expired| > limit {
      assert expired[..limit][k] == a;
    }
  }

  /**
   Fewer targets than the limit: a committed reconciliation leaves none of the leases observed as
   expired, but those renewed.
   */
  lemma AllExpiredDealtWith(st: Store, s: SandboxId, durable: seq<Assignment>, now: Time, limit: nat, a: Assignment)
    requires CommitExpired(st, s, TargetsOf(durable, now, limit), now).Ok?
    requires |TargetsOf(durable, now, limit)| < limit && a in durable && a.validUntil <= now
    ensures var f' := CommitExpired(st, s, TargetsOf(durable, now, limit), now).value.0.fleet;
            SameLease(f', s, a) ==> f'.leases[a.session].validUntil > now
  {
    hide CommitExpired, TargetsOf;
    TargetsExactly(durable, now, limit, a);
    var targets := TargetsOf(durable, now, limit);
    var i :| 0 <= i < |targets| && targets[i] == a;
    TargetsExhausted(st, s, targets, now, i);
  }

  /** No two assignments are of one session, and no two runtimes have one identifier. */
  predicate OnePerSession(durable: seq<Assignment>) {
    forall i, j :: 0 <= i < j < |durable| ==> durable[i].session != durable[j].session
  }

  predicate IdsUnique(runtimes: seq<Runtime>) {
    forall i, j :: 0 <= i < j < |runtimes| ==> runtimes[i].id != runtimes[j].id
  }

  lemma OnlyMatch(durable: seq<Assignment>, targets: seq<Assignment>, a: Assignment, r: Runtime)
    requires OnePerSession(durable) && a in durable && SameAssignment(r, a)
    requires forall t :: t in targets ==> t in durable
    ensures MatchesSome(r, durable)
    ensures MatchesSome(r, targets) <==> a in targets
  {
    if MatchesSome(r, targets) {
      var i :| 0 <= i < |targets| && SameAssignment(r, targets[i]);
      var m :| 0 <= m < |durable| && durable[m] == a;
      assert targets[i] in durable;
      var n :| 0 <= n < |durable| && durable[n] == targets[i];
    }
    if a in targets {
      var i :| 0 <= i < |targets| && targets[i] == a;
    }
  }

  /** A runtime that runs an observed assignment is stopped exactly if that assignment is a target. */
  lemma StoppedExactly(runtimes: seq<Runtime>, durable: seq<Assignment>, now: Time, limit: nat, a: Assignment,
                       r: Runtime)
    requires OnePerSession(durable) && IdsUnique(runtimes) && a in durable && r in runtimes && SameAssignment(r, a)
    ensures var targets := TargetsOf(durable, now, limit);
            r.id in ToTerminate(runtimes, durable, targets) <==> a in targets
  {
    var targets := TargetsOf(durable, now, limit);
    hide ToTerminate, TargetsOf, MatchesSome, OnePerSession, SameAssignment;
    PlanIsExact(runtimes, durable, now, limit);
    OnlyMatch(durable, targets, a, r);
    if r.id in ToTerminate(runtimes, durable, targets) {
      SameRuntime(runtimes, ToTerminate(runtimes, durable, targets)[r.id], r);
    }
  }

  lemma SameRuntime(runtimes: seq<Runtime>, q: Runtime, r: Runtime)
    requires IdsUnique(runtimes) && q in runtimes && r in runtimes && q.id == r.id
    ensures q == r
  {
    var i :| 0 <= i < |runtimes| && runtimes[i] == q;
    var j :| 0 <= j < |runtimes| && runtimes[j] == r;
  }

  lemma SurvivesIffRenewed(st: Store, s: SandboxId, targets: seq<Assignment>, now: Time, a: Assignment)
    requires CommitExpired(st, s, targets, now).Ok? && a in targets
    ensures SameLease(CommitExpired(st, s, targets, now).value.0.fleet, s, a) <==>
            SameLease(st.fleet, s, a) && st.fleet.leases[a.session].validUntil > now
  {
    var i :| 0 <= i < |targets| && targets[i] == a;
    hide CommitExpired;
    TargetsExhausted(st, s, targets, now, i);
    CommitKeepsLease(st, s, targets, now);
    hide LivesFinalized;
    if SameLease(st.fleet, s, a) && st.fleet.leases[a.session].validUntil > now {
      RenewedUntouched(st, s, targets, now, a.session);
    }
  }

  /**
   Of the leases observed, those that survive a committed reconciliation although their runtime was
   stopped are exactly the targets that were renewed between observation and commit; `st` is the
   tables at the commit.
   */
  lemma SurvivesStoppedIff(st: Store, s: SandboxId, runtimes: seq<Runtime>, durable: seq<Assignment>, now: Time,
                           limit: nat, a: Assignment, r: Runtime)
    requires CommitExpired(st, s, TargetsOf(durable, now, limit), now).Ok?
    requires OnePerSession(durable) && IdsUnique(runtimes) && a in durable && r in runtimes && SameAssignment(r, a)
    ensures var targets := TargetsOf(durable, now, limit);
            && (SameLease(CommitExpired(st, s, targets, now).value.0.fleet, s, a) && r.id in ToTerminate(runtimes, durable, targets) <==>
                  a in targets && SameLease(st.fleet, s, a) && st.fleet.leases[a.session].validUntil > now)
            && (a in targets ==> a.validUntil <= now)
  {
    var targets := TargetsOf(durable, now, limit);
    hide CommitExpired, TargetsOf, ToTerminate, SameAssignment, OnePerSession, IdsUnique, SameLease;
    PlanIsExact(runtimes, durable, now, limit);
    StoppedExactly(runtimes, durable, now, limit, a, r);
    if a in targets {
      SurvivesIffRenewed(st, s, targets, now, a);
    }
  }

  lemma LeftRunning(runtimes: seq<Runtime>, durable: seq<Assignment>, targets: seq<Assignment>, r: Runtime)
    requires r in runtimes && r.id !in ToTerminate(runtimes, durable, targets)
    ensures MatchesSome(r, durable) && !MatchesSome(r, targets)
  {
    OrphansAre(runtimes, durable, r);
    TargetRuntimesAre(runtimes, targets, r);
    ByIdIs(Orphans(runtimes, durable) + TargetRuntimes(runtimes, targets));
    hide MatchesSome, Orphans, TargetRuntimes, ById;
  }

  lemma Stopped(runtimes: seq<Runtime>, durable: seq<Assignment>, targets: seq<Assignment>, k: nat)
    requires k in ToTerminate(runtimes, durable, targets)
    ensures var r := ToTerminate(runtimes, durable, targets)[k];
            r in runtimes && r.id == k && (!MatchesSome(r, durable) || MatchesSome(r, targets))
  {
    var r := ToTerminate(runtimes, durable, targets)[k];
    ByIdIs(Orphans(runtimes, durable) + TargetRuntimes(runtimes, targets));
    OrphansAre(runtimes, durable, r);
    TargetRuntimesAre(runtimes, targets, r);
    hide MatchesSome, Orphans, TargetRuntimes, ById;
  }

  // ------------------------------------------------------------------ the fleet's invariant

  /** Ending leases of one sandbox leaves the counts of the others right. */
  ghost predicate LoadExcept(sandboxes: Sandboxes, leases: Leases, s: SandboxId) {
    forall b :: b in sandboxes && b != s ==>
      && sandboxes[b].activeSessions == |LeasesOn(leases, b)|
      && (sandboxes[b].state.Leased? ==> sandboxes[b].activeSessions > 0)
      && (sandboxes[b].state.Ready? || sandboxes[b].state.Provisioning? || sandboxes[b].state.Terminated? ==>
            sandboxes[b].activeSessions == 0)
  }

  lemma RemovedLoad(before: Fleet, after: Fleet, s: SandboxId, assignments: seq<Assignment>, now: Time,
                    requireExpired: bool)
    requires LeasesRemoved(before, after, s, assignments, now, requireExpired)
    requires Load(before.sandboxes, before.leases) && LeaseLinked(before.sandboxes, before.leases)
    ensures LoadExcept(after.sandboxes, after.leases, s) && LeaseLinked(after.sandboxes, after.leases)
    ensures forall x :: x in LeasesOn(after.leases, s) ==> x in LeasesOn(before.leases, s)
  {
    TargetedHere(before, s, assignments, now, requireExpired);
    forall b | b != s
      ensures LeasesOn(after.leases, b) == LeasesOn(before.leases, b)
    {
      hide Targeted;
    }
    hide LeasesOn, Targeted;
  }

  lemma TargetedHere(f: Fleet, s: SandboxId, assignments: seq<Assignment>, now: Time, requireExpired: bool)
    ensures forall x :: Targeted(f, s, assignments, now, requireExpired, x) ==> x in f.leases && f.leases[x].sandbox == s
  {
  }

  /** The tables that reconciling leaves alone, together. */
  ghost predicate Elsewhere(f: Fleet, quarantined: set<SandboxId>) {
    && Linked(f.sandboxes, f.connections) && OneActive(f.connections) && RequestsUnique(f.connections)
    && Serving(f.sandboxes, f.connections, quarantined) && Quarantined(f.sandboxes, quarantined)
    && RetirementLinked(f.sandboxes, f.retirements) && RetiredClosed(f.connections, f.retirements)
    && ClaimShape(f.retirements) && CredentialsUnique(f.credentials) && Enrolled(f.sandboxes, f.credentials)
  }

  lemma SafeIs(f: Fleet, quarantined: set<SandboxId>)
    ensures Safe(f, quarantined) <==>
            Elsewhere(f, quarantined) && Load(f.sandboxes, f.leases) && LeaseLinked(f.sandboxes, f.leases)
  {
    hide Linked, OneActive, RequestsUnique, Serving, Quarantined, RetirementLinked, RetiredClosed, ClaimShape,
      CredentialsUnique, Enrolled, Load, LeaseLinked;
  }

  /** One sandbox row changes its counter, and its state among the states that mean the same to the other tables. */
  ghost predicate RowChanged(f: Fleet, f': Fleet, s: SandboxId) {
    && s in f.sandboxes && s in f'.sandboxes
    && f' == f.(sandboxes := f.sandboxes[s := f'.sandboxes[s]], leases := f'.leases)
    && f'.sandboxes[s].supervisor == f.sandboxes[s].supervisor && f'.sandboxes[s].boot == f.sandboxes[s].boot
  }

  /** Swapping ready and leased, or nothing. */
  predicate SameService(a: SM.SandboxState, b: SM.SandboxState) {
    a == b || ((a.Ready? || a.Leased?) && (b.Ready? || b.Leased?))
  }

  lemma SameServiceElsewhere(f: Fleet, f': Fleet, s: SandboxId, quarantined: set<SandboxId>)
    requires Elsewhere(f, quarantined) && RowChanged(f, f', s)
    requires SameService(f.sandboxes[s].state, f'.sandboxes[s].state)
    ensures Elsewhere(f', quarantined)
  {
    RowLinked(f, f', s);
    RowServing(f, f', s, quarantined);
    hide Linked, OneActive, RequestsUnique, Serving, Quarantined, RetiredClosed, ClaimShape, CredentialsUnique,
      Enrolled;
  }

  lemma RowLinked(f: Fleet, f': Fleet, s: SandboxId)
    requires RowChanged(f, f', s)
    ensures Linked(f.sandboxes, f.connections) && !f'.sandboxes[s].state.Provisioning? ==> Linked(f'.sandboxes, f.connections)
    ensures Linked(f.sandboxes, f.connections) && f.sandboxes[s].state.Provisioning? ==> Linked(f'.sandboxes, f.connections)
    ensures Enrolled(f.sandboxes, f.credentials) ==> Enrolled(f'.sandboxes, f.credentials)
  {
  }

  lemma RowServing(f: Fleet, f': Fleet, s: SandboxId, quarantined: set<SandboxId>)
    requires RowChanged(f, f', s) && SameService(f.sandboxes[s].state, f'.sandboxes[s].state)
    requires Serving(f.sandboxes, f.connections, quarantined) && Quarantined(f.sandboxes, quarantined)
    ensures Serving(f'.sandboxes, f.connections, quarantined) && Quarantined(f'.sandboxes, quarantined)
  {
    hide ActiveOn;
  }

  lemma SynchronizedLoad(f: Fleet, s: SandboxId, quarantined: set<SandboxId>)
    requires LoadExcept(f.sandboxes, f.leases, s) && s in f.sandboxes
    requires f.sandboxes[s].state.Provisioning? || f.sandboxes[s].state.Terminated? ==> LeasesOn(f.leases, s) == {}
    ensures Load(SynchronizeCapacity(f, s).sandboxes, f.leases)
  {
    hide LeasesOn;
  }

  lemma LoadEmpty(f: Fleet, s: SandboxId)
    requires Load(f.sandboxes, f.leases) && s in f.sandboxes
    requires f.sandboxes[s].state.Provisioning? || f.sandboxes[s].state.Terminated?
    ensures LeasesOn(f.leases, s) == {}
  {
    hide LeasesOn;
    EmptyCount(LeasesOn(f.leases, s));
  }

  lemma CommitExpiredSafe(st: Store, s: SandboxId, targets: seq<Assignment>, now: Time, quarantined: set<SandboxId>)
    requires Safe(st.fleet, quarantined) && CommitExpired(st, s, targets, now).Ok?
    ensures Safe(CommitExpired(st, s, targets, now).value.0.fleet, quarantined)
  {
    var f := st.fleet;
    FinalizeAllChanges(st, s, targets, now, true);
    var mid := FinalizeAll(st, s, targets, now, true).value.0.fleet;
    var f' := SynchronizeCapacity(mid, s);
    hide FinalizeAll, LivesFinalized, Targeted, Load, LoadExcept, LeaseLinked, Elsewhere, Safe, LeasesOn;
    SafeIs(f, quarantined);
    SafeIs(f', quarantined);
    RemovedLoad(f, mid, s, targets, now, true);
    if f.sandboxes[s].state.Provisioning? || f.sandboxes[s].state.Terminated? {
      LoadEmpty(f, s);
    }
    SynchronizedLoad(mid, s, quarantined);
    SameServiceElsewhere(f, f', s, quarantined);
    assert LeaseLinked(f'.sandboxes, f'.leases) by {
      SameKeysLinked(mid.sandboxes, f'.sandboxes, mid.leases);
    }
  }

  lemma SameKeysLinked(a: Sandboxes, b: Sandboxes, leases: Leases)
    requires LeaseLinked(a, leases) && a.Keys == b.Keys
    ensures LeaseLinked(b, leases)
  {
  }

  lemma TerminateRow(f: Fleet, s: SandboxId)
    requires Terminate(f, s).Ok?
    ensures RowChanged(f, Terminate(f, s).value, s)
    ensures Terminate(f, s).value.leases == f.leases && LeasesOn(f.leases, s) == {}
    ensures Terminate(f, s).value.sandboxes[s].state.Terminated?
    ensures !f.sandboxes[s].state.Terminated? ==> Terminate(f, s).value.sandboxes[s].activeSessions == 0
    ensures f.sandboxes[s].state.Terminated? ==> Terminate(f, s).value == f
  {
    hide LeasesOn;
  }

  /**
   Retirement's commit terminates the sandbox with no lease left, and keeps the invariant for one
   under retirement.
   */
  lemma CommitRetirementSafe(st: Store, s: SandboxId, assignments: seq<Assignment>, now: Time,
                             quarantined: set<SandboxId>)
    requires Safe(st.fleet, quarantined) && s in st.fleet.retirements
    requires CommitRetirement(st, s, assignments, now).Ok?
    ensures Safe(CommitRetirement(st, s, assignments, now).value.0.fleet, quarantined)
    ensures s in CommitRetirement(st, s, assignments, now).value.0.fleet.sandboxes
    ensures CommitRetirement(st, s, assignments, now).value.0.fleet.sandboxes[s].state.Terminated?
    ensures LeasesOn(CommitRetirement(st, s, assignments, now).value.0.fleet.leases, s) == {}
  {
    var f := st.fleet;
    FinalizeAllChanges(st, s, assignments, now, false);
    var mid := FinalizeAll(st, s, assignments, now, false).value.0.fleet;
    var f' := CommitRetirement(st, s, assignments, now).value.0.fleet;
    hide FinalizeAll, LivesFinalized, Targeted, Load, LoadExcept, LeaseLinked, Elsewhere, Safe, LeasesOn, Terminate;
    TerminateRow(mid, s);
    SafeIs(f, quarantined);
    SafeIs(f', quarantined);
    RemovedLoad(f, mid, s, assignments, now, false);
    TerminatedElsewhere(f, f', s, quarantined);
    TerminatedCount(f, mid, f', s);
    TerminatedLoad(f, mid, f', s);
    SameKeysLinked(mid.sandboxes, f'.sandboxes, mid.leases);
  }

  lemma TerminatedCount(f: Fleet, mid: Fleet, f': Fleet, s: SandboxId)
    requires Load(f.sandboxes, f.leases) && s in f.sandboxes && mid.sandboxes == f.sandboxes && s in f'.sandboxes
    requires f.sandboxes[s].state.Terminated? ==> f' == mid
    requires !f.sandboxes[s].state.Terminated? ==> f'.sandboxes[s].activeSessions == 0
    ensures f'.sandboxes[s].activeSessions == 0
  {
    hide LeasesOn;
  }

  lemma TerminatedServing(f: Fleet, f': Fleet, s: SandboxId, quarantined: set<SandboxId>)
    requires Serving(f.sandboxes, f.connections, quarantined) && RetiredClosed(f.connections, f.retirements)
    requires Quarantined(f.sandboxes, quarantined) && s in f.retirements && RowChanged(f, f', s)
    requires f'.sandboxes[s].state.Terminated?
    ensures Serving(f'.sandboxes, f.connections, quarantined) && Quarantined(f'.sandboxes, quarantined)
  {
    hide ActiveOn;
  }

  lemma TerminatedRetirements(f: Fleet, f': Fleet, s: SandboxId)
    requires RetirementLinked(f.sandboxes, f.retirements) && RowChanged(f, f', s) && f'.sandboxes[s].state.Terminated?
    ensures RetirementLinked(f'.sandboxes, f.retirements)
  {
  }

  lemma TerminatedElsewhere(f: Fleet, f': Fleet, s: SandboxId, quarantined: set<SandboxId>)
    requires Elsewhere(f, quarantined) && s in f.retirements && RowChanged(f, f', s)
    requires f'.sandboxes[s].state.Terminated?
    ensures Elsewhere(f', quarantined)
  {
    RowLinked(f, f', s);
    TerminatedServing(f, f', s, quarantined);
    TerminatedRetirements(f, f', s);
    hide Linked, OneActive, RequestsUnique, ClaimShape, CredentialsUnique, Enrolled, Serving, Quarantined,
      RetiredClosed, RetirementLinked;
  }

  lemma TerminatedLoad(f: Fleet, mid: Fleet, f': Fleet, s: SandboxId)
    requires s in f.sandboxes && s in mid.sandboxes && mid.sandboxes == f.sandboxes
    requires LoadExcept(mid.sandboxes, mid.leases, s) && LeasesOn(mid.leases, s) == {}
    requires f'.leases == mid.leases
    requires s in f'.sandboxes && f'.sandboxes == mid.sandboxes[s := f'.sandboxes[s]]
    requires f'.sandboxes[s].state.Terminated? && f'.sandboxes[s].activeSessions == 0
    ensures Load(f'.sandboxes, f'.leases)
  {
    hide LeasesOn;
  }

  lemma BeginRetirementSafe(f: Fleet, s: SandboxId, quarantined: set<SandboxId>)
    requires Safe(f, quarantined) && s in f.retirements
    ensures BeginRetirement(f, s) == Ok(f)
  {
  }

  lemma QuarantineSafe(f: Fleet, s: SandboxId, quarantined: set<SandboxId>)
    requires Safe(f, quarantined)
    ensures Safe(Quarantine(f, s), quarantined + NewlyQuarantined(f, s))
  {
    var f' := Quarantine(f, s);
    if f' != f {
      SafeIs(f, quarantined);
      SafeIs(f', quarantined + {s});
      hide Safe, Elsewhere, Load;
      QuarantineLoad(f, s);
      QuarantineElsewhere(f, s, quarantined);
      SameKeysLinked(f.sandboxes, f'.sandboxes, f.leases);
    } else {
      assert quarantined + {} == quarantined;
      hide Safe;
    }
  }

  lemma QuarantineLoad(f: Fleet, s: SandboxId)
    requires Load(f.sandboxes, f.leases)
    ensures Load(Quarantine(f, s).sandboxes, f.leases) && Quarantine(f, s).leases == f.leases
  {
    hide LeasesOn;
  }

  lemma QuarantineElsewhere(f: Fleet, s: SandboxId, quarantined: set<SandboxId>)
    requires Elsewhere(f, quarantined) && Quarantine(f, s) != f
    ensures Elsewhere(Quarantine(f, s), quarantined + {s})
  {
    var f' := Quarantine(f, s);
    RowLinked(f, f', s);
    assert Serving(f'.sandboxes, f'.connections, quarantined + {s}) by {
      hide Linked, OneActive, RequestsUnique, ClaimShape, CredentialsUnique, Enrolled, ActiveOn, RetirementLinked,
        RetiredClosed;
    }
    assert Quarantined(f'.sandboxes, quarantined + {s});
    assert RetirementLinked(f'.sandboxes, f'.retirements);
    hide Linked, OneActive, RequestsUnique, ClaimShape, CredentialsUnique, Enrolled, ActiveOn, Serving, RetiredClosed;
  }
}
