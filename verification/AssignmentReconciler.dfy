/**
 The assignment reconciler of one sandbox over its tables: the observation it works from, the
 transactions it commits and the row-by-row updates inside them.
 */
module AssignmentReconciler {
  import opened Common
  import opened SupervisorFleet
  import opened FleetSafety
  import opened Reconciliation
  import A = Assignments
  import SM = StateMachines

  datatype ReconciliationResult = ReconciliationResult(
    inspectedRuntimes: nat,
    terminatedRuntimes: nat,
    orphanRuntimes: nat,
    settledAssignments: nat,
    requeuedAssignments: nat)

  function CountRequeued(outcomes: seq<A.Finalization>): nat {
    if outcomes == [] then 0
    else CountRequeued(outcomes[..|outcomes| - 1]) + if outcomes[|outcomes| - 1].Requeued? then 1 else 0
  }

  function CountSettled(outcomes: seq<A.Finalization>): nat {
    if outcomes == [] then 0
    else
      var last := outcomes[|outcomes| - 1];
      CountSettled(outcomes[..|outcomes| - 1]) + if last.Settled? || last.Released? then 1 else 0
  }

  // ------------------------------------------------------------------ the observation

  /** Every lease of the sandbox once, in order of expiry. */
  ghost predicate LeaseRows(f: Fleet, s: SandboxId, rows: seq<SessionId>) {
    && (forall x :: x in rows <==> x in LeasesOn(f.leases, s))
    && (forall i, j :: 0 <= i < j < |rows| ==> rows[i] != rows[j])
    && (forall i, j :: 0 <= i < j < |rows| && rows[i] in f.leases && rows[j] in f.leases ==>
          f.leases[rows[i]].validUntil <= f.leases[rows[j]].validUntil)
  }

  /** What is recorded about one lease, unless more is active than there may be. */
  function Observe(lease: Lease, x: SessionId, l: A.Lifecycle): Result<Assignment, ReconcileError> {
    var active := A.ActiveTurns(l);
    if |active| > 1 then Err(MultipleActive)
    else if |active| == 0 then Ok(Assignment(x, lease.id, lease.token, lease.validUntil, None, None))
    else
      var t := A.Only(active);
      var commands := A.ExecuteCommands(l, t);
      if |commands| > 1 then Err(MultipleActive)
      else Ok(Assignment(x, lease.id, lease.token, lease.validUntil,
                         if |commands| == 0 then None else Some(A.Only(commands)), Some(t)))
  }

  function IdleLifecycle(): A.Lifecycle {
    A.Lifecycle(SM.SessionState.Cold, map[], map[], map[], map[], map[], map[], map[])
  }

  function LifeOf(lives: Lives, x: SessionId): A.Lifecycle {
    if x in lives then lives[x] else IdleLifecycle()
  }

  /** The observed assignments, or the first lease that cannot be observed. */
  function DurableAssignments(st: Store, rows: seq<SessionId>): Result<seq<Assignment>, ReconcileError> {
    if rows == [] then Ok([])
    else
      var n := |rows| - 1;
      match DurableAssignments(st, rows[..n])
      case Err(e) => Err(e)
      case Ok(assignments) =>
        if rows[n] !in st.fleet.leases then Ok(assignments)
        else
          match Observe(st.fleet.leases[rows[n]], rows[n], LifeOf(st.lives, rows[n]))
          case Err(e) => Err(e)
          case Ok(a) => Ok(assignments + [a])
  }

  /** The runtime belongs to the very boot of the sandbox. */
  predicate InScope(r: Runtime, s: SandboxId, b: Sandbox) {
    r.sandbox == s && r.supervisor == b.supervisor && r.boot == b.boot
  }

  datatype Observation = Observation(runtimes: seq<Runtime>, durable: seq<Assignment>)

  /**
   What both reconciliations read first: the runtimes the inventory lists, if it could list them, all
   of the sandbox's own boot, and the durable assignments.
   */
  function ObserveSandbox(st: Store, s: SandboxId, listed: Option<seq<Runtime>>, rows: seq<SessionId>)
    : Result<Observation, ReconcileError>
  {
    if listed.None? then Err(InventoryFailed)
    else if s !in st.fleet.sandboxes then Err(SandboxMissing)
    else if exists r :: r in listed.value && !InScope(r, s, st.fleet.sandboxes[s]) then Err(RuntimeMismatch)
    else
      match DurableAssignments(st, rows)
      case Err(e) => Err(e)
      case Ok(durable) => Ok(Observation(listed.value, durable))
  }

  /** What is counted once the outcomes are known. */
  function ResultOf(o: Observation, terminated: nat, outcomes: seq<A.Finalization>): ReconciliationResult {
    ReconciliationResult(|o.runtimes|, terminated, |Orphans(o.runtimes, o.durable)|, CountSettled(outcomes), CountRequeued(outcomes))
  }

  class AssignmentReconciler {
    const sandbox: SandboxId
    var fleet: Fleet
    var lives: Lives
    ghost var quarantined: set<SandboxId>

    ghost function Tables(): Store
      reads this
    {
      Store(fleet, lives)
    }

    constructor (sandbox: SandboxId, fleet: Fleet, lives: Lives)
      ensures this.sandbox == sandbox && Tables() == Store(fleet, lives)
    {
      this.sandbox, this.fleet, this.lives, quarantined := sandbox, fleet, lives, {};
    }

    /** The observed assignments, in order; each is an exact copy of a lease row with its active turn and command. */
    method LoadDurableAssignments(rows: seq<SessionId>) returns (r: Result<seq<Assignment>, ReconcileError>)
      requires LeaseRows(fleet, sandbox, rows)
      ensures r == DurableAssignments(Tables(), rows)
      ensures r.Ok? ==> |r.value| == |rows|
      ensures r.Ok? ==> forall i :: 0 <= i < |rows| ==>
                r.value[i].session == rows[i] && SameLease(fleet, sandbox, r.value[i]) &&
                r.value[i].validUntil == fleet.leases[rows[i]].validUntil
      ensures r.Ok? ==> forall i :: 0 <= i < |rows| ==>
                rows[i] in fleet.leases && Ok(r.value[i]) == Observe(fleet.leases[rows[i]], rows[i], LifeOf(lives, rows[i]))
      ensures r.Err? ==> exists x :: x in LeasesOn(fleet.leases, sandbox) && Observe(fleet.leases[x], x, LifeOf(lives, x)).Err?
    {
      hide LeaseRows, A.ActiveTurns, A.ExecuteCommands, A.Only;
      var assignments: seq<Assignment> := [];
      for i := 0 to |rows|
        invariant |assignments| == i
        invariant forall j :: 0 <= j < i ==>
                    rows[j] in fleet.leases && assignments[j].session == rows[j] && SameLease(fleet, sandbox, assignments[j]) &&
                    assignments[j].validUntil == fleet.leases[rows[j]].validUntil
        invariant forall j :: 0 <= j < i ==>
                    Ok(assignments[j]) == Observe(fleet.leases[rows[j]], rows[j], LifeOf(lives, rows[j]))
        invariant DurableAssignments(Tables(), rows[..i]) == Ok(assignments)
      {
        RowIsLease(fleet, sandbox, rows, i);
        assert rows[..i + 1][..i] == rows[..i];
        var lease := fleet.leases[rows[i]];
        var l := LifeOf(lives, rows[i]);
        var observed := Observe(lease, rows[i], l);
        if observed.Err? {
          DurableStops(Tables(), rows, i + 1);
          return Err(observed.error);
        }
        assignments := assignments + [observed.value];
      }
      assert rows[..|rows|] == rows;
      return Ok(assignments);
    }

    // ---------------------------------------------------------------- finalizing

    /** Give the attempt up and put run, command, turn and outbox row back for a fresh claim. */
    method RequeueRows(l: A.Lifecycle, t: A.TurnId, c: A.CommandId, now: Time) returns (r: A.Lifecycle)
      requires A.Assigned(l, t, c)
      ensures r == A.Requeue(l, t, c, now)
    {
      var run := l.runs[c];
      r := l.(attempts := l.attempts[run.current.value := SM.AttemptState.Failed]);
      r := r.(runs := r.runs[c := run.(state := SM.RunState.Queued)]);
      r := r.(commands := r.commands[c := r.commands[c].(state := SM.CommandState.Pending)]);
      r := r.(turns := r.turns[t := SM.TurnState.Queued]);
      r := r.(outbox := r.outbox[c := r.outbox[c].(availableAt := now)]);
    }

    /**
     Fail the run and its attempt, every open command with its outbox row, the approvals, the nodes,
     the turn and the session.
     */
    method FailRows(l: A.Lifecycle, t: A.TurnId, c: A.CommandId) returns (r: A.Lifecycle)
      requires A.Assigned(l, t, c)
      ensures r == A.FailEverything(l, t, c)
    {
      var run := l.runs[c];
      var commands, outbox := FailOpenCommands(l, t);
      var nodes := FailOpenNodes(l.nodes);
      r := l.(attempts := l.attempts[run.current.value := SM.AttemptState.Failed],
              runs := l.runs[c := run.(state := SM.RunState.Failed)]);
      r := r.(commands := commands, outbox := outbox);
      r := r.(approvals := A.CancelApprovals(r.approvals, t));
      r := r.(nodes := nodes);
      r := r.(turns := r.turns[t := SM.TurnState.Failed]);
      r := r.(state := SM.SessionState.Failed);
    }

    method FailOpenCommands(l: A.Lifecycle, t: A.TurnId)
      returns (commands: map<A.CommandId, A.Command>, outbox: map<A.CommandId, A.OutboxRow>)
      ensures commands == A.FailCommands(l.commands, A.OpenCommands(l, t))
      ensures outbox == A.PublishAll(l.outbox, A.OpenCommands(l, t))
    {
      var open := A.OpenCommands(l, t);
      var remaining := open;
      commands, outbox := l.commands, l.outbox;
      hide A.OpenCommands;
      assert forall d :: d in open ==> d in l.commands by {
        OpenStored(l, t);
      }
      while remaining != {}
        invariant remaining <= open
        invariant commands == A.FailCommands(l.commands, open - remaining)
        invariant outbox == A.PublishAll(l.outbox, open - remaining)
        decreases remaining
      {
        var d :| d in remaining;
        commands := commands[d := commands[d].(state := SM.CommandState.Failed)];
        if d in outbox {
          outbox := outbox[d := outbox[d].(published := true)];
        }
        remaining := remaining - {d};
      }
      assert open - {} == open;
    }

    method FailOpenNodes(nodes: map<nat, SM.AgentNodeState>) returns (failed: map<nat, SM.AgentNodeState>)
      ensures failed == A.FailNodes(nodes)
    {
      var open := set n | n in nodes && A.OpenNode(nodes[n]);
      failed := nodes;
      while open != {}
        invariant open <= nodes.Keys && failed.Keys == nodes.Keys
        invariant forall n :: n in nodes ==>
                    failed[n] == if A.OpenNode(nodes[n]) && n !in open then SM.AgentNodeState.Failed else nodes[n]
        decreases open
      {
        var n :| n in open;
        failed := failed[n := SM.AgentNodeState.Failed];
        open := open - {n};
      }
    }

    /** Finalize one session's rows, checking as it goes; nothing is written when a check fails. */
    method FinalizeRows(l: A.Lifecycle, now: Time) returns (r: Result<(A.Lifecycle, A.Finalization), A.FinalizeError>)
      ensures r == A.Finalize(l, now)
    {
      hide A.ActiveTurns, A.ExecuteCommands, A.Only, A.CanRequeue, A.CanFailEverything, A.Requeue, A.FailEverything;
      hide A.SafelyUnacknowledged, A.Assigned, A.ActiveSession;
      var active := A.ActiveTurns(l);
      if |active| > 1 {
        return Err(A.TooManyTurns);
      }
      if |active| == 0 {
        if A.ActiveSession(l.state) {
          return Err(A.ActiveSessionWithoutTurn);
        }
        return Ok((l, A.Released));
      }
      var t := A.Only(active);
      var commands := A.ExecuteCommands(l, t);
      if |commands| != 1 {
        return Err(A.ExecuteCommandCount);
      }
      var c := A.Only(commands);
      r := FinalizeTurn(l, t, c, now);
      assert t in l.turns by {
        ActiveStored(l, t);
      }
    }

    method FinalizeTurn(l: A.Lifecycle, t: A.TurnId, c: A.CommandId, now: Time)
      returns (r: Result<(A.Lifecycle, A.Finalization), A.FinalizeError>)
      requires t in A.ActiveTurns(l)
      ensures t in l.turns && r == A.FinalizeAssigned(l, t, c, now)
    {
      ActiveStored(l, t);
      hide A.ActiveTurns, A.CanRequeue, A.CanFailEverything, A.Requeue, A.FailEverything, A.SafelyUnacknowledged,
        A.Assigned, A.ActiveSession;
      if !A.Assigned(l, t, c) {
        return Err(A.MissingRow);
      }
      if A.SafelyUnacknowledged(l, t, c) {
        if !A.CanRequeue(l, t, c) {
          return Err(A.IllegalTransition);
        }
        var requeued := RequeueRows(l, t, c, now);
        return Ok((requeued, A.Requeued));
      }
      if !A.ActiveSession(l.state) || !A.ActiveTurn(l.turns[t]) {
        return Err(A.InconsistentLifecycle);
      }
      if !A.CanFailEverything(l, t, c) {
        return Err(A.IllegalTransition);
      }
      var failed := FailRows(l, t, c);
      return Ok((failed, A.Settled));
    }

    /** One assignment inside a transaction: skip it if its lease changed, else finalize and delete the lease. */
    method FinalizeLease(a: Assignment, now: Time, requireExpired: bool)
      returns (r: Result<A.Finalization, ReconcileError>)
      modifies this`fleet, this`lives
      ensures var spec := Reconciliation.FinalizeLease(old(Tables()), sandbox, a, now, requireExpired);
              && Tables() == (if spec.Ok? then spec.value.0 else old(Tables()))
              && r == match spec case Ok(v) => Ok(v.1) case Err(e) => Err(e)
    {
      hide A.Finalize;
      if a.session !in fleet.leases {
        return Ok(A.Skipped);
      }
      var lease := fleet.leases[a.session];
      if lease.id != a.lease || lease.sandbox != sandbox || lease.token != a.token || (requireExpired && lease.validUntil > now) {
        return Ok(A.Skipped);
      }
      if a.session !in lives {
        return Err(Invariant(A.MissingRow));
      }
      var finalized := FinalizeRows(lives[a.session], now);
      match finalized
      case Err(e) => return Err(Invariant(e));
      case Ok((l, outcome)) =>
        fleet := fleet.(leases := fleet.leases - {a.session});
        lives := lives[a.session := l];
        return Ok(outcome);
    }

    /** The loop of both transactions, with its counts; any error puts every row back. */
    method FinalizeEach(assignments: seq<Assignment>, now: Time, requireExpired: bool)
      returns (r: Result<(nat, nat), ReconcileError>, ghost outcomes: seq<A.Finalization>)
      modifies this`fleet, this`lives
      ensures var spec := FinalizeAll(old(Tables()), sandbox, assignments, now, requireExpired);
              && Tables() == (if spec.Ok? then spec.value.0 else old(Tables()))
              && (spec.Ok? ==> outcomes == spec.value.1 && r == Ok((CountSettled(outcomes), CountRequeued(outcomes))))
              && (spec.Err? ==> r == Err(spec.error))
    {
      hide Reconciliation.FinalizeLease, FinalizeAll, CountSettled, CountRequeued;
      var savedFleet, savedLives := fleet, lives;
      var settled, requeued := 0, 0;
      outcomes := [];
      ghost var before := Tables();
      NoneFinalized(before, sandbox, assignments[..0], now, requireExpired);
      for i := 0 to |assignments|
        invariant FinalizeAll(before, sandbox, assignments[..i], now, requireExpired) == Ok((Tables(), outcomes))
        invariant settled == CountSettled(outcomes) && requeued == CountRequeued(outcomes)
      {
        ghost var mid := Tables();
        NextFinalized(before, mid, sandbox, assignments[..i], assignments[i], outcomes, now, requireExpired);
        assert assignments[..i] + [assignments[i]] == assignments[..i + 1];
        var one := FinalizeLease(assignments[i], now, requireExpired);
        if one.Err? {
          FinalizeAllStops(before, sandbox, assignments, i + 1, now, requireExpired);
          fleet, lives := savedFleet, savedLives;
          return Err(one.error), outcomes;
        }
        CountNext(outcomes, one.value);
        if one.value.Requeued? {
          requeued := requeued + 1;
        }
        if one.value.Settled? || one.value.Released? {
          settled := settled + 1;
        }
        outcomes := outcomes + [one.value];
      }
      assert assignments[..|assignments|] == assignments;
      return Ok((settled, requeued)), outcomes;
    }

    // ---------------------------------------------------------------- the two reconciliations

    method QuarantineSandbox()
      modifies this`fleet, this`quarantined
      ensures fleet == Quarantine(old(fleet), sandbox)
      ensures quarantined == old(quarantined) + NewlyQuarantined(old(fleet), sandbox)
    {
      ghost var before := fleet;
      if sandbox in fleet.sandboxes && !fleet.sandboxes[sandbox].state.Failed? && !fleet.sandboxes[sandbox].state.Terminated? {
        fleet := fleet.(sandboxes := fleet.sandboxes[sandbox := fleet.sandboxes[sandbox].(state := SM.SandboxState.Failed)]);
      }
      quarantined := quarantined + NewlyQuarantined(before, sandbox);
    }

    /** Commit the finalization of the expired targets and the sandbox's capacity, or quarantine the sandbox. */
    method CommitExpiredTargets(targets: seq<Assignment>, now: Time)
      returns (r: Result<(nat, nat), ReconcileError>, ghost outcomes: seq<A.Finalization>)
      modifies this
      ensures var spec := CommitExpired(old(Tables()), sandbox, targets, now);
              && (spec.Ok? ==> Tables() == spec.value.0 && outcomes == spec.value.1 && quarantined == old(quarantined))
              && (spec.Ok? ==> r == Ok((CountSettled(outcomes), CountRequeued(outcomes))))
              && (spec.Err? ==> r == Err(spec.error) && fleet == Quarantine(old(fleet), sandbox) && lives == old(lives))
      ensures Safe(old(fleet), old(quarantined)) ==> Safe(fleet, quarantined)
    {
      hide FinalizeAll, Safe, Quarantine, NewlyQuarantined, SynchronizeCapacity;
      ghost var before, wasQuarantined := Tables(), quarantined;
      if CommitExpired(before, sandbox, targets, now).Ok? && Safe(before.fleet, wasQuarantined) {
        CommitExpiredSafe(before, sandbox, targets, now, wasQuarantined);
      }
      if Safe(before.fleet, wasQuarantined) {
        QuarantineSafe(before.fleet, sandbox, wasQuarantined);
      }
      var savedFleet, savedLives := fleet, lives;
      r, outcomes := FinalizeEach(targets, now, true);
      if r.Ok? {
        if sandbox in fleet.sandboxes {
          Synchronize();
        } else {
          fleet, lives := savedFleet, savedLives;
          r := Err(SandboxMissing);
        }
      }
      if r.Err? {
        QuarantineSandbox();
      }
    }

    method Synchronize()
      requires sandbox in fleet.sandboxes
      modifies this`fleet
      ensures fleet == SynchronizeCapacity(old(fleet), sandbox)
    {
      var row := fleet.sandboxes[sandbox];
      var remaining := |LeasesOn(fleet.leases, sandbox)|;
      var next := row.state;
      if row.state.Ready? && remaining > 0 {
        next := SM.SandboxState.Leased;
      } else if row.state.Leased? && remaining == 0 {
        next := SM.SandboxState.Ready;
      }
      fleet := fleet.(sandboxes := fleet.sandboxes[sandbox := row.(state := next, activeSessions := remaining)]);
    }

    /** The runtimes and the assignments a reconciliation works from. */
    method LoadObservation(listed: Option<seq<Runtime>>, rows: seq<SessionId>)
      returns (r: Result<Observation, ReconcileError>)
      requires LeaseRows(fleet, sandbox, rows)
      ensures r == ObserveSandbox(Tables(), sandbox, listed, rows)
    {
      hide LeaseRows, DurableAssignments;
      if listed.None? {
        return Err(InventoryFailed);
      }
      var runtimes := listed.value;
      if sandbox !in fleet.sandboxes {
        return Err(SandboxMissing);
      }
      for i := 0 to |runtimes|
        invariant forall r :: r in runtimes[..i] ==> InScope(r, sandbox, fleet.sandboxes[sandbox])
      {
        if !InScope(runtimes[i], sandbox, fleet.sandboxes[sandbox]) {
          return Err(RuntimeMismatch);
        }
      }
      assert runtimes[..|runtimes|] == runtimes;
      var durable := LoadDurableAssignments(rows);
      match durable
      case Err(e) => return Err(e);
      case Ok(assignments) => return Ok(Observation(runtimes, assignments));
    }

    /**
     Reconcile the expired assignments: observe, stop the orphan runtimes and those of the targets,
     then commit; any error quarantines the sandbox. `listed` is the inventory's answer, `confirmed`
     whether it confirmed every stop, and `meanwhile` the tables as others have left them when the
     reconciliation writes, `others` the sandboxes quarantined by then.
     */
    method ReconcileExpiredAssignments(listed: Option<seq<Runtime>>, rows: seq<SessionId>, now: Time, limit: nat,
                                       confirmed: bool, meanwhile: Store, ghost others: set<SandboxId>)
      returns (r: Result<ReconciliationResult, ReconcileError>, stopping: map<nat, Runtime>)
      requires LeaseRows(fleet, sandbox, rows)
      modifies this
      ensures match ObserveSandbox(old(Tables()), sandbox, listed, rows)
              case Err(e) => stopping == map[] && r == Err(e)
              case Ok(o) =>
                var targets := TargetsOf(o.durable, now, limit);
                && stopping == ToTerminate(o.runtimes, o.durable, targets)
                && if !confirmed then r == Err(InventoryFailed)
                   else
                     match CommitExpired(meanwhile, sandbox, targets, now)
                     case Err(e) => r == Err(e)
                     case Ok((st, outcomes)) =>
                       Tables() == st && r == Ok(ResultOf(o, |stopping|, outcomes)) && quarantined == others
      ensures r.Err? ==> fleet == Quarantine(meanwhile.fleet, sandbox) && lives == meanwhile.lives
      ensures r.Ok? ==>
                var durable := ObserveSandbox(old(Tables()), sandbox, listed, rows).value.durable;
                |TargetsOf(durable, now, limit)| < limit ==>
                  forall a :: a in durable && a.validUntil <= now ==> GoneOrRenewed(fleet, sandbox, a, now)
      ensures Safe(meanwhile.fleet, others) ==> Safe(fleet, quarantined)
    {
      hide Safe, Quarantine, NewlyQuarantined, CommitExpired, TargetsOf, Orphans, ToTerminate, ObserveSandbox,
        LeaseRows, GoneOrRenewed;
      var observed := LoadObservation(listed, rows);
      fleet, lives, quarantined := meanwhile.fleet, meanwhile.lives, others;
      stopping := map[];
      if observed.Err? {
        QuarantineSafely();
        return Err(observed.error), stopping;
      }
      var o := observed.value;
      var targets := TargetsOf(o.durable, now, limit);
      stopping := ToTerminate(o.runtimes, o.durable, targets);
      if !confirmed {
        QuarantineSafely();
        return Err(InventoryFailed), stopping;
      }
      var counts;
      ghost var outcomes;
      counts, outcomes := CommitExpiredTargets(targets, now);
      match counts
      case Err(e) => return Err(e), stopping;
      case Ok((settled, requeued)) =>
        NoneLeftExpired(meanwhile, sandbox, o.durable, now, limit);
        return Ok(ReconciliationResult(|o.runtimes|, |stopping|, |Orphans(o.runtimes, o.durable)|, settled, requeued)), stopping;
    }

    method QuarantineSafely()
      modifies this`fleet, this`quarantined
      ensures fleet == Quarantine(old(fleet), sandbox)
      ensures Safe(old(fleet), old(quarantined)) ==> Safe(fleet, quarantined)
    {
      hide Safe, Quarantine, NewlyQuarantined;
      if Safe(fleet, quarantined) {
        QuarantineSafe(fleet, sandbox, quarantined);
      }
      QuarantineSandbox();
    }

    /** Before a retirement looks at anything the sandbox is taken out of service. */
    method BeginSandboxRetirement() returns (r: Result<(), ReconcileError>)
      modifies this`fleet
      ensures r == (match BeginRetirement(old(fleet), sandbox) case Ok(_) => Ok(()) case Err(e) => Err(e))
      ensures fleet == (match BeginRetirement(old(fleet), sandbox) case Ok(f) => f case Err(_) => old(fleet))
    {
      if sandbox !in fleet.sandboxes {
        return Err(SandboxMissing);
      }
      var row := fleet.sandboxes[sandbox];
      if row.state.Terminated? || row.state.Draining? || row.state.Failed? {
        return Ok(());
      }
      var next := if row.state.Provisioning? then SM.SandboxState.Failed else SM.SandboxState.Draining;
      fleet := fleet.(sandboxes := fleet.sandboxes[sandbox := row.(state := next)]);
      return Ok(());
    }

    /**
     Retire the sandbox: fence it, observe, stop every runtime listed, then commit; any error
     quarantines the sandbox.
     */
    method RetireSandbox(listed: Option<seq<Runtime>>, rows: seq<SessionId>, now: Time, confirmed: bool,
                         meanwhile: Store)
      returns (r: Result<ReconciliationResult, ReconcileError>)
      requires LeaseRows(fleet, sandbox, rows)
      modifies this
      ensures match BeginRetirement(old(fleet), sandbox)
              case Err(e) => r == Err(e) && Tables() == old(Tables()).(fleet := Quarantine(old(fleet), sandbox))
              case Ok(f) =>
                match ObserveSandbox(old(Tables()).(fleet := f), sandbox, listed, rows)
                case Err(e) => r == Err(e)
                case Ok(o) =>
                  if !confirmed then r == Err(InventoryFailed)
                  else
                    match CommitRetirement(meanwhile, sandbox, o.durable, now)
                    case Err(e) => r == Err(e)
                    case Ok((st, outcomes)) => Tables() == st && r == Ok(ResultOf(o, |o.runtimes|, outcomes))
      ensures r.Err? && BeginRetirement(old(fleet), sandbox).Ok? ==>
                fleet == Quarantine(meanwhile.fleet, sandbox) && lives == meanwhile.lives
    {
      hide Quarantine, NewlyQuarantined, CommitRetirement, Orphans, ObserveSandbox, LeaseRows;
      var begun := BeginSandboxRetirement();
      if begun.Err? {
        QuarantineSandbox();
        return Err(begun.error);
      }
      SameLeaseRows(old(fleet), fleet, sandbox, rows);
      var observed := LoadObservation(listed, rows);
      fleet, lives := meanwhile.fleet, meanwhile.lives;
      if observed.Err? || !confirmed {
        QuarantineSandbox();
        return Err(if observed.Err? then observed.error else InventoryFailed);
      }
      var o := observed.value;
      var counts;
      ghost var outcomes;
      counts, outcomes := CommitSandboxRetirement(o.durable, now);
      match counts
      case Err(e) =>
        QuarantineSandbox();
        return Err(e);
      case Ok((settled, requeued)) =>
        return Ok(ReconciliationResult(|o.runtimes|, |o.runtimes|, |Orphans(o.runtimes, o.durable)|, settled, requeued));
    }

    /**
     Commit a retirement: finalize what was observed, check that nothing is left, terminate. Any
     error puts every row back.
     */
    method CommitSandboxRetirement(assignments: seq<Assignment>, now: Time)
      returns (r: Result<(nat, nat), ReconcileError>, ghost outcomes: seq<A.Finalization>)
      modifies this`fleet, this`lives
      ensures var spec := CommitRetirement(old(Tables()), sandbox, assignments, now);
              && Tables() == (if spec.Ok? then spec.value.0 else old(Tables()))
              && (spec.Ok? ==> outcomes == spec.value.1 && r == Ok((CountSettled(outcomes), CountRequeued(outcomes))))
              && (spec.Err? ==> r == Err(spec.error))
    {
      hide FinalizeAll, LeasesOn;
      var savedFleet, savedLives := fleet, lives;
      r, outcomes := FinalizeEach(assignments, now, false);
      if r.Err? {
        return;
      }
      var failure := None;
      if LeasesOn(fleet.leases, sandbox) != {} {
        failure := Some(Incomplete);
      } else if sandbox !in fleet.sandboxes {
        failure := Some(SandboxMissing);
      } else {
        var row := fleet.sandboxes[sandbox];
        if !row.state.Terminated? {
          if !row.state.Draining? && !row.state.Failed? && !row.state.Provisioning? {
            failure := Some(NotFenced);
          } else {
            fleet := fleet.(sandboxes := fleet.sandboxes[sandbox := row.(state := SM.SandboxState.Terminated, activeSessions := 0)]);
          }
        }
      }
      if failure.Some? {
        fleet, lives := savedFleet, savedLives;
        r := Err(failure.value);
      }
    }
  }

  // ------------------------------------------------------------------ for the loops

  lemma RowIsLease(f: Fleet, s: SandboxId, rows: seq<SessionId>, i: nat)
    requires LeaseRows(f, s, rows) && i < |rows|
    ensures rows[i] in f.leases && f.leases[rows[i]].sandbox == s && rows[i] in LeasesOn(f.leases, s)
  {
    assert rows[i] in rows;
  }

  lemma SameLeaseRows(f: Fleet, f': Fleet, s: SandboxId, rows: seq<SessionId>)
    requires f'.leases == f.leases
    ensures LeaseRows(f, s, rows) ==> LeaseRows(f', s, rows)
  {
  }

  lemma {:induction false} DurableStops(st: Store, rows: seq<SessionId>, n: nat)
    requires n <= |rows| && DurableAssignments(st, rows[..n]).Err?
    ensures DurableAssignments(st, rows) == Err(DurableAssignments(st, rows[..n]).error)
  {
    hide Observe;
    if n == |rows| {
      assert rows[..n] == rows;
    } else {
      var shorter := rows[..|rows| - 1];
      assert shorter[..n] == rows[..n];
      DurableStops(st, shorter, n);
    }
  }

  /** The observed lease is gone, or it has been renewed and has not run out. */
  predicate GoneOrRenewed(f: Fleet, s: SandboxId, a: Assignment, now: Time) {
    SameLease(f, s, a) ==> f.leases[a.session].validUntil > now
  }

  lemma NoneLeftExpired(st: Store, s: SandboxId, durable: seq<Assignment>, now: Time, limit: nat)
    requires CommitExpired(st, s, TargetsOf(durable, now, limit), now).Ok?
    ensures |TargetsOf(durable, now, limit)| < limit ==>
              forall a :: a in durable && a.validUntil <= now ==>
                GoneOrRenewed(CommitExpired(st, s, TargetsOf(durable, now, limit), now).value.0.fleet, s, a, now)
  {
    hide CommitExpired, TargetsOf, SameLease;
    if |TargetsOf(durable, now, limit)| < limit {
      forall a | a in durable && a.validUntil <= now
        ensures GoneOrRenewed(CommitExpired(st, s, TargetsOf(durable, now, limit), now).value.0.fleet, s, a, now)
      {
        AllExpiredDealtWith(st, s, durable, now, limit, a);
      }
    }
  }

  // ------------------------------------------------------------------ leases that lose their runtime

  lemma RowsSame(st: Store, rows: seq<SessionId>, n: nat)
    requires n <= |rows| && forall i :: 0 <= i < |rows| ==> rows[i] in st.fleet.leases
    requires DurableAssignments(st, rows[..n]).Ok?
    ensures var durable := DurableAssignments(st, rows[..n]).value;
            |durable| == n && forall i :: 0 <= i < n ==> durable[i].session == rows[i]
  {
    hide A.ActiveTurns, A.ExecuteCommands, A.Only, LifeOf;
    if n > 0 {
      assert rows[..n][..n - 1] == rows[..n - 1];
      RowsSame(st, rows, n - 1);
    }
  }

  /** What is observed has one assignment for each session, each a copy of its lease. */
  lemma ObservedOnce(st: Store, s: SandboxId, listed: Option<seq<Runtime>>, rows: seq<SessionId>)
    requires LeaseRows(st.fleet, s, rows) && ObserveSandbox(st, s, listed, rows).Ok?
    ensures OnePerSession(ObserveSandbox(st, s, listed, rows).value.durable)
  {
    forall i | 0 <= i < |rows|
      ensures rows[i] in st.fleet.leases
    {
      RowIsLease(st.fleet, s, rows, i);
    }
    assert rows[..|rows|] == rows;
    hide DurableAssignments;
    RowsSame(st, rows, |rows|);
  }

  /** The runtime has the lease that its session holds on `s`, its token, and the one execution that is active there. */
  ghost predicate RunsLease(st: Store, s: SandboxId, r: Runtime) {
    && r.session in st.fleet.leases && st.fleet.leases[r.session].sandbox == s
    && st.fleet.leases[r.session].id == r.lease && st.fleet.leases[r.session].token == r.token
    && r.session in st.lives && A.ActiveTurns(st.lives[r.session]) == {r.turn}
    && A.ExecuteCommands(st.lives[r.session], r.turn) == {r.command}
  }

  lemma ObservedIs(lease: Lease, x: SessionId, l: A.Lifecycle, r: Runtime)
    requires Observe(lease, x, l).Ok? && r.session == x
    ensures SameAssignment(r, Observe(lease, x, l).value) <==>
            && r.lease == lease.id && r.token == lease.token
            && A.ActiveTurns(l) == {r.turn} && A.ExecuteCommands(l, r.turn) == {r.command}
  {
    hide A.ActiveTurns, A.ExecuteCommands;
  }

  lemma {:induction false} AssignmentsAre(st: Store, rows: seq<SessionId>, n: nat)
    requires n <= |rows| && forall i :: 0 <= i < |rows| ==> rows[i] in st.fleet.leases
    requires DurableAssignments(st, rows[..n]).Ok?
    ensures var durable := DurableAssignments(st, rows[..n]).value;
            |durable| == n && forall i :: 0 <= i < n ==> Ok(durable[i]) == Observe(st.fleet.leases[rows[i]], rows[i], LifeOf(st.lives, rows[i]))
  {
    hide Observe, LifeOf;
    if n > 0 {
      assert rows[..n][..n - 1] == rows[..n - 1];
      AssignmentsAre(st, rows, n - 1);
    }
  }

  lemma LifeIs(st: Store, x: SessionId, t: A.TurnId)
    ensures x in st.lives ==> LifeOf(st.lives, x) == st.lives[x]
    ensures x !in st.lives ==> A.ActiveTurns(LifeOf(st.lives, x)) != {t}
  {
    assert t !in A.ActiveTurns(IdleLifecycle());
  }

  lemma OtherSession(lease: Lease, x: SessionId, l: A.Lifecycle, r: Runtime)
    requires Observe(lease, x, l).Ok? && r.session != x
    ensures !SameAssignment(r, Observe(lease, x, l).value)
  {
    hide A.ActiveTurns, A.ExecuteCommands;
  }

  lemma RowsAreLeases(f: Fleet, s: SandboxId, rows: seq<SessionId>)
    requires LeaseRows(f, s, rows)
    ensures forall i :: 0 <= i < |rows| ==> rows[i] in f.leases && f.leases[rows[i]].sandbox == s
    ensures forall x :: x in rows <==> x in f.leases && f.leases[x].sandbox == s
  {
    forall i | 0 <= i < |rows|
      ensures rows[i] in f.leases && f.leases[rows[i]].sandbox == s
    {
      RowIsLease(f, s, rows, i);
    }
  }

  lemma MatchesAt(st: Store, s: SandboxId, x: SessionId, a: Assignment, r: Runtime)
    requires x in st.fleet.leases && st.fleet.leases[x].sandbox == s
    requires Ok(a) == Observe(st.fleet.leases[x], x, LifeOf(st.lives, x))
    ensures SameAssignment(r, a) <==> x == r.session && RunsLease(st, s, r)
  {
    hide SameAssignment, Observe, LifeOf, A.ActiveTurns, A.ExecuteCommands;
    LifeIs(st, x, r.turn);
    if x == r.session {
      ObservedIs(st.fleet.leases[x], x, LifeOf(st.lives, x), r);
    } else {
      OtherSession(st.fleet.leases[x], x, LifeOf(st.lives, x), r);
    }
  }

  /** A listed runtime runs an observed assignment exactly if it has the session's lease, token and execution. */
  lemma MatchesIffRuns(st: Store, s: SandboxId, listed: Option<seq<Runtime>>, rows: seq<SessionId>, r: Runtime)
    requires LeaseRows(st.fleet, s, rows) && ObserveSandbox(st, s, listed, rows).Ok?
    ensures MatchesSome(r, ObserveSandbox(st, s, listed, rows).value.durable) <==> RunsLease(st, s, r)
  {
    hide DurableAssignments, LeaseRows, Observe, LifeOf, SameAssignment, RunsLease, InScope;
    RowsAreLeases(st.fleet, s, rows);
    assert rows[..|rows|] == rows;
    AssignmentsAre(st, rows, |rows|);
    var durable := ObserveSandbox(st, s, listed, rows).value.durable;
    forall i | 0 <= i < |durable|
      ensures SameAssignment(r, durable[i]) <==> rows[i] == r.session && RunsLease(st, s, r)
    {
      MatchesAt(st, s, rows[i], durable[i], r);
    }
    if RunsLease(st, s, r) {
      RunsHasRow(st, s, r);
      var i :| 0 <= i < |rows| && rows[i] == r.session;
      assert SameAssignment(r, durable[i]);
    }
  }

  lemma RunsHasRow(st: Store, s: SandboxId, r: Runtime)
    requires RunsLease(st, s, r)
    ensures r.session in st.fleet.leases && st.fleet.leases[r.session].sandbox == s
  {
    hide A.ActiveTurns, A.ExecuteCommands;
  }

  lemma ScopeIs(st: Store, s: SandboxId, listed: Option<seq<Runtime>>, rows: seq<SessionId>, r: Runtime)
    requires ObserveSandbox(st, s, listed, rows).Ok? && r in ObserveSandbox(st, s, listed, rows).value.runtimes
    ensures listed == Some(ObserveSandbox(st, s, listed, rows).value.runtimes)
    ensures s in st.fleet.sandboxes && r.sandbox == s
    ensures r.supervisor == st.fleet.sandboxes[s].supervisor && r.boot == st.fleet.sandboxes[s].boot
  {
    hide DurableAssignments;
  }

  /**
   A reconciliation leaves running exactly those listed runtimes that have the lease and the token
   their session holds on the sandbox and run its one active execution, unless that lease is one of
   the expired ones it is about to end; and it looks at no runtime of another sandbox or boot.
   */
  lemma LeftRunningExactly(st: Store, s: SandboxId, listed: Option<seq<Runtime>>, rows: seq<SessionId>, now: Time,
                           limit: nat,
                           r: Runtime)
    requires LeaseRows(st.fleet, s, rows) && ObserveSandbox(st, s, listed, rows).Ok?
    requires var o := ObserveSandbox(st, s, listed, rows).value; IdsUnique(o.runtimes) && r in o.runtimes
    ensures var o := ObserveSandbox(st, s, listed, rows).value;
            var targets := TargetsOf(o.durable, now, limit);
            && (r.id !in ToTerminate(o.runtimes, o.durable, targets) <==> RunsLease(st, s, r) && !MatchesSome(r, targets))
            && s in st.fleet.sandboxes && r.sandbox == s
            && r.supervisor == st.fleet.sandboxes[s].supervisor && r.boot == st.fleet.sandboxes[s].boot
  {
    hide ObserveSandbox, LeaseRows, ToTerminate, TargetsOf, MatchesSome, RunsLease, IdsUnique;
    MatchesIffRuns(st, s, listed, rows, r);
    ScopeIs(st, s, listed, rows, r);
    var o := ObserveSandbox(st, s, listed, rows).value;
    PlanIsExact(o.runtimes, o.durable, now, limit);
    var stopping := ToTerminate(o.runtimes, o.durable, TargetsOf(o.durable, now, limit));
    if r.id in stopping {
      SameRuntime(o.runtimes, stopping[r.id], r);
    }
  }

  /**
   A reconciliation that commits stops the runtime of a lease that survives exactly where the lease
   was one of the expired ones it observed and was renewed between observation and commit: `before`
   is what it observed, `meanwhile` the tables it commits on. The inventory lists an identifier once.
   */
  lemma SurvivorsStopped(before: Store, meanwhile: Store, s: SandboxId, listed: Option<seq<Runtime>>,
                         rows: seq<SessionId>,
                         now: Time, limit: nat, a: Assignment, r: Runtime)
    requires LeaseRows(before.fleet, s, rows) && ObserveSandbox(before, s, listed, rows).Ok?
    requires var o := ObserveSandbox(before, s, listed, rows).value;
             && IdsUnique(o.runtimes) && a in o.durable && r in o.runtimes && SameAssignment(r, a)
             && CommitExpired(meanwhile, s, TargetsOf(o.durable, now, limit), now).Ok?
    ensures var o := ObserveSandbox(before, s, listed, rows).value;
            var targets := TargetsOf(o.durable, now, limit);
            var after := CommitExpired(meanwhile, s, targets, now).value.0;
            && (SameLease(after.fleet, s, a) && r.id in ToTerminate(o.runtimes, o.durable, targets) <==>
                  a in targets && SameLease(meanwhile.fleet, s, a) && meanwhile.fleet.leases[a.session].validUntil > now)
            && (a in targets ==> a.validUntil <= now)
  {
    hide ObserveSandbox, LeaseRows, CommitExpired, TargetsOf, ToTerminate, SameLease, SameAssignment, IdsUnique,
      OnePerSession;
    var o := ObserveSandbox(before, s, listed, rows).value;
    ObservedOnce(before, s, listed, rows);
    SurvivesStoppedIff(meanwhile, s, o.runtimes, o.durable, now, limit, a, r);
  }

  lemma ActiveStored(l: A.Lifecycle, t: A.TurnId)
    requires t in A.ActiveTurns(l)
    ensures t in l.turns
  {
  }

  lemma OpenStored(l: A.Lifecycle, t: A.TurnId)
    ensures forall d :: d in A.OpenCommands(l, t) ==> d in l.commands
  {
  }

  lemma NoneFinalized(st: Store, s: SandboxId, assignments: seq<Assignment>, now: Time, requireExpired: bool)
    requires assignments == []
    ensures FinalizeAll(st, s, assignments, now, requireExpired) == Ok((st, []))
    ensures CountSettled([]) == 0 && CountRequeued([]) == 0
  {
  }

  lemma NextFinalized(st: Store, mid: Store, s: SandboxId, assignments: seq<Assignment>, a: Assignment,
                      outcomes: seq<A.Finalization>,
                      now: Time, requireExpired: bool)
    requires FinalizeAll(st, s, assignments, now, requireExpired) == Ok((mid, outcomes))
    ensures FinalizeAll(st, s, assignments + [a], now, requireExpired) ==
            match Reconciliation.FinalizeLease(mid, s, a, now, requireExpired)
            case Err(e) => Err(e)
            case Ok((last, outcome)) => Ok((last, outcomes + [outcome]))
  {
    hide Reconciliation.FinalizeLease;
    assert (assignments + [a])[..|assignments|] == assignments;
  }

  lemma CountNext(outcomes: seq<A.Finalization>, outcome: A.Finalization)
    ensures CountSettled(outcomes + [outcome]) == CountSettled(outcomes) + if outcome.Settled? || outcome.Released? then 1 else 0
    ensures CountRequeued(outcomes + [outcome]) == CountRequeued(outcomes) + if outcome.Requeued? then 1 else 0
  {
    assert (outcomes + [outcome])[..|outcomes|] == outcomes;
  }

  /** An error on a prefix is the error of the whole batch. */
  lemma {:induction false} FinalizeAllStops(st: Store, s: SandboxId, assignments: seq<Assignment>, n: nat, now: Time,
                                            requireExpired: bool)
    requires n <= |assignments| && FinalizeAll(st, s, assignments[..n], now, requireExpired).Err?
    ensures FinalizeAll(st, s, assignments, now, requireExpired) == Err(FinalizeAll(st, s, assignments[..n], now, requireExpired).error)
  {
    hide Reconciliation.FinalizeLease;
    if n == |assignments| {
      assert assignments[..n] == assignments;
    } else {
      var shorter := assignments[..|assignments| - 1];
      assert shorter[..n] == assignments[..n];
      FinalizeAllStops(st, s, shorter, n, now, requireExpired);
    }
  }

  /**
   Of the leases that have run out, a reconciliation takes the oldest, as many as its limit: one that
   is left out expires no earlier than any target, and then the limit is used up.
   */
  lemma OldestFirst(st: Store, s: SandboxId, listed: Option<seq<Runtime>>, rows: seq<SessionId>, now: Time, limit: nat,
                    a: Assignment)
    requires LeaseRows(st.fleet, s, rows) && ObserveSandbox(st, s, listed, rows).Ok?
    requires a in ObserveSandbox(st, s, listed, rows).value.durable && a.validUntil <= now
    ensures var targets := TargetsOf(ObserveSandbox(st, s, listed, rows).value.durable, now, limit);
            a !in targets ==> |targets| == limit && forall t :: t in targets ==> t.validUntil <= a.validUntil
  {
    hide DurableAssignments, LeaseRows, Observe, TargetsOf, InScope, ByExpiry, OnePerSession;
    RowsAreLeases(st.fleet, s, rows);
    assert rows[..|rows|] == rows;
    AssignmentsAre(st, rows, |rows|);
    ObservedByExpiry(st, s, listed, rows);
    TargetsExactly(ObserveSandbox(st, s, listed, rows).value.durable, now, limit, a);
  }

  lemma ObservedByExpiry(st: Store, s: SandboxId, listed: Option<seq<Runtime>>, rows: seq<SessionId>)
    requires LeaseRows(st.fleet, s, rows) && ObserveSandbox(st, s, listed, rows).Ok?
    ensures ByExpiry(ObserveSandbox(st, s, listed, rows).value.durable)
  {
    RowsAreLeases(st.fleet, s, rows);
    hide DurableAssignments, Observe;
    assert rows[..|rows|] == rows;
    AssignmentsAre(st, rows, |rows|);
    var durable := ObserveSandbox(st, s, listed, rows).value.durable;
    forall i | 0 <= i < |durable|
      ensures durable[i].validUntil == st.fleet.leases[rows[i]].validUntil
    {
      ObservedUntil(st.fleet.leases[rows[i]], rows[i], LifeOf(st.lives, rows[i]));
    }
  }

  lemma ObservedUntil(lease: Lease, x: SessionId, l: A.Lifecycle)
    ensures Observe(lease, x, l).Ok? ==> Observe(lease, x, l).value.validUntil == lease.validUntil
  {
    hide A.ActiveTurns, A.ExecuteCommands;
  }

  // ------------------------------------------------------------------ what is counted

  lemma {:induction false} SettledCounted(outcomes: seq<A.Finalization>)
    ensures CountSettled(outcomes) == |set i: nat | i < |outcomes| && outcomes[i] in {A.Settled, A.Released}|
  {
    if outcomes != [] {
      var n := |outcomes| - 1;
      SettledCounted(outcomes[..n]);
      var before := set i: nat | i < n && outcomes[..n][i] in {A.Settled, A.Released};
      assert (set i: nat | i < |outcomes| && outcomes[i] in {A.Settled, A.Released}) ==
             before + if outcomes[n] in {A.Settled, A.Released} then {n} else {};
    }
  }

  lemma {:induction false} RequeuedCounted(outcomes: seq<A.Finalization>)
    ensures CountRequeued(outcomes) == |set i: nat | i < |outcomes| && outcomes[i] == A.Requeued|
  {
    if outcomes != [] {
      var n := |outcomes| - 1;
      RequeuedCounted(outcomes[..n]);
      var before := set i: nat | i < n && outcomes[..n][i] == A.Requeued;
      assert (set i: nat | i < |outcomes| && outcomes[i] == A.Requeued) == before + if outcomes[n] == A.Requeued then {n} else {};
    }
  }

  /** What is counted as orphans are the listed runtimes that match no observed assignment. */
  lemma {:induction false} OrphansCounted(runtimes: seq<Runtime>, durable: seq<Assignment>)
    ensures |Orphans(runtimes, durable)| == |set i: nat | i < |runtimes| && !MatchesSome(runtimes[i], durable)|
  {
    hide MatchesSome;
    if runtimes != [] {
      var n := |runtimes| - 1;
      OrphansCounted(runtimes[..n], durable);
      var before := set i: nat | i < n && !MatchesSome(runtimes[..n][i], durable);
      assert (set i: nat | i < |runtimes| && !MatchesSome(runtimes[i], durable)) ==
             before + if MatchesSome(runtimes[n], durable) then {} else {n};
    }
  }

  /**
   Each number of a result counts what it names: settled what was settled or merely released,
   requeued what was requeued, orphans the listed runtimes that match no observed assignment.
   */
  lemma ResultCounts(o: Observation, terminated: nat, outcomes: seq<A.Finalization>)
    ensures var r := ResultOf(o, terminated, outcomes);
            && r.inspectedRuntimes == |o.runtimes| && r.terminatedRuntimes == terminated
            && r.orphanRuntimes == |set i: nat | i < |o.runtimes| && !MatchesSome(o.runtimes[i], o.durable)|
            && r.settledAssignments == |set i: nat | i < |outcomes| && outcomes[i] in {A.Settled, A.Released}|
            && r.requeuedAssignments == |set i: nat | i < |outcomes| && outcomes[i] == A.Requeued|
  {
    SettledCounted(outcomes);
    RequeuedCounted(outcomes);
    OrphansCounted(o.runtimes, o.durable);
    hide CountSettled, CountRequeued, Orphans, MatchesSome;
  }
}
