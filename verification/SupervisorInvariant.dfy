/** What the steps on tables, leases and sessions keep of a world. */
module SupervisorInvariant {
  import opened Common
  import opened SupervisorFleet
  import opened FleetSafety
  import opened Reconciliation
  import opened SupervisorRuns
  import A = Assignments
  import L = LifecycleRuns

  lemma EmptyGood()
    ensures Good(EMPTY_WORLD)
  {
    EmptySafe();
  }

  lemma GoodIsReady(w: World)
    requires Safe(w.store.fleet, w.quarantined)
    ensures Ready(w)
  {
    OneAuthority(w.store.fleet);
    hide Serving, Quarantined, RetirementLinked, RetiredClosed, ClaimShape, Load, LeaseLinked, CredentialsUnique,
      Enrolled;
    hide Linked, OneActive, RequestsUnique, OnePerSandbox;
  }

  lemma ReadyIs(w: World)
    requires Ready(w)
    ensures OnePerSandbox(w.store.fleet.connections) && RequestsUnique(w.store.fleet.connections)
  {
  }

  // ------------------------------------------------------------------ steps of the tables leave the workers right

  /** Retirement rows stay as they are, new ones have never been claimed, and a terminated sandbox stays terminated. */
  ghost predicate Grows(f: Fleet, f': Fleet) {
    && (forall s :: s in f.retirements ==> s in f'.retirements && f'.retirements[s] == f.retirements[s])
    && (forall s :: s in f'.retirements && s !in f.retirements ==>
          f'.retirements[s].attempts == 0 && f'.retirements[s].state.Waiting? && f'.retirements[s].claim.None?)
    && (forall s :: s in f.sandboxes && f.sandboxes[s].state.Terminated? ==>
          s in f'.sandboxes && f'.sandboxes[s].state.Terminated?)
  }

  lemma GrowsClaims(w: World, f': Fleet)
    requires WorkersOk(w) && Grows(w.store.fleet, f')
    ensures WorkersLinked(w.workers, f'.retirements) && ClaimsLatest(w.workers, f'.retirements)
  {
    hide StopsConfirmed, CompletionEarned, AttemptsCounted, RetiredTerminated;
  }

  lemma GrowsAttempts(w: World, f': Fleet)
    requires WorkersOk(w) && Grows(w.store.fleet, f')
    ensures AttemptsCounted(w.workers, f'.retirements)
  {
    hide StopsConfirmed, CompletionEarned, RetiredTerminated, ClaimsLatest;
    forall s | s in f'.retirements && s !in w.store.fleet.retirements
      ensures WorkersOf(w.workers, s) == {}
    {
    }
    hide WorkersOf;
  }

  lemma GrowsCompletion(w: World, f': Fleet)
    requires WorkersOk(w) && Grows(w.store.fleet, f')
    ensures RetiredTerminated(w.workers, f'.sandboxes) && CompletionEarned(f', w.stopped)
  {
    hide StopsConfirmed, AttemptsCounted, ClaimsLatest, WorkersLinked;
  }

  lemma GrowsWorkers(w: World, f': Fleet)
    requires WorkersOk(w) && Grows(w.store.fleet, f')
    ensures WorkersOk(WithFleet(w, f'))
  {
    GrowsClaims(w, f');
    GrowsAttempts(w, f');
    GrowsCompletion(w, f');
    hide StopsConfirmed, CompletionEarned, AttemptsCounted, RetiredTerminated, ClaimsLatest, WorkersLinked, Grows;
  }

  lemma GrowsRefl(f: Fleet)
    ensures Grows(f, f)
  {
  }

  lemma FenceGrows(f: Fleet, fenced: set<SandboxId>, reason: Reason, now: Time)
    ensures Grows(f, FenceAll(f, fenced, reason, now))
    ensures FenceAll(f, fenced, reason, now).leases == f.leases
  {
  }

  lemma OpenGrows(f: Fleet, r: Registration, superseding: Option<ConnectionId>, now: Time)
    ensures Grows(f, OpenConnection(f, r, superseding, now))
    ensures OpenConnection(f, r, superseding, now).leases == f.leases
  {
    FenceGrows(f, Replaced(f, r.authority), NewBoot, now);
    hide FenceAll, Replaced;
  }

  lemma RegisterGrows(f: Fleet, r: Registration, now: Time)
    requires OnePerSandbox(f.connections) && RequestsUnique(f.connections)
    ensures Grows(f, Register(f, r, now))
    ensures Register(f, r, now).leases == f.leases
  {
    hide Decide, Grows, OpenConnection, FenceAll, OnePerSandbox, RequestsUnique;
    match Decide(f, r, now)
    case Expired => FenceGrows(f, {r.authority.sandbox}, HeartbeatTimeout, now);
    case Open(superseding) => OpenGrows(f, r, superseding, now);
    case _ => GrowsRefl(f);
  }

  lemma ExpireGrows(f: Fleet, c: ConnectionId, now: Time)
    ensures Grows(f, Expire(f, c, now))
    ensures Expire(f, c, now).leases == f.leases
  {
    if IsExpired(f.connections, c, now) {
      FenceGrows(f, {f.connections[c].sandbox}, HeartbeatTimeout, now);
    } else {
      GrowsRefl(f);
    }
    hide Grows, FenceAll;
  }

  lemma ProvisionGrows(f: Fleet, p: ProvisionRequest, conflict: Option<CredentialId>, maximum: nat, allowed: bool,
                       now: Time, ttl: nat)
    requires Enrolled(f.sandboxes, f.credentials)
    ensures Grows(f, ProvisionedFleet(f, p, conflict, maximum, allowed, now, ttl))
    ensures ProvisionedFleet(f, p, conflict, maximum, allowed, now, ttl).leases == f.leases
  {
    if ConflictAnswer(f, p, conflict) && conflict.None? {
      FreshIdentity(f, p);
    }
    hide ConflictAnswer, Enrolled, SameProvision;
  }

  lemma RowGrows(f: Fleet, f': Fleet, s: SandboxId)
    requires f'.retirements == f.retirements
    requires s in f.sandboxes && s in f'.sandboxes && f'.sandboxes == f.sandboxes[s := f'.sandboxes[s]]
    requires f.sandboxes[s].state.Terminated? ==> f'.sandboxes[s].state.Terminated?
    ensures Grows(f, f')
  {
  }

  // ------------------------------------------------------------------ table steps keep the invariant

  lemma TableStepGood(w: World, f': Fleet)
    requires Good(w) && Safe(f', w.quarantined) && Grows(w.store.fleet, f') && f'.leases == w.store.fleet.leases
    ensures Good(WithFleet(w, f'))
  {
    GrowsWorkers(w, f');
    hide Safe, WorkersOk, LivesConsistent, Grows;
  }

  lemma ProvisionGood(w: World, p: ProvisionRequest, conflict: Option<CredentialId>, maximum: nat, allowed: bool,
                      now: Time, ttl: nat)
    requires Good(w)
    ensures Good(WithFleet(w, ProvisionedFleet(w.store.fleet, p, conflict, maximum, allowed, now, ttl)))
  {
    hide Good, WorkersOk, Grows, ConflictAnswer, ProvisionWith, Enrolled;
    GoodParts(w);
    ProvisionGrows(w.store.fleet, p, conflict, maximum, allowed, now, ttl);
    if ConflictAnswer(w.store.fleet, p, conflict) {
      ProvisionSafe(w.store.fleet, w.quarantined, p, conflict, maximum, allowed, now, ttl);
    }
    hide Safe;
    TableStepGood(w, ProvisionedFleet(w.store.fleet, p, conflict, maximum, allowed, now, ttl));
  }

  lemma GoodParts(w: World)
    requires Good(w)
    ensures Safe(w.store.fleet, w.quarantined) && WorkersOk(w) && Ready(w)
    ensures Enrolled(w.store.fleet.sandboxes, w.store.fleet.credentials)
  {
    GoodIsReady(w);
    hide WorkersOk, Ready, LivesConsistent, Enrolled;
  }

  lemma RegisterGood(w: World, r: Registration, now: Time)
    requires Good(w) && Ready(w) && r.connection !in w.store.fleet.connections
    ensures Good(WithFleet(w, Register(w.store.fleet, r, now)))
  {
    hide Safe, WorkersOk, LivesConsistent, Grows, Register;
    RegisterSafe(w.store.fleet, w.quarantined, r, now);
    RegisterGrows(w.store.fleet, r, now);
    TableStepGood(w, Register(w.store.fleet, r, now));
  }

  lemma BeatGood(w: World, c: ConnectionId, a: Authority, instance: InstanceId, now: Time, timeout: nat)
    requires Good(w)
    ensures Good(WithFleet(w, Heartbeat(w.store.fleet, c, a, instance, now, timeout)))
  {
    HeartbeatMovesDeadline(w.store.fleet, c, a, instance, now, timeout);
    hide Safe, WorkersOk, LivesConsistent, Heartbeat;
    HeartbeatSafe(w.store.fleet, w.quarantined, c, a, instance, now, timeout);
    TableStepGood(w, Heartbeat(w.store.fleet, c, a, instance, now, timeout));
  }

  lemma ExpireGood(w: World, c: ConnectionId, now: Time)
    requires Good(w)
    ensures Good(WithFleet(w, Expire(w.store.fleet, c, now)))
  {
    hide Safe, WorkersOk, LivesConsistent, Grows, Expire;
    ExpireSafe(w.store.fleet, w.quarantined, c, now);
    ExpireGrows(w.store.fleet, c, now);
    TableStepGood(w, Expire(w.store.fleet, c, now));
  }

  // ------------------------------------------------------------------ leases

  lemma AddedLease(leases: Leases, x: SessionId, lease: Lease)
    requires x !in leases
    ensures |LeasesOn(leases[x := lease], lease.sandbox)| == |LeasesOn(leases, lease.sandbox)| + 1
    ensures forall b :: b != lease.sandbox ==> LeasesOn(leases[x := lease], b) == LeasesOn(leases, b)
  {
    assert LeasesOn(leases[x := lease], lease.sandbox) == LeasesOn(leases, lease.sandbox) + {x};
  }

  lemma RemovedLease(leases: Leases, x: SessionId)
    requires x in leases
    ensures |LeasesOn(leases - {x}, leases[x].sandbox)| == |LeasesOn(leases, leases[x].sandbox)| - 1
    ensures forall b :: b != leases[x].sandbox ==> LeasesOn(leases - {x}, b) == LeasesOn(leases, b)
  {
    assert LeasesOn(leases, leases[x].sandbox) == LeasesOn(leases - {x}, leases[x].sandbox) + {x};
  }

  lemma ExtendedLease(leases: Leases, x: SessionId, until: Time)
    requires x in leases
    ensures forall b :: LeasesOn(leases[x := leases[x].(validUntil := until)], b) == LeasesOn(leases, b)
  {
  }

  lemma GrantLoad(f: Fleet, x: SessionId, s: SandboxId, lease: Lease)
    requires Load(f.sandboxes, f.leases) && x !in f.leases && lease.sandbox == s && s in f.sandboxes
    ensures Load(GrantLease(f, x, s, lease).sandboxes, GrantLease(f, x, s, lease).leases)
  {
    AddedLease(f.leases, x, lease);
    hide LeasesOn;
  }

  lemma DropLoad(f: Fleet, x: SessionId)
    requires Load(f.sandboxes, f.leases) && CanRelease(f, x)
    ensures Load(Drop(f, x).sandboxes, Drop(f, x).leases)
  {
    RemovedLease(f.leases, x);
    hide LeasesOn;
  }

  /** One sandbox row swaps ready and leased, and leases change; nothing else does. */
  lemma LeaseStepSafe(f: Fleet, f': Fleet, s: SandboxId, quarantined: set<SandboxId>)
    requires Safe(f, quarantined) && RowChanged(f, f', s) && SameService(f.sandboxes[s].state, f'.sandboxes[s].state)
    requires Load(f'.sandboxes, f'.leases) && LeaseLinked(f'.sandboxes, f'.leases)
    ensures Safe(f', quarantined) && Grows(f, f')
  {
    RowGrows(f, f', s);
    SafeIs(f, quarantined);
    SafeIs(f', quarantined);
    hide Safe, Elsewhere, Load, LeaseLinked, Grows;
    SameServiceElsewhere(f, f', s, quarantined);
  }

  lemma LeaseStepGood(w: World, f': Fleet, s: SandboxId)
    requires Good(w) && RowChanged(w.store.fleet, f', s)
    requires SameService(w.store.fleet.sandboxes[s].state, f'.sandboxes[s].state)
    requires Load(f'.sandboxes, f'.leases) && LeaseLinked(f'.sandboxes, f'.leases)
    requires LeasedAlive(f'.leases, w.store.lives)
    ensures Good(WithFleet(w, f'))
  {
    hide Safe, WorkersOk, LivesConsistent, Load, LeaseLinked, LeasedAlive, Grows, RowChanged;
    LeaseStepSafe(w.store.fleet, f', s, w.quarantined);
    GrowsWorkers(w, f');
  }

  lemma GrantRow(f: Fleet, x: SessionId, s: SandboxId, lease: Lease)
    requires s in f.sandboxes && (f.sandboxes[s].state.Ready? || f.sandboxes[s].state.Leased?)
    requires lease.sandbox == s && LeaseLinked(f.sandboxes, f.leases)
    ensures RowChanged(f, GrantLease(f, x, s, lease), s)
    ensures SameService(f.sandboxes[s].state, GrantLease(f, x, s, lease).sandboxes[s].state)
    ensures LeaseLinked(GrantLease(f, x, s, lease).sandboxes, GrantLease(f, x, s, lease).leases)
    ensures GrantLease(f, x, s, lease).leases == f.leases[x := lease]
  {
  }

  lemma GrantGood(w: World, x: SessionId, c: ConnectionId, s: SandboxId, lease: Lease)
    requires Good(w) && CanGrant(w.store, x, c, s, lease)
    ensures Good(WithFleet(w, GrantLease(w.store.fleet, x, s, lease)))
  {
    var f' := GrantLease(w.store.fleet, x, s, lease);
    hide Good, Load, GrantLease, RowChanged, LeaseLinked, SameService, ActiveOn;
    LoadParts(w);
    GrantRow(w.store.fleet, x, s, lease);
    GrantLoad(w.store.fleet, x, s, lease);
    LeaseStepGood(w, f', s);
  }

  lemma LoadParts(w: World)
    requires Good(w)
    ensures Load(w.store.fleet.sandboxes, w.store.fleet.leases)
    ensures LeaseLinked(w.store.fleet.sandboxes, w.store.fleet.leases)
    ensures LeasedAlive(w.store.fleet.leases, w.store.lives) && LivesConsistent(w.store.lives)
  {
    hide WorkersOk, Load, LeaseLinked, LeasedAlive, LivesConsistent;
  }

  lemma DropRow(f: Fleet, x: SessionId)
    requires CanRelease(f, x) && LeaseLinked(f.sandboxes, f.leases)
    ensures RowChanged(f, Drop(f, x), f.leases[x].sandbox)
    ensures SameService(f.sandboxes[f.leases[x].sandbox].state, Drop(f, x).sandboxes[f.leases[x].sandbox].state)
    ensures LeaseLinked(Drop(f, x).sandboxes, Drop(f, x).leases)
    ensures Drop(f, x).leases == f.leases - {x}
  {
  }

  lemma DropGood(w: World, x: SessionId)
    requires Good(w) && CanRelease(w.store.fleet, x)
    ensures Good(WithFleet(w, Drop(w.store.fleet, x)))
  {
    var f' := Drop(w.store.fleet, x);
    LoadParts(w);
    hide Good, Load, Drop, RowChanged, LeaseLinked, SameService;
    DropRow(w.store.fleet, x);
    DropLoad(w.store.fleet, x);
    LeaseStepGood(w, f', w.store.fleet.leases[x].sandbox);
  }

  lemma ExtendedRow(f: Fleet, x: SessionId, until: Time)
    requires x in f.leases && LeaseLinked(f.sandboxes, f.leases) && Load(f.sandboxes, f.leases)
    ensures RowChanged(f, Extended(f, x, until), f.leases[x].sandbox)
    ensures Extended(f, x, until).sandboxes == f.sandboxes
    ensures LeaseLinked(f.sandboxes, Extended(f, x, until).leases)
    ensures Load(f.sandboxes, Extended(f, x, until).leases)
    ensures Extended(f, x, until).leases.Keys == f.leases.Keys
  {
    ExtendedLease(f.leases, x, until);
    assert f.sandboxes == f.sandboxes[f.leases[x].sandbox := f.sandboxes[f.leases[x].sandbox]];
    hide LeasesOn;
  }

  lemma ExtendedGood(w: World, x: SessionId, until: Time)
    requires Good(w)
    ensures Good(WithFleet(w, Extended(w.store.fleet, x, until)))
  {
    var f := w.store.fleet;
    if x in f.leases {
      hide Good, Load, Extended, RowChanged;
      LoadParts(w);
      ExtendedRow(f, x, until);
      assert f.leases[x].sandbox in f.sandboxes;
      hide LeaseLinked;
      LeaseStepGood(w, Extended(f, x, until), f.leases[x].sandbox);
    }
    hide Good;
  }

  // ------------------------------------------------------------------ sessions and reconciliation

  lemma LivesStepGood(w: World, lives: Lives)
    requires Good(w) && LivesConsistent(lives) && w.store.lives.Keys <= lives.Keys
    ensures Good(w.(store := w.store.(lives := lives)))
  {
    hide Safe, LivesConsistent;
    assert WorkersOk(w.(store := w.store.(lives := lives))) by {
      hide WorkersLinked, ClaimsLatest, AttemptsCounted, StopsConfirmed, RetiredTerminated, CompletionEarned;
    }
    hide WorkersOk;
  }

  lemma ExecuteGood(w: World, x: SessionId, e: L.Event)
    requires Good(w) && x in w.store.lives
    ensures Good(w.(store := w.store.(lives := w.store.lives[x := L.Do(w.store.lives[x], e)])))
  {
    var lives := w.store.lives[x := L.Do(w.store.lives[x], e)];
    LoadParts(w);
    hide Good, L.Do, A.Consistent;
    L.DoConsistent(w.store.lives[x], e);
    LivesStepGood(w, lives);
  }

  lemma OpenSessionGood(w: World, x: SessionId)
    requires Good(w)
    ensures Good(w.(store := w.store.(lives := w.store.lives[x := L.NEW_SESSION])))
  {
    var lives := w.store.lives[x := L.NEW_SESSION];
    LoadParts(w);
    assert L.NEW_SESSION == L.After([]);
    L.RunConsistent([]);
    hide Good, A.Consistent;
    LivesStepGood(w, lives);
  }

  /** Finalized sessions are consistent again, and no lease is left without its session. */
  lemma FinalizedLives(before: Store, after: Store, now: Time)
    requires LivesConsistent(before.lives) && LeasedAlive(before.fleet.leases, before.lives)
    requires LivesFinalized(before, after, now)
    requires forall x :: x in after.fleet.leases ==> x in before.fleet.leases
    ensures LivesConsistent(after.lives) && LeasedAlive(after.fleet.leases, after.lives)
  {
    hide A.Consistent, A.Finalize, LostLease;
    forall x | x in after.lives
      ensures A.Consistent(after.lives[x])
    {
      L.ReconcileConsistent(before.lives[x], now);
    }
  }

  lemma CommitExpiredGood(w: World, s: SandboxId, targets: seq<Assignment>, now: Time)
    requires Good(w) && CommitExpired(w.store, s, targets, now).Ok?
    ensures Good(w.(store := CommitExpired(w.store, s, targets, now).value.0))
  {
    var st := CommitExpired(w.store, s, targets, now).value.0;
    hide Safe, WorkersOk, LivesConsistent, CommitExpired, LivesFinalized, LeasedAlive, Grows, LeasesOn;
    CommitExpiredSafe(w.store, s, targets, now, w.quarantined);
    CommitKeepsLease(w.store, s, targets, now);
    FinalizedLives(w.store, st, now);
    CapacityExact(w.store, s, targets, now);
    CommitExpiredRows(w.store, s, targets, now);
    RowGrows(w.store.fleet, st.fleet, s);
    GrowsWorkers(w, st.fleet);
    assert WorkersOk(w.(store := st)) by {
      SameWorkers(WithFleet(w, st.fleet), w.(store := st));
    }
  }

  lemma CommitExpiredRows(st: Store, s: SandboxId, targets: seq<Assignment>, now: Time)
    requires CommitExpired(st, s, targets, now).Ok?
    ensures CommitExpired(st, s, targets, now).value.0.fleet.retirements == st.fleet.retirements
  {
    FinalizeAllChanges(st, s, targets, now, true);
    hide FinalizeAll, LivesFinalized, Targeted;
  }

  lemma SameWorkers(w: World, w': World)
    requires WorkersOk(w) && w'.workers == w.workers && w'.stopped == w.stopped && w'.store.fleet == w.store.fleet
    ensures WorkersOk(w')
  {
  }

  lemma QuarantineGood(w: World, s: SandboxId)
    requires Good(w)
    ensures Good(Quarantining(w, s))
  {
    var f := w.store.fleet;
    var f' := Quarantine(f, s);
    QuarantineKeeps(f, s);
    hide Safe, WorkersOk, LivesConsistent, Grows, Quarantine, NewlyQuarantined;
    QuarantineSafe(f, s, w.quarantined);
    GrowsWorkers(w, f');
    SameWorkers(WithFleet(w, f'), Quarantining(w, s));
  }

  lemma QuarantineKeeps(f: Fleet, s: SandboxId)
    ensures Grows(f, Quarantine(f, s)) && Quarantine(f, s).leases == f.leases
  {
    if s in f.sandboxes {
      assert Quarantine(f, s).sandboxes == f.sandboxes[s := Quarantine(f, s).sandboxes[s]];
      RowGrows(f, Quarantine(f, s), s);
    }
  }
}
