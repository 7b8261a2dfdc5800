/**
 Runs of the whole supervisor protocol: any interleaving of provisioning, registration, heartbeats,
 expiry, leases, execution, reconciliation and retirement workers of any number of control planes.
 */
module SupervisorRuns {
  import opened Common
  import opened SupervisorFleet
  import opened FleetSafety
  import opened Reconciliation
  import C = RetirementClaims
  import A = Assignments
  import L = LifecycleRuns
  import SM = StateMachines

  /** How far a retirement worker has come with its claim. */
  datatype Phase = Claiming | OwnerStopped | Renewed | Retired | Failing | Finished

  datatype Worker = Worker(
    sandbox: SandboxId,
    supervisor: SupervisorId,
    boot: BootId,
    owner: InstanceId,
    attempt: nat,
    phase: Phase)

  datatype Identity = Identity(supervisor: SupervisorId, boot: BootId, sandbox: SandboxId)

  /** The tables, the workers ever started, and what has happened outside the tables. */
  datatype World = World(
    store: Store,
    workers: map<ClaimId, Worker>,
    stopped: set<Identity>,
    quarantined: set<SandboxId>)

  datatype Step =
    | Provision(request: ProvisionRequest, conflict: Option<CredentialId>, maximum: nat, routeAllowed: bool, now: Time, ttl: nat)
    | RegisterBoot(registration: Registration, now: Time)
    | Beat(connection: ConnectionId, authority: Authority, instance: InstanceId, now: Time, timeout: nat)
    | ExpireConnection(connection: ConnectionId, now: Time)
    | OpenSession(session: SessionId)
    | Execute(session: SessionId, event: L.Event)
    | Grant(session: SessionId, connection: ConnectionId, sandbox: SandboxId, lease: Lease)
    | RenewLease(session: SessionId, until: Time)
    | ReleaseLease(session: SessionId)
    | ReconcileExpired(sandbox: SandboxId, targets: seq<Assignment>, now: Time)
    | QuarantineSandbox(sandbox: SandboxId)
    | TakeClaim(sandbox: SandboxId, claim: ClaimId, owner: InstanceId, now: Time, duration: nat)
    | StopOwner(claim: ClaimId)
    | RenewClaim(claim: ClaimId, now: Time, duration: nat)
    | RetireSandbox(claim: ClaimId, assignments: seq<Assignment>, now: Time)
    | CompleteClaim(claim: ClaimId)
    | FailClaim(claim: ClaimId, retryable: bool, now: Time, delay: nat)

  const EMPTY_WORLD := World(Store(EMPTY_FLEET, map[]), map[], {}, {})

  function WithFleet(w: World, f: Fleet): World {
    w.(store := w.store.(fleet := f))
  }

  function WithRetirements(w: World, rt: Retirements): World {
    WithFleet(w, w.store.fleet.(retirements := rt))
  }

  function InPhase(w: World, id: ClaimId, phase: Phase): World
    requires id in w.workers
  {
    w.(workers := w.workers[id := w.workers[id].(phase := phase)])
  }

  // ------------------------------------------------------------------ leases, granted and given back elsewhere

  predicate CanGrant(st: Store, x: SessionId, c: ConnectionId, s: SandboxId, lease: Lease) {
    && x in st.lives && x !in st.fleet.leases && lease.sandbox == s
    && (st.lives[x].state.Cold? || st.lives[x].state.Idle?)
    && ActiveOn(st.fleet.connections, c, s) && s in st.fleet.sandboxes
    && (st.fleet.sandboxes[s].state.Ready? || st.fleet.sandboxes[s].state.Leased?)
    && st.fleet.sandboxes[s].activeSessions < st.fleet.sandboxes[s].capacity
  }

  function GrantLease(f: Fleet, x: SessionId, s: SandboxId, lease: Lease): Fleet
    requires s in f.sandboxes
  {
    f.(leases := f.leases[x := lease],
       sandboxes := f.sandboxes[s := f.sandboxes[s].(
         state := SM.SandboxState.Leased, activeSessions := f.sandboxes[s].activeSessions + 1)])
  }

  predicate CanRelease(f: Fleet, x: SessionId) {
    && x in f.leases && f.leases[x].sandbox in f.sandboxes
    && f.sandboxes[f.leases[x].sandbox].activeSessions >= 1
    && (var state := f.sandboxes[f.leases[x].sandbox].state; state.Leased? || state.Draining? || state.Failed?)
  }

  function Drop(f: Fleet, x: SessionId): Fleet
    requires CanRelease(f, x)
  {
    var s := f.leases[x].sandbox;
    var remaining := f.sandboxes[s].activeSessions - 1;
    f.(leases := f.leases - {x},
       sandboxes := f.sandboxes[s := f.sandboxes[s].(
         activeSessions := remaining,
         state := if remaining == 0 && f.sandboxes[s].state.Leased? then SM.SandboxState.Ready else f.sandboxes[s].state)])
  }

  function Extended(f: Fleet, x: SessionId, until: Time): Fleet {
    if x in f.leases then f.(leases := f.leases[x := f.leases[x].(validUntil := until)]) else f
  }

  // ------------------------------------------------------------------ retirement workers

  function ClaimDue(w: World, s: SandboxId, id: ClaimId, owner: InstanceId, now: Time, duration: nat): World {
    var rt := w.store.fleet.retirements;
    if s in rt && C.Claimable(rt[s], now) && id !in w.workers
    then
      WithRetirements(w, C.Take(rt, s, id, owner, now, duration)).(
        workers := w.workers[id := Worker(s, rt[s].supervisor, rt[s].boot, owner, rt[s].attempts + 1, Claiming)])
    else w
  }

  predicate At(w: World, id: ClaimId, phase: Phase) {
    id in w.workers && w.workers[id].phase == phase
  }

  function Stop(w: World, id: ClaimId): World {
    if At(w, id, Claiming)
    then
      var k := w.workers[id];
      InPhase(w, id, OwnerStopped).(stopped := w.stopped + {Identity(k.supervisor, k.boot, k.sandbox)})
    else w
  }

  function Renewal(w: World, id: ClaimId, now: Time, duration: nat): World {
    if At(w, id, OwnerStopped)
    then
      var k := w.workers[id];
      match C.Renew(w.store.fleet.retirements, k.sandbox, id, k.owner, now, duration)
      case Some(rt) => WithRetirements(InPhase(w, id, Renewed), rt)
      case None => InPhase(w, id, Failing)
    else w
  }

  /** Quarantine after a failed reconciliation or retirement. */
  function Quarantining(w: World, s: SandboxId): World {
    WithFleet(w, Quarantine(w.store.fleet, s)).(quarantined := w.quarantined + NewlyQuarantined(w.store.fleet, s))
  }

  function Retire(w: World, id: ClaimId, assignments: seq<Assignment>, now: Time): World {
    if At(w, id, Renewed)
    then
      var s := w.workers[id].sandbox;
      match BeginRetirement(w.store.fleet, s)
      case Err(_) => Quarantining(InPhase(w, id, Failing), s)
      case Ok(f) =>
        match CommitRetirement(w.store.(fleet := f), s, assignments, now)
        case Ok((st, _)) => InPhase(w, id, Retired).(store := st)
        case Err(_) => Quarantining(WithFleet(InPhase(w, id, Failing), f), s)
    else w
  }

  function Completion(w: World, id: ClaimId): World {
    if At(w, id, Retired)
    then
      var k := w.workers[id];
      match C.Complete(w.store.fleet, k.sandbox, k.supervisor, k.boot, id, k.owner)
      case Some(rt) => WithRetirements(InPhase(w, id, Finished), rt)
      case None => InPhase(w, id, Failing)
    else w
  }

  function Failure(w: World, id: ClaimId, retryable: bool, now: Time, delay: nat): World {
    if id in w.workers && w.workers[id].phase != Finished
    then
      var k := w.workers[id];
      match C.Release(w.store.fleet.retirements, k.sandbox, id, k.owner, retryable, now, delay)
      case Some(rt) => WithRetirements(InPhase(w, id, Finished), rt)
      case None => InPhase(w, id, Finished)
    else w
  }

  // ------------------------------------------------------------------ one step

  ghost predicate Ready(w: World) {
    OnePerSandbox(w.store.fleet.connections) && RequestsUnique(w.store.fleet.connections)
  }

  function ProvisionedFleet(f: Fleet, p: ProvisionRequest, conflict: Option<CredentialId>, maximum: nat,
                       routeAllowed: bool, now: Time, ttl: nat): Fleet {
    if ConflictAnswer(f, p, conflict)
    then
      match ProvisionWith(f, p, conflict, maximum, routeAllowed, now, ttl)
      case Ok((f', _)) => f'
      case Err(_) => f
    else f
  }

  function Reconciled(w: World, s: SandboxId, targets: seq<Assignment>, now: Time): World {
    match CommitExpired(w.store, s, targets, now)
    case Ok((st, _)) => w.(store := st)
    case Err(_) => Quarantining(w, s)
  }

  ghost function Do(w: World, step: Step): World {
    var f := w.store.fleet;
    match step
    case Provision(p, conflict, maximum, allowed, now, ttl) => WithFleet(w, ProvisionedFleet(f, p, conflict, maximum, allowed, now, ttl))
    case RegisterBoot(r, now) =>
      if Ready(w) && r.connection !in f.connections then WithFleet(w, Register(f, r, now)) else w
    case Beat(c, a, instance, now, timeout) => WithFleet(w, Heartbeat(f, c, a, instance, now, timeout))
    case ExpireConnection(c, now) => WithFleet(w, Expire(f, c, now))
    case OpenSession(x) => if x in w.store.lives then w else w.(store := w.store.(lives := w.store.lives[x := L.NEW_SESSION]))
    case Execute(x, e) =>
      if x in w.store.lives && !e.Reconcile?
      then w.(store := w.store.(lives := w.store.lives[x := L.Do(w.store.lives[x], e)])) else w
    case Grant(x, c, s, lease) => if CanGrant(w.store, x, c, s, lease) then WithFleet(w, GrantLease(f, x, s, lease)) else w
    case RenewLease(x, until) => WithFleet(w, Extended(f, x, until))
    case ReleaseLease(x) => if CanRelease(f, x) then WithFleet(w, Drop(f, x)) else w
    case ReconcileExpired(s, targets, now) => Reconciled(w, s, targets, now)
    case QuarantineSandbox(s) => Quarantining(w, s)
    case TakeClaim(s, id, owner, now, duration) => ClaimDue(w, s, id, owner, now, duration)
    case StopOwner(id) => Stop(w, id)
    case RenewClaim(id, now, duration) => Renewal(w, id, now, duration)
    case RetireSandbox(id, assignments, now) => Retire(w, id, assignments, now)
    case CompleteClaim(id) => Completion(w, id)
    case FailClaim(id, retryable, now, delay) => Failure(w, id, retryable, now, delay)
  }

  // ------------------------------------------------------------------ the invariant of every run

  function IdentityOf(k: Worker): Identity {
    Identity(k.supervisor, k.boot, k.sandbox)
  }

  predicate PastStop(p: Phase) {
    p.OwnerStopped? || p.Renewed? || p.Retired?
  }

  /** Workers know the row they claimed, and the attempt they claimed it for. */
  ghost predicate WorkersLinked(workers: map<ClaimId, Worker>, rt: Retirements) {
    forall id :: id in workers ==>
      var k := workers[id];
      && k.sandbox in rt && k.supervisor == rt[k.sandbox].supervisor && k.boot == rt[k.sandbox].boot
      && 1 <= k.attempt <= rt[k.sandbox].attempts
  }

  /** The claim on a row belongs to the worker of the row's latest attempt. */
  ghost predicate ClaimsLatest(workers: map<ClaimId, Worker>, rt: Retirements) {
    forall s :: s in rt && rt[s].claim.Some? ==>
      var id := rt[s].claim.value.id;
      && id in workers && workers[id].sandbox == s && workers[id].attempt == rt[s].attempts
      && workers[id].owner == rt[s].claim.value.owner
  }

  function WorkersOf(workers: map<ClaimId, Worker>, s: SandboxId): set<ClaimId> {
    set id | id in workers && workers[id].sandbox == s
  }

  /** `attempts` counts the claims that were ever taken. */
  ghost predicate AttemptsCounted(workers: map<ClaimId, Worker>, rt: Retirements) {
    forall s :: s in rt ==> rt[s].attempts == |WorkersOf(workers, s)|
  }

  /** A worker gets past its stop only by confirming it, and past retiring only by terminating the sandbox. */
  ghost predicate StopsConfirmed(workers: map<ClaimId, Worker>, stopped: set<Identity>) {
    forall id :: id in workers && PastStop(workers[id].phase) ==> IdentityOf(workers[id]) in stopped
  }

  ghost predicate RetiredTerminated(workers: map<ClaimId, Worker>, sandboxes: Sandboxes) {
    forall id :: id in workers && workers[id].phase.Retired? ==>
      workers[id].sandbox in sandboxes && sandboxes[workers[id].sandbox].state.Terminated?
  }

  ghost predicate CompletionEarned(f: Fleet, stopped: set<Identity>) {
    forall s :: s in f.retirements && f.retirements[s].state.Completed? ==>
      && s in f.sandboxes && f.sandboxes[s].state.Terminated?
      && Identity(f.retirements[s].supervisor, f.retirements[s].boot, s) in stopped
  }

  ghost predicate LivesConsistent(lives: Lives) {
    forall x :: x in lives ==> A.Consistent(lives[x])
  }

  ghost predicate LeasedAlive(leases: Leases, lives: Lives) {
    forall x :: x in leases ==> x in lives
  }

  ghost predicate WorkersOk(w: World) {
    && WorkersLinked(w.workers, w.store.fleet.retirements)
    && ClaimsLatest(w.workers, w.store.fleet.retirements)
    && AttemptsCounted(w.workers, w.store.fleet.retirements)
    && StopsConfirmed(w.workers, w.stopped)
    && RetiredTerminated(w.workers, w.store.fleet.sandboxes)
    && CompletionEarned(w.store.fleet, w.stopped)
  }

  ghost predicate Good(w: World) {
    && Safe(w.store.fleet, w.quarantined)
    && WorkersOk(w)
    && LivesConsistent(w.store.lives)
    && LeasedAlive(w.store.fleet.leases, w.store.lives)
  }

  // ------------------------------------------------------------------ runs

  ghost function After(steps: seq<Step>): World {
    if steps == [] then EMPTY_WORLD else Do(After(steps[..|steps| - 1]), steps[|steps| - 1])
  }
}
