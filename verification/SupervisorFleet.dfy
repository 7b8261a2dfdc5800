/**
 The tables of the supervisor protocol and its transactions: provisioning a boot, registering,
 heartbeats, expiry and fencing.
 */
module SupervisorFleet {
  import opened Common
  import SM = StateMachines

  type Time = nat
  type SupervisorId = nat
  type BootId = nat
  type SandboxId = nat
  type SessionId = nat
  type ConnectionId = nat
  type InstanceId = nat
  type CredentialId = nat
  type ClaimId = nat

  datatype Reason = HeartbeatTimeout | NewBoot

  datatype Sandbox = Sandbox(
    supervisor: SupervisorId,
    boot: BootId,
    state: SM.SandboxState,
    capacity: nat,
    activeSessions: nat)

  datatype ConnectionState = Active | Superseded | Fenced(reason: Reason)

  datatype Connection = Connection(
    transport: nat,
    message: nat,
    sandbox: SandboxId,
    supervisor: SupervisorId,
    boot: BootId,
    instance: InstanceId,
    fingerprint: nat,
    state: ConnectionState,
    expiresAt: Time)

  datatype Claim = Claim(id: ClaimId, owner: InstanceId, until: Time)

  datatype RetirementState = Waiting | Claimed | Blocked | Completed

  datatype Retirement = Retirement(
    supervisor: SupervisorId,
    boot: BootId,
    reason: Reason,
    state: RetirementState,
    attempts: nat,
    createdAt: Time,
    availableAt: Time,
    claim: Option<Claim>,
    failed: bool)

  datatype Lease = Lease(id: nat, sandbox: SandboxId, token: nat, validUntil: Time)

  datatype Host = Host(capacity: nat, url: nat)

  datatype Credential = Credential(
    digest: nat,
    request: nat,
    sandbox: SandboxId,
    supervisor: SupervisorId,
    boot: BootId,
    expiresAt: Time,
    revoked: bool)

  type Sandboxes = map<SandboxId, Sandbox>
  type Connections = map<ConnectionId, Connection>
  type Retirements = map<SandboxId, Retirement>
  type Leases = map<SessionId, Lease>
  type Hosts = map<SupervisorId, Host>
  type Credentials = map<CredentialId, Credential>

  datatype Fleet = Fleet(
    hosts: Hosts,
    credentials: Credentials,
    sandboxes: Sandboxes,
    connections: Connections,
    retirements: Retirements,
    leases: Leases)

  const EMPTY_FLEET := Fleet(map[], map[], map[], map[], map[], map[])

  // ------------------------------------------------------------------ fencing

  /** Every active connection of a sandbox in `fenced` is closed. */
  function CloseAll(connections: Connections, fenced: set<SandboxId>, reason: Reason): Connections {
    map c | c in connections ::
      if connections[c].sandbox in fenced && connections[c].state.Active?
      then connections[c].(state := Fenced(reason)) else connections[c]
  }

  function FailAll(sandboxes: Sandboxes, fenced: set<SandboxId>): Sandboxes {
    map s | s in sandboxes ::
      if s in fenced && !sandboxes[s].state.Terminated?
      then sandboxes[s].(state := SM.SandboxState.Failed) else sandboxes[s]
  }

  function NewRetirement(sandbox: Sandbox, reason: Reason, now: Time): Retirement {
    Retirement(sandbox.supervisor, sandbox.boot, reason, Waiting, 0, now, now, None, false)
  }

  /** One retirement row per fenced sandbox; an existing row is left alone. */
  function RetireAll(retirements: Retirements, sandboxes: Sandboxes, fenced: set<SandboxId>, reason: Reason, now: Time)
    : Retirements
  {
    map s | s in retirements.Keys + (fenced * sandboxes.Keys) &&
            (s in retirements || !sandboxes[s].state.Terminated?) ::
      if s in retirements then retirements[s] else NewRetirement(sandboxes[s], reason, now)
  }

  function FenceAll(f: Fleet, fenced: set<SandboxId>, reason: Reason, now: Time): Fleet {
    f.(connections := CloseAll(f.connections, fenced, reason),
       sandboxes := FailAll(f.sandboxes, fenced),
       retirements := RetireAll(f.retirements, f.sandboxes, fenced, reason, now))
  }

  lemma FenceNone(f: Fleet, reason: Reason, now: Time)
    ensures FenceAll(f, {}, reason, now) == f
  {
    assert RetireAll(f.retirements, f.sandboxes, {}, reason, now) == f.retirements;
  }

  /** Fencing sandboxes one at a time is fencing them together. */
  lemma FenceOneMore(f: Fleet, fenced: set<SandboxId>, s: SandboxId, reason: Reason, now: Time)
    requires s in f.sandboxes && fenced <= f.sandboxes.Keys
    ensures FenceAll(FenceAll(f, fenced, reason, now), {s}, reason, now) == FenceAll(f, fenced + {s}, reason, now)
  {
    var g := FenceAll(f, fenced, reason, now);
    assert CloseAll(g.connections, {s}, reason) == CloseAll(f.connections, fenced + {s}, reason);
    assert FailAll(g.sandboxes, {s}) == FailAll(f.sandboxes, fenced + {s});
    RetireOneMore(f, fenced, s, reason, now);
  }

  lemma RetireOneMore(f: Fleet, fenced: set<SandboxId>, s: SandboxId, reason: Reason, now: Time)
    requires s in f.sandboxes && fenced <= f.sandboxes.Keys
    ensures RetireAll(RetireAll(f.retirements, f.sandboxes, fenced, reason, now), FailAll(f.sandboxes, fenced), {s}, reason, now) ==
            RetireAll(f.retirements, f.sandboxes, fenced + {s}, reason, now)
  {
    var rt := RetireAll(f.retirements, f.sandboxes, fenced, reason, now);
    var rt' := RetireAll(rt, FailAll(f.sandboxes, fenced), {s}, reason, now);
    var all := RetireAll(f.retirements, f.sandboxes, fenced + {s}, reason, now);
    assert rt'.Keys == all.Keys;
    forall t | t in all
      ensures rt'[t] == all[t]
    {
    }
  }

  // ------------------------------------------------------------------ register

  datatype Authority = Authority(supervisor: SupervisorId, boot: BootId, sandbox: SandboxId, transport: nat)

  datatype Registration = Registration(
    authority: Authority,
    instance: InstanceId,
    message: nat,
    fingerprint: nat,
    capacity: nat,
    policyAccepted: bool,
    connection: ConnectionId,
    heartbeatTimeout: nat)

  datatype Rejection =
    | UnauthorizedSandbox
    | BootIdentityCollision
    | CapacityMismatch
    | RegistrationConflict
    | StaleRegistration
    | RegistrationReplay
    | SandboxUnavailable
    | RegistrationInvariant
    | UnsupportedRuntime
    | UniqueViolation

  /** What a registration does: reject, reject after fencing its own sandbox, replay, or open a connection. */
  datatype Decision =
    | Reject(code: Rejection)
    | Expired
    | Replay(connection: ConnectionId)
    | Open(superseding: Option<ConnectionId>)

  function SandboxesOf(sandboxes: Sandboxes, supervisor: SupervisorId): set<SandboxId> {
    set s | s in sandboxes && sandboxes[s].supervisor == supervisor
  }

  predicate OnSandboxOf(f: Fleet, c: ConnectionId, supervisor: SupervisorId) {
    c in f.connections && f.connections[c].sandbox in SandboxesOf(f.sandboxes, supervisor)
  }

  predicate ActiveOn(connections: Connections, c: ConnectionId, s: SandboxId) {
    c in connections && connections[c].sandbox == s && connections[c].state.Active?
  }

  /** The active connection of a sandbox. */
  function CurrentActive(connections: Connections, s: SandboxId): (r: Option<ConnectionId>)
    requires OnePerSandbox(connections)
    ensures r.Some? ==> ActiveOn(connections, r.value, s)
    ensures r.None? ==> forall c :: !ActiveOn(connections, c, s)
  {
    if exists c | c in connections :: ActiveOn(connections, c, s)
    then
      var c :| c in connections && ActiveOn(connections, c, s);
      Some(c)
    else None
  }

  /** The connection a transport already opened on one of the supervisor's sandboxes. */
  function TransportConnection(f: Fleet, supervisor: SupervisorId, transport: nat): (r: Option<ConnectionId>)
    requires RequestsUnique(f.connections)
    ensures r.Some? ==> OnSandboxOf(f, r.value, supervisor) && f.connections[r.value].transport == transport
    ensures r.None? ==> forall c :: OnSandboxOf(f, c, supervisor) ==> f.connections[c].transport != transport
  {
    if exists c | c in f.connections :: OnSandboxOf(f, c, supervisor) && f.connections[c].transport == transport
    then
      var c :| c in f.connections && OnSandboxOf(f, c, supervisor) && f.connections[c].transport == transport;
      Some(c)
    else None
  }

  predicate SameRegistration(c: Connection, r: Registration) {
    && c.message == r.message && c.fingerprint == r.fingerprint
    && c.supervisor == r.authority.supervisor && c.boot == r.authority.boot
    && c.sandbox == r.authority.sandbox && c.instance == r.instance
  }

  predicate Identified(f: Fleet, a: Authority) {
    && a.sandbox in f.sandboxes
    && f.sandboxes[a.sandbox].supervisor == a.supervisor
    && f.sandboxes[a.sandbox].boot == a.boot
  }

  predicate BootElsewhere(f: Fleet, a: Authority) {
    exists s :: s in SandboxesOf(f.sandboxes, a.supervisor) && s != a.sandbox && f.sandboxes[s].boot == a.boot
  }

  predicate MessageUsed(f: Fleet, message: nat) {
    exists c :: c in f.connections && f.connections[c].message == message
  }

  predicate HasHistory(f: Fleet, s: SandboxId) {
    exists c :: c in f.connections && f.connections[c].sandbox == s
  }

  predicate TransportUsed(f: Fleet, transport: nat) {
    exists c :: c in f.connections && f.connections[c].transport == transport
  }

  predicate Unavailable(s: SM.SandboxState) {
    s.Failed? || s.Draining? || s.Terminated?
  }

  function DecideReplay(c: ConnectionId, row: Connection, r: Registration, now: Time): (d: Decision)
    ensures !d.Open?
  {
    if !SameRegistration(row, r) then Reject(RegistrationConflict)
    else if row.state.Active? && row.expiresAt > now then Replay(c)
    else if row.state.Active? then Expired
    else Reject(StaleRegistration)
  }

  function DecideNew(f: Fleet, r: Registration, now: Time): Decision
    requires OnePerSandbox(f.connections) && r.authority.sandbox in f.sandboxes
  {
    var s := r.authority.sandbox;
    var state := f.sandboxes[s].state;
    var active := CurrentActive(f.connections, s);
    if MessageUsed(f, r.message) then Reject(RegistrationReplay)
    else if Unavailable(state) then Reject(SandboxUnavailable)
    else if state.Provisioning? && HasHistory(f, s) then Reject(RegistrationInvariant)
    else if (state.Ready? || state.Leased?) && active.None? && HasHistory(f, s) then Reject(StaleRegistration)
    else if active.Some? && f.connections[active.value].expiresAt <= now then Expired
    else if !r.policyAccepted then Reject(UnsupportedRuntime)
    else if TransportUsed(f, r.authority.transport) then Reject(UniqueViolation)
    else Open(active)
  }

  function Decide(f: Fleet, r: Registration, now: Time): Decision
    requires OnePerSandbox(f.connections) && RequestsUnique(f.connections)
  {
    if !Identified(f, r.authority) then Reject(UnauthorizedSandbox)
    else if BootElsewhere(f, r.authority) then Reject(BootIdentityCollision)
    else if r.capacity != f.sandboxes[r.authority.sandbox].capacity then Reject(CapacityMismatch)
    else
      match TransportConnection(f, r.authority.supervisor, r.authority.transport)
      case Some(c) => DecideReplay(c, f.connections[c], r, now)
      case None => DecideNew(f, r, now)
  }

  function NewConnection(r: Registration, now: Time): Connection {
    Connection(r.authority.transport, r.message, r.authority.sandbox, r.authority.supervisor, r.authority.boot,
               r.instance, r.fingerprint, Active, now + r.heartbeatTimeout)
  }

  /** The sandboxes of the supervisor that a newer boot replaces. */
  function Replaced(f: Fleet, a: Authority): set<SandboxId> {
    set s | s in SandboxesOf(f.sandboxes, a.supervisor) && s != a.sandbox && !f.sandboxes[s].state.Terminated?
  }

  function Supersede(connections: Connections, previous: Option<ConnectionId>): Connections {
    match previous
    case Some(c) => if c in connections then connections[c := connections[c].(state := Superseded)] else connections
    case None => connections
  }

  function Readied(sandboxes: Sandboxes, s: SandboxId): Sandboxes {
    if s in sandboxes && sandboxes[s].state.Provisioning?
    then sandboxes[s := sandboxes[s].(state := SM.SandboxState.Ready)] else sandboxes
  }

  function OpenConnection(f: Fleet, r: Registration, superseding: Option<ConnectionId>, now: Time): Fleet {
    var g := FenceAll(f, Replaced(f, r.authority), NewBoot, now);
    g.(connections := Supersede(g.connections, superseding)[r.connection := NewConnection(r, now)],
       sandboxes := Readied(g.sandboxes, r.authority.sandbox))
  }

  function Register(f: Fleet, r: Registration, now: Time): Fleet
    requires OnePerSandbox(f.connections) && RequestsUnique(f.connections)
  {
    match Decide(f, r, now)
    case Reject(_) => f
    case Expired => FenceAll(f, {r.authority.sandbox}, HeartbeatTimeout, now)
    case Replay(_) => f
    case Open(previous) => OpenConnection(f, r, previous, now)
  }

  /** What the caller of a registration is told. */
  function Answer(f: Fleet, r: Registration, now: Time): Result<ConnectionId, Rejection>
    requires OnePerSandbox(f.connections) && RequestsUnique(f.connections)
  {
    match Decide(f, r, now)
    case Reject(code) => Err(code)
    case Expired => Err(StaleRegistration)
    case Replay(c) => Ok(c)
    case Open(_) => Ok(r.connection)
  }

  // ------------------------------------------------------------------ authority, heartbeats and expiry

  predicate IsCurrent(connections: Connections, c: ConnectionId, a: Authority, instance: InstanceId, now: Time) {
    && c in connections
    && connections[c].sandbox == a.sandbox && connections[c].supervisor == a.supervisor
    && connections[c].boot == a.boot && connections[c].transport == a.transport
    && connections[c].instance == instance
    && connections[c].state.Active? && connections[c].expiresAt > now
  }

  /** A published event is accepted only over the current connection and under the session's live lease. */
  predicate EventAuthorized(f: Fleet, c: ConnectionId, a: Authority, instance: InstanceId,
                            session: SessionId, lease: nat, token: nat, now: Time) {
    && IsCurrent(f.connections, c, a, instance, now)
    && session in f.leases
    && f.leases[session].sandbox == a.sandbox
    && f.leases[session].id == lease && f.leases[session].token == token
    && f.leases[session].validUntil > now
  }

  /** The empty heartbeat: extend the current connection, or report it stale and change nothing. */
  function Heartbeat(f: Fleet, c: ConnectionId, a: Authority, instance: InstanceId, now: Time, timeout: nat): Fleet {
    if IsCurrent(f.connections, c, a, instance, now)
    then f.(connections := f.connections[c := f.connections[c].(expiresAt := now + timeout)])
    else f
  }

  predicate IsExpired(connections: Connections, c: ConnectionId, now: Time) {
    c in connections && connections[c].state.Active? && connections[c].expiresAt <= now
  }

  function Expire(f: Fleet, c: ConnectionId, now: Time): Fleet {
    if IsExpired(f.connections, c, now)
    then FenceAll(f, {f.connections[c].sandbox}, HeartbeatTimeout, now)
    else f
  }

  // ------------------------------------------------------------------ provisioning a boot

  datatype ProvisionRequest = ProvisionRequest(
    credential: CredentialId,
    digest: nat,
    request: nat,
    supervisor: SupervisorId,
    boot: BootId,
    sandbox: SandboxId,
    capacity: nat,
    url: nat)

  datatype ProvisionError = PolicyRejected | HostPolicyConflict | IdentityConflict | DigestTaken

  datatype Provisioned = Provisioned(expiresAt: Time, idempotent: bool)

  predicate Conflicts(row: Credential, id: CredentialId, p: ProvisionRequest) {
    || id == p.credential || row.request == p.request || row.sandbox == p.sandbox
    || (row.supervisor == p.supervisor && row.boot == p.boot)
  }

  predicate SameProvision(f: Fleet, row: Credential, id: CredentialId, p: ProvisionRequest) {
    && id == p.credential && row.digest == p.digest && row.request == p.request
    && row.sandbox == p.sandbox && row.supervisor == p.supervisor && row.boot == p.boot
    && p.sandbox in f.sandboxes && f.sandboxes[p.sandbox].capacity == p.capacity
    && p.supervisor in f.hosts && f.hosts[p.supervisor].url == p.url
  }

  /** The host row of a supervisor: created once, never widened, narrowed to the configured maximum. */
  function HostFor(hosts: Hosts, p: ProvisionRequest, maximum: nat): Result<Hosts, ProvisionError> {
    if p.supervisor !in hosts then Ok(hosts[p.supervisor := Host(maximum, p.url)])
    else if hosts[p.supervisor].capacity < maximum || hosts[p.supervisor].url != p.url then Err(HostPolicyConflict)
    else Ok(hosts[p.supervisor := hosts[p.supervisor].(capacity := maximum)])
  }

  function RevokeAll(credentials: Credentials, supervisor: SupervisorId): Credentials {
    map k | k in credentials ::
      if credentials[k].supervisor == supervisor then credentials[k].(revoked := true) else credentials[k]
  }

  function Enroll(f: Fleet, p: ProvisionRequest, now: Time, ttl: nat): Fleet {
    f.(sandboxes := f.sandboxes[p.sandbox :=
         Sandbox(p.supervisor, p.boot, SM.SandboxState.Provisioning, p.capacity, 0)],
       credentials := RevokeAll(f.credentials, p.supervisor)[p.credential :=
         Credential(p.digest, p.request, p.sandbox, p.supervisor, p.boot, now + ttl, false)])
  }

  /** The transaction, given the conflicting credential its query returned, if it returned one. */
  function ProvisionWith(f: Fleet, p: ProvisionRequest, conflict: Option<CredentialId>, maximum: nat,
                         routeAllowed: bool, now: Time, ttl: nat)
    : Result<(Fleet, Provisioned), ProvisionError>
    requires conflict.Some? ==> conflict.value in f.credentials
  {
    if !routeAllowed || p.capacity > maximum then Err(PolicyRejected)
    else
      match HostFor(f.hosts, p, maximum)
      case Err(e) => Err(e)
      case Ok(hosts) =>
        var g := f.(hosts := hosts);
        match conflict
        case Some(k) =>
          if SameProvision(g, g.credentials[k], k, p) && !g.credentials[k].revoked && g.credentials[k].expiresAt > now
          then Ok((g, Provisioned(g.credentials[k].expiresAt, true)))
          else Err(IdentityConflict)
        case None =>
          if exists k :: k in g.credentials && g.credentials[k].digest == p.digest then Err(DigestTaken)
          else Ok((Enroll(g, p, now, ttl), Provisioned(now + ttl, false)))
  }

  /** Any conflicting row may be returned, none only if there is none. */
  predicate ConflictAnswer(f: Fleet, p: ProvisionRequest, conflict: Option<CredentialId>) {
    match conflict
    case Some(k) => k in f.credentials && Conflicts(f.credentials[k], k, p)
    case None => forall k :: k in f.credentials ==> !Conflicts(f.credentials[k], k, p)
  }

  // ------------------------------------------------------------------ what every transaction keeps

  /** At most one connection of a supervisor is active, over all its boots. */
  ghost predicate OneActive(connections: Connections) {
    forall c, d ::
      && c in connections && d in connections
      && connections[c].state.Active? && connections[d].state.Active?
      && connections[c].supervisor == connections[d].supervisor
      ==> c == d
  }

  /** The unique index on active connections by sandbox. */
  ghost predicate OnePerSandbox(connections: Connections) {
    forall c, d, s :: ActiveOn(connections, c, s) && ActiveOn(connections, d, s) ==> c == d
  }

  /** The unique indexes on transports and on registration messages. */
  ghost predicate RequestsUnique(connections: Connections) {
    forall c, d ::
      && c in connections && d in connections
      && (connections[c].transport == connections[d].transport || connections[c].message == connections[d].message)
      ==> c == d
  }
}
