/**
 Exactly which registrations are accepted, what an accepted one is good for, and that an expired
 connection stays dead.
 */
module RegistrationConditions {
  import opened Common
  import opened SupervisorFleet
  import opened FleetSafety

  // ------------------------------------------------------------------ which registrations are accepted

  /** Nothing stands against opening a connection: the sandbox, the transport, the message and a running connection. */
  ghost predicate MayOpen(f: Fleet, r: Registration, now: Time) {
    && Named(f, r) && r.policyAccepted
    && (forall c :: c in f.connections ==>
          f.connections[c].transport != r.authority.transport && f.connections[c].message != r.message)
    && (f.sandboxes[r.authority.sandbox].state.Provisioning? || Kept(f, r.authority.sandbox))
    && (forall c :: ActiveOn(f.connections, c, r.authority.sandbox) ==> f.connections[c].expiresAt > now)
  }

  /** The registration names a sandbox of its own supervisor and boot, with that sandbox's capacity. */
  ghost predicate Named(f: Fleet, r: Registration) {
    && r.authority.sandbox in f.sandboxes
    && f.sandboxes[r.authority.sandbox].supervisor == r.authority.supervisor
    && f.sandboxes[r.authority.sandbox].boot == r.authority.boot
    && f.sandboxes[r.authority.sandbox].capacity == r.capacity
  }

  /** The sandbox serves, and if it was ever connected it is connected now. */
  ghost predicate Kept(f: Fleet, s: SandboxId) {
    && s in f.sandboxes && (f.sandboxes[s].state.Ready? || f.sandboxes[s].state.Leased?)
    && ((exists c :: ActiveOn(f.connections, c, s)) || (forall c :: c in f.connections ==> f.connections[c].sandbox != s))
  }

  /** Connection `c` was opened by this very registration, and runs. */
  ghost predicate Repeats(f: Fleet, r: Registration, now: Time, c: ConnectionId) {
    && Named(f, r) && c in f.connections && f.connections[c].state.Active? && f.connections[c].expiresAt > now
    && f.connections[c].transport == r.authority.transport && f.connections[c].message == r.message
    && f.connections[c].fingerprint == r.fingerprint && f.connections[c].instance == r.instance
    && f.connections[c].sandbox == r.authority.sandbox
    && f.connections[c].supervisor == r.authority.supervisor && f.connections[c].boot == r.authority.boot
  }

  lemma SafeParts(f: Fleet, quarantined: set<SandboxId>)
    requires Safe(f, quarantined)
    ensures OnePerSandbox(f.connections) && RequestsUnique(f.connections)
    ensures Linked(f.sandboxes, f.connections) && CredentialsUnique(f.credentials)
    ensures Enrolled(f.sandboxes, f.credentials)
  {
    OneAuthority(f);
    hide Linked, OneActive, RequestsUnique, Serving, Quarantined, RetirementLinked, RetiredClosed, ClaimShape, Load,
      LeaseLinked, CredentialsUnique, Enrolled, OnePerSandbox;
  }

  lemma NewOpensIff(f: Fleet, r: Registration, now: Time)
    requires OnePerSandbox(f.connections) && Linked(f.sandboxes, f.connections) && Named(f, r)
    requires forall c :: OnSandboxOf(f, c, r.authority.supervisor) ==> f.connections[c].transport != r.authority.transport
    ensures DecideNew(f, r, now).Open? <==> MayOpen(f, r, now)
    ensures !DecideNew(f, r, now).Replay?
  {
    hide OnePerSandbox;
    var s := r.authority.sandbox;
    if f.sandboxes[s].state.Provisioning? {
      ProvisioningIsNew(f, s);
    }
    hide Linked, OnSandboxOf;
    var active := CurrentActive(f.connections, s);
    MessagesAndTransports(f, r);
    HistoryIs(f, s);
    OnlyActiveIs(f.connections, s);
    hide MessageUsed, TransportUsed, HasHistory, ActiveOn;
  }

  lemma MessagesAndTransports(f: Fleet, r: Registration)
    ensures !MessageUsed(f, r.message) && !TransportUsed(f, r.authority.transport) <==>
            forall c :: c in f.connections ==>
              f.connections[c].transport != r.authority.transport && f.connections[c].message != r.message
  {
  }

  lemma HistoryIs(f: Fleet, s: SandboxId)
    ensures !HasHistory(f, s) <==> forall c :: c in f.connections ==> f.connections[c].sandbox != s
  {
  }

  lemma OnlyActiveIs(connections: Connections, s: SandboxId)
    requires OnePerSandbox(connections)
    ensures var active := CurrentActive(connections, s);
            && (active.Some? <==> exists c :: ActiveOn(connections, c, s))
            && (forall c: nat :: ActiveOn(connections, c, s) ==> active == Some(c))
            && (active.Some? ==> active.value in connections)
  {
  }

  lemma ReplayIff(f: Fleet, r: Registration, now: Time, c: ConnectionId)
    requires Named(f, r) && c in f.connections && f.connections[c].transport == r.authority.transport
    ensures var d := DecideReplay(c, f.connections[c], r, now);
            !d.Open? && (d.Replay? ==> d == Replay(c)) && (d.Replay? <==> Repeats(f, r, now, c))
  {
  }

  lemma FoundIs(f: Fleet, r: Registration, now: Time, c: ConnectionId)
    requires RequestsUnique(f.connections) && Repeats(f, r, now, c)
    ensures OnSandboxOf(f, c, r.authority.supervisor)
    ensures TransportConnection(f, r.authority.supervisor, r.authority.transport) == Some(c)
  {
  }

  lemma DecidesIff(f: Fleet, quarantined: set<SandboxId>, r: Registration, now: Time)
    requires Safe(f, quarantined) && OnePerSandbox(f.connections) && RequestsUnique(f.connections)
    ensures Decide(f, r, now).Open? <==> MayOpen(f, r, now)
    ensures Decide(f, r, now).Replay? ==> Repeats(f, r, now, Decide(f, r, now).connection)
    ensures forall c: nat :: Repeats(f, r, now, c) ==> Decide(f, r, now) == Replay(c)
  {
    SafeParts(f, quarantined);
    hide Safe, OnePerSandbox, RequestsUnique, Linked, CredentialsUnique, Enrolled, DecideReplay, DecideNew, MayOpen,
      Repeats,
      BootElsewhere;
    if Identified(f, r.authority) {
      BootsDiffer(f, r.authority);
    }
    forall c: nat | Repeats(f, r, now, c)
      ensures Named(f, r) && TransportConnection(f, r.authority.supervisor, r.authority.transport) == Some(c)
    {
      RepeatsNamed(f, r, now, c);
      FoundIs(f, r, now, c);
    }
    OpenNamed(f, r, now);
    if Named(f, r) {
      match TransportConnection(f, r.authority.supervisor, r.authority.transport)
      case Some(c) =>
        KnownConnection(f, c, r.authority.supervisor);
        ReplayIff(f, r, now, c);
        TransportTaken(f, r, now, c);
      case None => NewOpensIff(f, r, now);
    }
    hide OnSandboxOf;
  }

  lemma RepeatsNamed(f: Fleet, r: Registration, now: Time, c: ConnectionId)
    requires Repeats(f, r, now, c)
    ensures Named(f, r)
  {
  }

  lemma OpenNamed(f: Fleet, r: Registration, now: Time)
    ensures MayOpen(f, r, now) ==> Named(f, r)
  {
  }

  lemma KnownConnection(f: Fleet, c: ConnectionId, supervisor: SupervisorId)
    requires OnSandboxOf(f, c, supervisor)
    ensures c in f.connections
  {
  }

  lemma TransportTaken(f: Fleet, r: Registration, now: Time, c: ConnectionId)
    requires c in f.connections && f.connections[c].transport == r.authority.transport
    ensures !MayOpen(f, r, now)
  {
  }

  /**
   In every safe state a registration is accepted if and only if it may open a connection, or
   repeats the one that opened a running connection; the first answers with the new connection, the
   second with the old one.
   */
  lemma RegistersIff(f: Fleet, quarantined: set<SandboxId>, r: Registration, now: Time)
    requires Safe(f, quarantined)
    ensures OnePerSandbox(f.connections) && RequestsUnique(f.connections)
    ensures Answer(f, r, now).Ok? <==> MayOpen(f, r, now) || exists c: nat :: Repeats(f, r, now, c)
    ensures MayOpen(f, r, now) ==> Answer(f, r, now) == Ok(r.connection)
    ensures forall c: nat :: Repeats(f, r, now, c) ==> Answer(f, r, now) == Ok(c) && Register(f, r, now) == f
  {
    SafeParts(f, quarantined);
    hide Safe, OnePerSandbox, RequestsUnique, Decide, MayOpen, Repeats, OpenConnection, FenceAll;
    DecidesIff(f, quarantined, r, now);
  }

  // ------------------------------------------------------------------ an expired connection

  /**
   A registration on a sandbox whose active connection has passed its deadline is refused, whatever
   it brings, and leaves no other connection active there.
   */
  lemma ExpiredNotRevived(f: Fleet, quarantined: set<SandboxId>, r: Registration, now: Time, c: ConnectionId)
    requires Safe(f, quarantined) && IsExpired(f.connections, c, now) && f.connections[c].sandbox == r.authority.sandbox
    ensures OnePerSandbox(f.connections) && RequestsUnique(f.connections)
    ensures Answer(f, r, now).Err?
    ensures forall d :: ActiveOn(Register(f, r, now).connections, d, r.authority.sandbox) ==> d == c
  {
    SafeParts(f, quarantined);
    hide Safe, RequestsUnique, Decide, OpenConnection, FailAll, RetireAll;
    DecidesIff(f, quarantined, r, now);
    assert ActiveOn(f.connections, c, r.authority.sandbox);
    RepeatsRuns(f, r, now);
    hide MayOpen, Repeats;
  }

  lemma RepeatsRuns(f: Fleet, r: Registration, now: Time)
    ensures forall d: nat :: Repeats(f, r, now, d) ==> ActiveOn(f.connections, d, r.authority.sandbox) && f.connections[d].expiresAt > now
  {
  }

  /** A registration that only the deadline stands against fences the sandbox for good. */
  lemma ExpiredIsFenced(f: Fleet, quarantined: set<SandboxId>, r: Registration, now: Time, c: ConnectionId)
    requires Safe(f, quarantined) && IsExpired(f.connections, c, now) && f.connections[c].sandbox == r.authority.sandbox
    requires f.sandboxes[r.authority.sandbox].state.Ready? || f.sandboxes[r.authority.sandbox].state.Leased?
    requires Named(f, r)
    requires forall d :: d in f.connections ==> f.connections[d].transport != r.authority.transport && f.connections[d].message != r.message
    ensures OnePerSandbox(f.connections) && RequestsUnique(f.connections)
    ensures r.authority.sandbox in Register(f, r, now).retirements
    ensures forall d :: !ActiveOn(Register(f, r, now).connections, d, r.authority.sandbox)
  {
    SafeParts(f, quarantined);
    hide Safe, OnePerSandbox, RequestsUnique, Linked, CredentialsUnique, Enrolled, BootElsewhere, FailAll, MayOpen;
    BootsDiffer(f, r.authority);
    assert ActiveOn(f.connections, c, r.authority.sandbox);
    OnlyActiveIs(f.connections, r.authority.sandbox);
    MessagesAndTransports(f, r);
    NotTaken(f, r);
    hide ActiveOn, HasHistory, MessageUsed, TransportUsed, OnSandboxOf, FenceAll, TransportConnection;
    assert Decide(f, r, now) == Expired;
    hide Decide;
    FenceCovers(f, r.authority.sandbox, now);
  }

  lemma NotTaken(f: Fleet, r: Registration)
    requires RequestsUnique(f.connections)
    requires forall d :: d in f.connections ==> f.connections[d].transport != r.authority.transport
    ensures TransportConnection(f, r.authority.supervisor, r.authority.transport).None?
  {
  }

  lemma FenceCovers(f: Fleet, s: SandboxId, now: Time)
    requires s in f.sandboxes && !f.sandboxes[s].state.Terminated?
    ensures s in FenceAll(f, {s}, HeartbeatTimeout, now).retirements
    ensures forall d :: !ActiveOn(FenceAll(f, {s}, HeartbeatTimeout, now).connections, d, s)
  {
  }

  // ------------------------------------------------------------------ what an accepted registration is good for

  /** An accepted connection is current for exactly the heartbeat timeout, for its own boot and instance alone. */
  lemma OpenedIsCurrent(f: Fleet, quarantined: set<SandboxId>, r: Registration, now: Time, a: Authority,
                        instance: InstanceId,
                        later: Time)
    requires Safe(f, quarantined) && MayOpen(f, r, now)
    ensures OnePerSandbox(f.connections) && RequestsUnique(f.connections)
    ensures IsCurrent(Register(f, r, now).connections, r.connection, a, instance, later) <==>
            a == r.authority && instance == r.instance && later < now + r.heartbeatTimeout
  {
    RegistersIff(f, quarantined, r, now);
    hide Safe, OnePerSandbox, RequestsUnique, Decide, MayOpen, Repeats, FenceAll, Readied;
    DecidesIff(f, quarantined, r, now);
  }

  /**
   A heartbeat that is accepted makes the connection current for exactly the timeout from then on;
   any other changes nothing.
   */
  lemma HeartbeatExtends(f: Fleet, c: ConnectionId, a: Authority, instance: InstanceId, now: Time, timeout: nat,
                         later: Time)
    ensures var g := Heartbeat(f, c, a, instance, now, timeout);
            if IsCurrent(f.connections, c, a, instance, now)
            then IsCurrent(g.connections, c, a, instance, later) <==> later < now + timeout
            else g == f
  {
  }

  /**
   An event is accepted exactly for a connection that is active, unexpired and of that very boot,
   transport and instance, under the very lease and token that the session holds there now.
   */
  lemma EventAuthorizedIff(f: Fleet, c: ConnectionId, a: Authority, instance: InstanceId, x: SessionId, lease: nat,
                           token: nat,
                           now: Time)
    ensures EventAuthorized(f, c, a, instance, x, lease, token, now) <==>
            && c in f.connections
            && f.connections[c] == f.connections[c].(transport := a.transport, sandbox := a.sandbox, supervisor := a.supervisor,
                                                     boot := a.boot, instance := instance, state := Active)
            && now < f.connections[c].expiresAt
            && x in f.leases && f.leases[x] == Lease(lease, a.sandbox, token, f.leases[x].validUntil) && now < f.leases[x].validUntil
  {
  }

  /** A running connection is, for its own identity, current or expired at any time, and never both. */
  lemma CurrentOrExpired(connections: Connections, c: ConnectionId, now: Time)
    requires c in connections && connections[c].state.Active?
    ensures var row := connections[c];
            IsExpired(connections, c, now) <==>
              !IsCurrent(connections, c, Authority(row.supervisor, row.boot, row.sandbox, row.transport), row.instance, now)
  {
  }

  /** Repeating a registration whose connection has passed its deadline fences the sandbox too. */
  lemma ExpiredRepeatIsFenced(f: Fleet, quarantined: set<SandboxId>, r: Registration, now: Time, c: ConnectionId,
                              since: Time)
    requires Safe(f, quarantined) && IsExpired(f.connections, c, now) && Named(f, r)
    requires f.connections[c] == NewConnection(r, since).(expiresAt := f.connections[c].expiresAt)
    ensures OnePerSandbox(f.connections) && RequestsUnique(f.connections)
    ensures Answer(f, r, now) == Err(StaleRegistration)
    ensures r.authority.sandbox in Register(f, r, now).retirements
    ensures forall d :: !ActiveOn(Register(f, r, now).connections, d, r.authority.sandbox)
  {
    SafeParts(f, quarantined);
    NotTerminated(f, quarantined, c);
    hide Safe, OnePerSandbox, RequestsUnique, Linked, CredentialsUnique, Enrolled, BootElsewhere, FenceAll;
    BootsDiffer(f, r.authority);
    TransportFound(f, r, c);
    hide OnSandboxOf, TransportConnection, DecideNew;
    assert Decide(f, r, now) == Expired;
    FenceCovers(f, r.authority.sandbox, now);
  }

  lemma TransportFound(f: Fleet, r: Registration, c: ConnectionId)
    requires RequestsUnique(f.connections) && Named(f, r) && c in f.connections
    requires f.connections[c].transport == r.authority.transport && f.connections[c].sandbox == r.authority.sandbox
    ensures TransportConnection(f, r.authority.supervisor, r.authority.transport) == Some(c)
  {
    assert OnSandboxOf(f, c, r.authority.supervisor);
  }

  lemma NotTerminated(f: Fleet, quarantined: set<SandboxId>, c: ConnectionId)
    requires Safe(f, quarantined) && c in f.connections && f.connections[c].state.Active?
    ensures f.connections[c].sandbox in f.sandboxes && !f.sandboxes[f.connections[c].sandbox].state.Terminated?
  {
    hide OneActive, RequestsUnique, Quarantined, RetirementLinked, RetiredClosed, ClaimShape, Load, LeaseLinked,
      CredentialsUnique, Enrolled, Linked;
    assert ActiveOn(f.connections, c, f.connections[c].sandbox);
  }
}
