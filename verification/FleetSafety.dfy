/** What the supervisor transactions keep: one authority per supervisor, and fenced means fenced for good. */
module FleetSafety {
  import opened Common
  import opened SupervisorFleet

  // ------------------------------------------------------------------ the invariant, table by table

  /** Connections carry their sandbox's identity, and a sandbox with connection history has left provisioning. */
  ghost predicate Linked(sandboxes: Sandboxes, connections: Connections) {
    forall c :: c in connections ==>
      var s := connections[c].sandbox;
      && s in sandboxes
      && sandboxes[s].supervisor == connections[c].supervisor && sandboxes[s].boot == connections[c].boot
      && !sandboxes[s].state.Provisioning?
  }

  /** The sandbox behind an active connection serves, unless it was quarantined; then it has failed. */
  ghost predicate Serving(sandboxes: Sandboxes, connections: Connections, quarantined: set<SandboxId>) {
    forall c, s :: ActiveOn(connections, c, s) ==>
      s in sandboxes &&
      if s in quarantined then sandboxes[s].state.Failed? else sandboxes[s].state.Ready? || sandboxes[s].state.Leased?
  }

  ghost predicate Quarantined(sandboxes: Sandboxes, quarantined: set<SandboxId>) {
    forall s :: s in quarantined ==> s in sandboxes && (sandboxes[s].state.Failed? || sandboxes[s].state.Terminated?)
  }

  /** A sandbox under retirement has failed or terminated. */
  ghost predicate RetirementLinked(sandboxes: Sandboxes, retirements: Retirements) {
    forall s :: s in retirements ==>
      && s in sandboxes
      && (sandboxes[s].state.Failed? || sandboxes[s].state.Terminated?)
      && retirements[s].supervisor == sandboxes[s].supervisor && retirements[s].boot == sandboxes[s].boot
  }

  ghost predicate RetiredClosed(connections: Connections, retirements: Retirements) {
    forall c, s :: ActiveOn(connections, c, s) ==> s !in retirements
  }

  /** Claim columns are filled exactly while a row is claimed, and a blocked row says why. */
  ghost predicate ClaimShape(retirements: Retirements) {
    forall s :: s in retirements ==>
      && (retirements[s].claim.Some? <==> retirements[s].state.Claimed?)
      && (retirements[s].state.Blocked? ==> retirements[s].failed)
      && (retirements[s].attempts == 0 ==> retirements[s].state.Waiting?)
  }

  function LeasesOn(leases: Leases, s: SandboxId): set<SessionId> {
    set x | x in leases && leases[x].sandbox == s
  }

  /** A sandbox counts its leases exactly; only serving or failed sandboxes hold any. */
  ghost predicate Load(sandboxes: Sandboxes, leases: Leases) {
    forall s :: s in sandboxes ==>
      && sandboxes[s].activeSessions == |LeasesOn(leases, s)|
      && (sandboxes[s].state.Leased? ==> sandboxes[s].activeSessions > 0)
      && (sandboxes[s].state.Ready? || sandboxes[s].state.Provisioning? || sandboxes[s].state.Terminated? ==>
            sandboxes[s].activeSessions == 0)
  }

  ghost predicate LeaseLinked(sandboxes: Sandboxes, leases: Leases) {
    forall x :: x in leases ==> leases[x].sandbox in sandboxes
  }

  /** Credential rows are unique in each identity they carry, and a supervisor has one unrevoked credential. */
  ghost predicate CredentialsUnique(credentials: Credentials) {
    forall k, l :: k in credentials && l in credentials && k != l ==>
      && credentials[k].request != credentials[l].request
      && credentials[k].sandbox != credentials[l].sandbox
      && (credentials[k].supervisor == credentials[l].supervisor ==>
            && credentials[k].boot != credentials[l].boot
            && (credentials[k].revoked || credentials[l].revoked))
  }

  ghost predicate Enrolled(sandboxes: Sandboxes, credentials: Credentials) {
    && (forall s :: s in sandboxes ==> exists k :: k in credentials && credentials[k].sandbox == s)
    && (forall k :: k in credentials ==>
          && credentials[k].sandbox in sandboxes
          && sandboxes[credentials[k].sandbox].supervisor == credentials[k].supervisor
          && sandboxes[credentials[k].sandbox].boot == credentials[k].boot)
  }

  ghost predicate Safe(f: Fleet, quarantined: set<SandboxId>) {
    && Linked(f.sandboxes, f.connections)
    && OneActive(f.connections)
    && RequestsUnique(f.connections)
    && Serving(f.sandboxes, f.connections, quarantined)
    && Quarantined(f.sandboxes, quarantined)
    && RetirementLinked(f.sandboxes, f.retirements)
    && RetiredClosed(f.connections, f.retirements)
    && ClaimShape(f.retirements)
    && Load(f.sandboxes, f.leases)
    && LeaseLinked(f.sandboxes, f.leases)
    && CredentialsUnique(f.credentials)
    && Enrolled(f.sandboxes, f.credentials)
  }

  lemma EmptySafe()
    ensures Safe(EMPTY_FLEET, {})
  {
  }

  /** One active connection per supervisor gives the per-sandbox unique index. */
  lemma OneAuthority(f: Fleet)
    requires Linked(f.sandboxes, f.connections) && OneActive(f.connections)
    ensures OnePerSandbox(f.connections)
  {
  }

  // ------------------------------------------------------------------ fencing

  lemma FenceConnections(connections: Connections, fenced: set<SandboxId>, reason: Reason)
    ensures OneActive(connections) ==> OneActive(CloseAll(connections, fenced, reason))
    ensures RequestsUnique(connections) ==> RequestsUnique(CloseAll(connections, fenced, reason))
    ensures forall c, s :: ActiveOn(CloseAll(connections, fenced, reason), c, s) <==>
                           ActiveOn(connections, c, s) && s !in fenced
  {
  }

  lemma FenceSandboxes(f: Fleet, fenced: set<SandboxId>, reason: Reason)
    ensures Linked(f.sandboxes, f.connections) ==>
              Linked(FailAll(f.sandboxes, fenced), CloseAll(f.connections, fenced, reason))
    ensures Load(f.sandboxes, f.leases) ==> Load(FailAll(f.sandboxes, fenced), f.leases)
    ensures LeaseLinked(f.sandboxes, f.leases) ==> LeaseLinked(FailAll(f.sandboxes, fenced), f.leases)
  {
  }

  lemma FenceEnrolled(f: Fleet, fenced: set<SandboxId>)
    requires Enrolled(f.sandboxes, f.credentials)
    ensures Enrolled(FailAll(f.sandboxes, fenced), f.credentials)
  {
  }

  lemma FenceServing(f: Fleet, fenced: set<SandboxId>, quarantined: set<SandboxId>, reason: Reason)
    requires Serving(f.sandboxes, f.connections, quarantined) && Quarantined(f.sandboxes, quarantined)
    ensures Serving(FailAll(f.sandboxes, fenced), CloseAll(f.connections, fenced, reason), quarantined)
    ensures Quarantined(FailAll(f.sandboxes, fenced), quarantined)
  {
    FenceConnections(f.connections, fenced, reason);
    hide CloseAll;
  }

  lemma FenceRetirements(f: Fleet, fenced: set<SandboxId>, reason: Reason, now: Time)
    requires RetirementLinked(f.sandboxes, f.retirements) && ClaimShape(f.retirements)
    ensures RetirementLinked(FailAll(f.sandboxes, fenced), RetireAll(f.retirements, f.sandboxes, fenced, reason, now))
    ensures ClaimShape(RetireAll(f.retirements, f.sandboxes, fenced, reason, now))
  {
  }

  lemma FenceCloses(f: Fleet, fenced: set<SandboxId>, reason: Reason, now: Time)
    requires RetiredClosed(f.connections, f.retirements)
    ensures RetiredClosed(CloseAll(f.connections, fenced, reason), RetireAll(f.retirements, f.sandboxes, fenced, reason, now))
  {
    FenceConnections(f.connections, fenced, reason);
    hide CloseAll, ActiveOn;
  }

  /** Fencing keeps the invariant, and every sandbox it fences is under retirement or had already terminated. */
  lemma FenceSafe(f: Fleet, quarantined: set<SandboxId>, fenced: set<SandboxId>, reason: Reason, now: Time)
    requires Safe(f, quarantined) && fenced <= f.sandboxes.Keys
    ensures Safe(FenceAll(f, fenced, reason, now), quarantined)
    ensures forall s :: s in fenced ==>
              s in FenceAll(f, fenced, reason, now).retirements || f.sandboxes[s].state.Terminated?
  {
    FenceConnections(f.connections, fenced, reason);
    FenceSandboxes(f, fenced, reason);
    FenceEnrolled(f, fenced);
    FenceServing(f, fenced, quarantined, reason);
    FenceRetirements(f, fenced, reason, now);
    FenceCloses(f, fenced, reason, now);
    hide Linked, Serving, Quarantined, RetirementLinked, RetiredClosed, ClaimShape, Load, LeaseLinked,
      CredentialsUnique, Enrolled;
    hide OneActive, RequestsUnique, CloseAll, FailAll, ActiveOn;
  }

  // ------------------------------------------------------------------ register

  /** What `Decide` has established about a connection it lets open. */
  ghost predicate CanOpen(f: Fleet, r: Registration, superseding: Option<ConnectionId>) {
    && Identified(f, r.authority)
    && !Unavailable(f.sandboxes[r.authority.sandbox].state)
    && (f.sandboxes[r.authority.sandbox].state.Provisioning? ==> !HasHistory(f, r.authority.sandbox))
    && !MessageUsed(f, r.message) && !TransportUsed(f, r.authority.transport)
    && (superseding.Some? ==> ActiveOn(f.connections, superseding.value, r.authority.sandbox))
    && (superseding.None? ==> forall c :: !ActiveOn(f.connections, c, r.authority.sandbox))
  }

  lemma DecideOpens(f: Fleet, r: Registration, now: Time)
    requires OnePerSandbox(f.connections) && RequestsUnique(f.connections)
    ensures Decide(f, r, now).Open? ==> CanOpen(f, r, Decide(f, r, now).superseding)
    ensures Decide(f, r, now).Expired? ==> r.authority.sandbox in f.sandboxes
  {
    hide OnePerSandbox, RequestsUnique, BootElsewhere, OnSandboxOf, SameRegistration, HasHistory, MessageUsed,
      TransportUsed, ActiveOn;
  }

  /** After fencing the other sandboxes of the supervisor, only its own sandbox can still be connected. */
  lemma OnlyOwnLeft(f: Fleet, quarantined: set<SandboxId>, a: Authority, c: ConnectionId)
    requires Linked(f.sandboxes, f.connections) && Serving(f.sandboxes, f.connections, quarantined)
    requires c in f.connections && f.connections[c].supervisor == a.supervisor
    requires CloseAll(f.connections, Replaced(f, a), NewBoot)[c].state.Active?
    ensures ActiveOn(f.connections, c, a.sandbox)
  {
    assert ActiveOn(f.connections, c, f.connections[c].sandbox);
  }

  lemma OpenOneActive(f: Fleet, quarantined: set<SandboxId>, r: Registration, superseding: Option<ConnectionId>,
                      now: Time)
    requires Linked(f.sandboxes, f.connections) && Serving(f.sandboxes, f.connections, quarantined)
    requires OneActive(f.connections) && CanOpen(f, r, superseding) && r.connection !in f.connections
    ensures OneActive(OpenConnection(f, r, superseding, now).connections)
  {
    var cn := f.connections;
    var closed := CloseAll(cn, Replaced(f, r.authority), NewBoot);
    var cn' := OpenConnection(f, r, superseding, now).connections;
    FenceConnections(cn, Replaced(f, r.authority), NewBoot);
    forall c | c in cn' && c != r.connection && cn'[c].state.Active?
      ensures c in cn && closed[c].state.Active? && cn'[c].supervisor == cn[c].supervisor != r.authority.supervisor
    {
      if cn[c].supervisor == r.authority.supervisor {
        OnlyOwnLeft(f, quarantined, r.authority, c);
      }
    }
    hide CanOpen, Linked, Serving, ActiveOn, Replaced;
  }

  lemma OpenLinked(f: Fleet, r: Registration, superseding: Option<ConnectionId>, now: Time)
    requires Linked(f.sandboxes, f.connections) && CanOpen(f, r, superseding)
    ensures Linked(OpenConnection(f, r, superseding, now).sandboxes, OpenConnection(f, r, superseding, now).connections)
  {
    FenceSandboxes(f, Replaced(f, r.authority), NewBoot);
    hide Replaced, HasHistory, MessageUsed, TransportUsed;
  }

  lemma OpenRequests(f: Fleet, r: Registration, superseding: Option<ConnectionId>, now: Time)
    requires RequestsUnique(f.connections) && CanOpen(f, r, superseding) && r.connection !in f.connections
    ensures RequestsUnique(OpenConnection(f, r, superseding, now).connections)
  {
    var closed := CloseAll(f.connections, Replaced(f, r.authority), NewBoot);
    FenceConnections(f.connections, Replaced(f, r.authority), NewBoot);
    forall c | c in closed
      ensures closed[c].transport != r.authority.transport && closed[c].message != r.message
    {
      assert closed[c].transport == f.connections[c].transport && closed[c].message == f.connections[c].message;
    }
    hide CloseAll, Replaced, CanOpen;
  }

  /** Opening only ever activates the connection on its own sandbox, which it leaves serving. */
  lemma OpenActive(f: Fleet, r: Registration, superseding: Option<ConnectionId>, now: Time, c: ConnectionId,
                   s: SandboxId)
    requires CanOpen(f, r, superseding)
    ensures ActiveOn(OpenConnection(f, r, superseding, now).connections, c, s) ==>
              if c == r.connection then s == r.authority.sandbox
              else ActiveOn(f.connections, c, s) && s !in Replaced(f, r.authority)
  {
    hide Replaced, CanOpen, FailAll, RetireAll;
  }

  /** The sandbox a connection opens on is serving afterwards, and other sandboxes only ever fail. */
  lemma OpenStates(f: Fleet, quarantined: set<SandboxId>, r: Registration, superseding: Option<ConnectionId>, now: Time)
    requires Quarantined(f.sandboxes, quarantined) && CanOpen(f, r, superseding)
    ensures Quarantined(OpenConnection(f, r, superseding, now).sandboxes, quarantined)
    ensures var sb' := OpenConnection(f, r, superseding, now).sandboxes;
            var own := r.authority.sandbox;
            && sb'.Keys == f.sandboxes.Keys
            && (sb'[own].state.Ready? || sb'[own].state.Leased?) && own !in quarantined
            && forall s :: s in sb' && s != own && s !in Replaced(f, r.authority) ==> sb'[s] == f.sandboxes[s]
  {
    hide HasHistory, MessageUsed, TransportUsed, CloseAll, RetireAll, ActiveOn;
  }

  lemma OpenServing(f: Fleet, quarantined: set<SandboxId>, r: Registration, superseding: Option<ConnectionId>,
                    now: Time)
    requires Serving(f.sandboxes, f.connections, quarantined) && Quarantined(f.sandboxes, quarantined)
    requires CanOpen(f, r, superseding)
    ensures var g := OpenConnection(f, r, superseding, now);
            Serving(g.sandboxes, g.connections, quarantined) && Quarantined(g.sandboxes, quarantined)
  {
    OpenStates(f, quarantined, r, superseding, now);
    var g := OpenConnection(f, r, superseding, now);
    hide CanOpen, OpenConnection, Replaced, Quarantined, ActiveOn;
    forall c, s | ActiveOn(g.connections, c, s)
      ensures s in g.sandboxes &&
              if s in quarantined then g.sandboxes[s].state.Failed?
              else g.sandboxes[s].state.Ready? || g.sandboxes[s].state.Leased?
    {
      OpenActive(f, r, superseding, now, c, s);
    }
  }

  lemma OpenRetirements(f: Fleet, r: Registration, superseding: Option<ConnectionId>, now: Time)
    requires RetirementLinked(f.sandboxes, f.retirements) && RetiredClosed(f.connections, f.retirements)
    requires ClaimShape(f.retirements) && CanOpen(f, r, superseding)
    ensures var g := OpenConnection(f, r, superseding, now);
            RetirementLinked(g.sandboxes, g.retirements) && RetiredClosed(g.connections, g.retirements) && ClaimShape(g.retirements)
  {
    var g := OpenConnection(f, r, superseding, now);
    FenceRetirements(f, Replaced(f, r.authority), NewBoot, now);
    assert r.authority.sandbox !in f.retirements;
    assert r.authority.sandbox !in g.retirements;
    forall c, s | ActiveOn(g.connections, c, s)
      ensures s !in g.retirements
    {
      OpenActive(f, r, superseding, now, c, s);
    }
    hide ActiveOn, CanOpen, RetireAll, CloseAll, Replaced, ClaimShape;
  }

  lemma OpenLoad(f: Fleet, r: Registration, superseding: Option<ConnectionId>, now: Time)
    requires Load(f.sandboxes, f.leases) && LeaseLinked(f.sandboxes, f.leases)
    ensures Load(OpenConnection(f, r, superseding, now).sandboxes, f.leases)
    ensures LeaseLinked(OpenConnection(f, r, superseding, now).sandboxes, f.leases)
  {
    FenceSandboxes(f, Replaced(f, r.authority), NewBoot);
    hide Replaced, LeasesOn;
  }

  lemma OpenEnrolled(f: Fleet, r: Registration, superseding: Option<ConnectionId>, now: Time)
    requires Enrolled(f.sandboxes, f.credentials)
    ensures Enrolled(OpenConnection(f, r, superseding, now).sandboxes, f.credentials)
  {
    FenceEnrolled(f, Replaced(f, r.authority));
    hide Replaced, FailAll;
  }

  lemma RegisterSafe(f: Fleet, quarantined: set<SandboxId>, r: Registration, now: Time)
    requires Safe(f, quarantined) && OnePerSandbox(f.connections) && r.connection !in f.connections
    ensures Safe(Register(f, r, now), quarantined)
  {
    hide Linked, Serving, Quarantined, RetirementLinked, RetiredClosed, ClaimShape, Load, LeaseLinked,
      CredentialsUnique, Enrolled;
    hide OneActive, RequestsUnique, Decide, OnePerSandbox, FenceAll, CanOpen;
    DecideOpens(f, r, now);
    match Decide(f, r, now)
    case Expired => FenceSafe(f, quarantined, {r.authority.sandbox}, HeartbeatTimeout, now);
    case Open(superseding) =>
      OpenOneActive(f, quarantined, r, superseding, now);
      OpenLinked(f, r, superseding, now);
      OpenRequests(f, r, superseding, now);
      OpenServing(f, quarantined, r, superseding, now);
      OpenRetirements(f, r, superseding, now);
      OpenLoad(f, r, superseding, now);
      OpenEnrolled(f, r, superseding, now);
      OpenUntouched(f, r, superseding, now);
      hide OpenConnection;
    case _ =>
  }

  lemma OpenUntouched(f: Fleet, r: Registration, superseding: Option<ConnectionId>, now: Time)
    ensures OpenConnection(f, r, superseding, now).leases == f.leases
    ensures OpenConnection(f, r, superseding, now).credentials == f.credentials
  {
  }

  // ------------------------------------------------------------------ heartbeats, expiry, provisioning

  /** A heartbeat moves a deadline and nothing else. */
  ghost predicate SameButDeadlines(before: Connections, after: Connections) {
    && after.Keys == before.Keys
    && forall c :: c in before ==> after[c] == before[c].(expiresAt := after[c].expiresAt)
  }

  lemma HeartbeatMovesDeadline(f: Fleet, c: ConnectionId, a: Authority, instance: InstanceId, now: Time, timeout: nat)
    ensures Heartbeat(f, c, a, instance, now, timeout) ==
            f.(connections := Heartbeat(f, c, a, instance, now, timeout).connections)
    ensures SameButDeadlines(f.connections, Heartbeat(f, c, a, instance, now, timeout).connections)
  {
  }

  lemma DeadlinesConnections(before: Connections, after: Connections)
    requires SameButDeadlines(before, after)
    ensures OneActive(before) ==> OneActive(after)
    ensures RequestsUnique(before) ==> RequestsUnique(after)
    ensures forall c, s :: ActiveOn(after, c, s) <==> ActiveOn(before, c, s)
  {
  }

  lemma DeadlinesLinked(sandboxes: Sandboxes, before: Connections, after: Connections)
    requires SameButDeadlines(before, after) && Linked(sandboxes, before)
    ensures Linked(sandboxes, after)
  {
  }

  lemma HeartbeatSafe(f: Fleet, quarantined: set<SandboxId>, c: ConnectionId, a: Authority, instance: InstanceId,
                      now: Time, timeout: nat)
    requires Safe(f, quarantined)
    ensures Safe(Heartbeat(f, c, a, instance, now, timeout), quarantined)
  {
    var g := Heartbeat(f, c, a, instance, now, timeout);
    HeartbeatMovesDeadline(f, c, a, instance, now, timeout);
    DeadlinesConnections(f.connections, g.connections);
    DeadlinesLinked(f.sandboxes, f.connections, g.connections);
    hide RetirementLinked, ClaimShape, Load, LeaseLinked, CredentialsUnique, Enrolled, Linked, OneActive,
      RequestsUnique;
    hide ActiveOn, Heartbeat, Quarantined, SameButDeadlines;
  }

  lemma ExpireSafe(f: Fleet, quarantined: set<SandboxId>, c: ConnectionId, now: Time)
    requires Safe(f, quarantined)
    ensures Safe(Expire(f, c, now), quarantined)
    ensures IsExpired(f.connections, c, now) ==> f.connections[c].sandbox in Expire(f, c, now).retirements
  {
    if IsExpired(f.connections, c, now) {
      assert ActiveOn(f.connections, c, f.connections[c].sandbox);
      FenceSafe(f, quarantined, {f.connections[c].sandbox}, HeartbeatTimeout, now);
    }
    hide Linked, Quarantined, RetirementLinked, RetiredClosed, ClaimShape, Load, LeaseLinked, CredentialsUnique,
      Enrolled;
    hide OneActive, RequestsUnique, FenceAll, ActiveOn;
  }

  lemma RevokeUnique(credentials: Credentials, supervisor: SupervisorId)
    requires CredentialsUnique(credentials)
    ensures CredentialsUnique(RevokeAll(credentials, supervisor))
  {
  }

  lemma FreshIdentity(f: Fleet, p: ProvisionRequest)
    requires Enrolled(f.sandboxes, f.credentials) && ConflictAnswer(f, p, None)
    ensures p.sandbox !in f.sandboxes && p.credential !in f.credentials
  {
  }

  lemma EnrollCredentials(f: Fleet, p: ProvisionRequest, now: Time, ttl: nat)
    requires CredentialsUnique(f.credentials) && ConflictAnswer(f, p, None)
    ensures CredentialsUnique(Enroll(f, p, now, ttl).credentials)
  {
    var revoked := RevokeAll(f.credentials, p.supervisor);
    RevokeUnique(f.credentials, p.supervisor);
    forall k | k in revoked
      ensures revoked[k].request != p.request && revoked[k].sandbox != p.sandbox
      ensures revoked[k].supervisor == p.supervisor ==> revoked[k].boot != p.boot && revoked[k].revoked
    {
      assert !Conflicts(f.credentials[k], k, p);
    }
    hide RevokeAll, ConflictAnswer, Conflicts;
  }

  lemma EnrollEnrolled(f: Fleet, p: ProvisionRequest, now: Time, ttl: nat)
    requires Enrolled(f.sandboxes, f.credentials)
    requires p.sandbox !in f.sandboxes && p.credential !in f.credentials
    ensures Enrolled(Enroll(f, p, now, ttl).sandboxes, Enroll(f, p, now, ttl).credentials)
  {
    var g := Enroll(f, p, now, ttl);
    forall s | s in g.sandboxes
      ensures exists k :: k in g.credentials && g.credentials[k].sandbox == s
    {
      if s == p.sandbox {
        assert g.credentials[p.credential].sandbox == s;
      } else {
        var k :| k in f.credentials && f.credentials[k].sandbox == s;
        assert g.credentials[k].sandbox == s;
      }
    }
  }

  lemma EnrollTables(f: Fleet, quarantined: set<SandboxId>, p: ProvisionRequest, now: Time, ttl: nat)
    requires Linked(f.sandboxes, f.connections) && Serving(f.sandboxes, f.connections, quarantined)
    requires Quarantined(f.sandboxes, quarantined) && RetirementLinked(f.sandboxes, f.retirements)
    requires Load(f.sandboxes, f.leases) && LeaseLinked(f.sandboxes, f.leases)
    requires p.sandbox !in f.sandboxes
    ensures var g := Enroll(f, p, now, ttl);
            && Linked(g.sandboxes, g.connections) && Serving(g.sandboxes, g.connections, quarantined)
            && Quarantined(g.sandboxes, quarantined) && RetirementLinked(g.sandboxes, g.retirements)
            && Load(g.sandboxes, g.leases) && LeaseLinked(g.sandboxes, g.leases)
  {
    assert LeasesOn(f.leases, p.sandbox) == {};
    hide RevokeAll, LeasesOn, ActiveOn;
  }

  lemma EnrollSafe(f: Fleet, quarantined: set<SandboxId>, p: ProvisionRequest, now: Time, ttl: nat)
    requires Safe(f, quarantined) && ConflictAnswer(f, p, None)
    ensures Safe(Enroll(f, p, now, ttl), quarantined)
  {
    FreshIdentity(f, p);
    EnrollCredentials(f, p, now, ttl);
    EnrollEnrolled(f, p, now, ttl);
    EnrollTables(f, quarantined, p, now, ttl);
    hide Linked, Serving, Quarantined, RetirementLinked, RetiredClosed, ClaimShape, Load, LeaseLinked,
      CredentialsUnique, Enrolled;
    hide OneActive, RequestsUnique, RevokeAll, ConflictAnswer;
  }

  lemma ProvisionSafe(f: Fleet, quarantined: set<SandboxId>, p: ProvisionRequest, conflict: Option<CredentialId>,
                      maximum: nat, routeAllowed: bool, now: Time, ttl: nat)
    requires Safe(f, quarantined) && ConflictAnswer(f, p, conflict)
    ensures var r := ProvisionWith(f, p, conflict, maximum, routeAllowed, now, ttl);
            r.Ok? ==> Safe(r.value.0, quarantined)
  {
    var r := ProvisionWith(f, p, conflict, maximum, routeAllowed, now, ttl);
    if r.Ok? {
      var hosts := HostFor(f.hosts, p, maximum).value;
      var g := f.(hosts := hosts);
      assert Safe(g, quarantined);
      if conflict.None? {
        assert ConflictAnswer(g, p, None);
        EnrollSafe(g, quarantined, p, now, ttl);
      }
    }
    hide Safe, ConflictAnswer, Enroll, SameProvision, HostFor;
  }

  // ------------------------------------------------------------------ what the invariant rules out, and replays

  /** A boot is enrolled for one sandbox, so a registration never finds it on another. */
  lemma BootsDiffer(f: Fleet, a: Authority)
    requires CredentialsUnique(f.credentials) && Enrolled(f.sandboxes, f.credentials) && Identified(f, a)
    ensures !BootElsewhere(f, a)
  {
    forall s | s in SandboxesOf(f.sandboxes, a.supervisor) && s != a.sandbox
      ensures f.sandboxes[s].boot != a.boot
    {
      var k :| k in f.credentials && f.credentials[k].sandbox == s;
      var l :| l in f.credentials && f.credentials[l].sandbox == a.sandbox;
    }
  }

  lemma ProvisioningIsNew(f: Fleet, s: SandboxId)
    requires Linked(f.sandboxes, f.connections) && s in f.sandboxes && f.sandboxes[s].state.Provisioning?
    ensures !HasHistory(f, s)
  {
  }

  /** Two of the rejections are defensive: no reachable state produces them. */
  lemma UnreachableRejections(f: Fleet, quarantined: set<SandboxId>, r: Registration, now: Time)
    requires Safe(f, quarantined) && OnePerSandbox(f.connections)
    ensures Answer(f, r, now) != Err(BootIdentityCollision) && Answer(f, r, now) != Err(RegistrationInvariant)
  {
    hide Linked, OneActive, RequestsUnique, Serving, Quarantined, RetirementLinked, RetiredClosed, ClaimShape, Load,
      LeaseLinked;
    hide CredentialsUnique, Enrolled, OnePerSandbox, BootElsewhere, HasHistory, MessageUsed, TransportUsed,
      SameRegistration;
    if Identified(f, r.authority) {
      BootsDiffer(f, r.authority);
      if f.sandboxes[r.authority.sandbox].state.Provisioning? {
        ProvisioningIsNew(f, r.authority.sandbox);
      }
    }
    hide Identified;
  }

  /** Whichever conflicting row the provisioning query returns, the outcome is the same. */
  lemma ConflictChoiceIrrelevant(f: Fleet, p: ProvisionRequest, x: Option<CredentialId>, y: Option<CredentialId>,
                                 maximum: nat, routeAllowed: bool, now: Time, ttl: nat)
    requires CredentialsUnique(f.credentials) && ConflictAnswer(f, p, x) && ConflictAnswer(f, p, y)
    ensures ProvisionWith(f, p, x, maximum, routeAllowed, now, ttl) == ProvisionWith(f, p, y, maximum, routeAllowed, now, ttl)
  {
    if x != y {
      assert x.Some? && y.Some?;
      OneMatch(f, p, x.value, y.value);
      OneMatch(f, p, y.value, x.value);
    }
    hide CredentialsUnique, ConflictAnswer, Conflicts;
  }

  /** A row equal to the request leaves no other row to conflict with it. */
  lemma OneMatch(f: Fleet, p: ProvisionRequest, k: CredentialId, l: CredentialId)
    requires CredentialsUnique(f.credentials) && k in f.credentials && l in f.credentials && k != l
    requires Conflicts(f.credentials[l], l, p)
    ensures forall hosts :: !SameProvision(f.(hosts := hosts), f.credentials[k], k, p)
  {
  }

  lemma OwnCredentialConflicts(g: Fleet, p: ProvisionRequest)
    requires p.credential in g.credentials
    ensures ConflictAnswer(g, p, Some(p.credential))
  {
  }

  lemma SameHosts(hosts: Hosts, p: ProvisionRequest, maximum: nat)
    requires HostFor(hosts, p, maximum).Ok?
    ensures HostFor(HostFor(hosts, p, maximum).value, p, maximum) == HostFor(hosts, p, maximum)
    ensures p.supervisor in HostFor(hosts, p, maximum).value
    ensures HostFor(hosts, p, maximum).value[p.supervisor].url == p.url
  {
    var again := HostFor(hosts, p, maximum).value;
    assert again[p.supervisor := again[p.supervisor].(capacity := maximum)] == again;
  }

  /** Provisioning again with the same request, in time, answers the same and changes nothing. */
  lemma ProvisionReplays(f: Fleet, p: ProvisionRequest, maximum: nat, now: Time, ttl: nat, later: Time)
    requires ConflictAnswer(f, p, None) && ProvisionWith(f, p, None, maximum, true, now, ttl).Ok? && later < now + ttl
    ensures var g := ProvisionWith(f, p, None, maximum, true, now, ttl).value.0;
            && ConflictAnswer(g, p, Some(p.credential))
            && ProvisionWith(g, p, Some(p.credential), maximum, true, later, ttl) == Ok((g, Provisioned(now + ttl, true)))
  {
    hide ConflictAnswer, RevokeAll, HostFor;
    var g := ProvisionWith(f, p, None, maximum, true, now, ttl).value.0;
    OwnCredentialConflicts(g, p);
    SameHosts(f.hosts, p, maximum);
    assert g.(hosts := g.hosts) == g;
  }

  /** What a registration that opens a connection leaves behind on the supervisor's sandboxes. */
  ghost predicate NewestBootRules(f: Fleet, g: Fleet, r: Registration) {
    && ActiveOn(g.connections, r.connection, r.authority.sandbox)
    && (forall c, s :: ActiveOn(g.connections, c, s) && s in SandboxesOf(g.sandboxes, r.authority.supervisor) ==> c == r.connection)
    && (forall s :: s in Replaced(f, r.authority) ==>
          s in g.retirements && s in g.sandboxes && g.sandboxes[s].state.Failed?)
  }

  /** The newest boot is the only one connected afterwards: every older one is failed, closed and due for retirement. */
  lemma NewestBootWins(f: Fleet, quarantined: set<SandboxId>, r: Registration, now: Time)
    requires Safe(f, quarantined) && OnePerSandbox(f.connections) && r.connection !in f.connections
    requires Decide(f, r, now).Open?
    ensures NewestBootRules(f, Register(f, r, now), r)
  {
    hide Linked, Serving, Quarantined, RetirementLinked, RetiredClosed, ClaimShape, Load, LeaseLinked,
      CredentialsUnique, Enrolled;
    hide OneActive, RequestsUnique, Decide, OnePerSandbox, CanOpen;
    DecideOpens(f, r, now);
    RegisterSafe(f, quarantined, r, now);
    var g := Register(f, r, now);
    OpenedHere(f, r, Decide(f, r, now).superseding, now);
    OnlyNewest(g, r);
    hide OpenConnection, ActiveOn, Replaced;
  }

  lemma OpenedHere(f: Fleet, r: Registration, superseding: Option<ConnectionId>, now: Time)
    requires CanOpen(f, r, superseding)
    ensures var g := OpenConnection(f, r, superseding, now);
            && ActiveOn(g.connections, r.connection, r.authority.sandbox)
            && g.connections[r.connection].supervisor == r.authority.supervisor
            && forall s :: s in Replaced(f, r.authority) ==> s in g.retirements && s in g.sandboxes && g.sandboxes[s].state.Failed?
  {
    hide HasHistory, MessageUsed, TransportUsed, CloseAll, Supersede;
  }

  lemma OnlyNewest(g: Fleet, r: Registration)
    requires Linked(g.sandboxes, g.connections) && OneActive(g.connections)
    requires ActiveOn(g.connections, r.connection, r.authority.sandbox)
    requires g.connections[r.connection].supervisor == r.authority.supervisor
    ensures forall c, s :: ActiveOn(g.connections, c, s) && s in SandboxesOf(g.sandboxes, r.authority.supervisor) ==> c == r.connection
  {
  }

  /** Registering again over the same transport, in time, is answered with the same connection and changes nothing. */
  lemma RegisterReplays(f: Fleet, quarantined: set<SandboxId>, r: Registration, now: Time, later: Time)
    requires Safe(f, quarantined) && OnePerSandbox(f.connections) && r.connection !in f.connections
    requires Decide(f, r, now).Open? && later < now + r.heartbeatTimeout
    ensures var g := Register(f, r, now);
            && OnePerSandbox(g.connections) && RequestsUnique(g.connections)
            && Register(g, r, later) == g && Answer(g, r, later) == Ok(r.connection)
  {
    hide Linked, Serving, Quarantined, RetirementLinked, RetiredClosed, ClaimShape, Load, LeaseLinked,
      CredentialsUnique, Enrolled;
    hide OneActive, RequestsUnique, OnePerSandbox, CanOpen, Decide;
    DecideOpens(f, r, now);
    RegisterSafe(f, quarantined, r, now);
    var g := Register(f, r, now);
    OneAuthority(g);
    DecidedCapacity(f, r, now);
    OpenedIdentity(f, quarantined, r, Decide(f, r, now).superseding, now);
    hide OpenConnection;
    BootsDiffer(g, r.authority);
    ReplayFound(g, r, now, later);
  }

  lemma DecidedCapacity(f: Fleet, r: Registration, now: Time)
    requires OnePerSandbox(f.connections) && RequestsUnique(f.connections) && Decide(f, r, now).Open?
    ensures r.authority.sandbox in f.sandboxes && r.capacity == f.sandboxes[r.authority.sandbox].capacity
  {
    hide OnePerSandbox, RequestsUnique, BootElsewhere, DecideNew, DecideReplay, TransportConnection;
  }

  lemma OpenedIdentity(f: Fleet, quarantined: set<SandboxId>, r: Registration, superseding: Option<ConnectionId>,
                       now: Time)
    requires CanOpen(f, r, superseding)
    ensures var g := OpenConnection(f, r, superseding, now);
            && Identified(g, r.authority)
            && g.sandboxes[r.authority.sandbox].capacity == f.sandboxes[r.authority.sandbox].capacity
            && r.connection in g.connections && g.connections[r.connection] == NewConnection(r, now)
  {
    hide HasHistory, MessageUsed, TransportUsed, CloseAll, RetireAll, Supersede, ActiveOn;
  }

  lemma ReplayFound(g: Fleet, r: Registration, now: Time, later: Time)
    requires OnePerSandbox(g.connections) && RequestsUnique(g.connections)
    requires Identified(g, r.authority) && !BootElsewhere(g, r.authority)
    requires g.sandboxes[r.authority.sandbox].capacity == r.capacity
    requires r.connection in g.connections && g.connections[r.connection] == NewConnection(r, now)
    requires later < now + r.heartbeatTimeout
    ensures Decide(g, r, later) == Replay(r.connection)
  {
    assert OnSandboxOf(g, r.connection, r.authority.supervisor);
    var found := TransportConnection(g, r.authority.supervisor, r.authority.transport);
    assert found == Some(r.connection) by {
      hide OnSandboxOf, OnePerSandbox;
    }
    hide OnePerSandbox, RequestsUnique, BootElsewhere, OnSandboxOf, DecideNew;
  }
}
