/**
 The connection manager and the boot provisioner over their tables, one method per transaction,
 statement by statement. Each is proved to be the table step of the same name.
 */
module SupervisorConnectionManager {
  import opened Common
  import opened SupervisorFleet
  import opened FleetSafety
  import C = RetirementClaims
  import SM = StateMachines

  datatype RetirementClaim = RetirementClaim(
    sandbox: SandboxId,
    supervisor: SupervisorId,
    boot: BootId,
    id: ClaimId,
    attempt: nat)

  /** Expiring candidates one after the other. */
  function ExpireEach(f: Fleet, candidates: seq<ConnectionId>, now: Time): Fleet {
    if candidates == [] then f
    else Expire(ExpireEach(f, candidates[..|candidates| - 1], now), candidates[|candidates| - 1], now)
  }

  class SupervisorConnectionManager {
    var hosts: Hosts
    var credentials: Credentials
    var sandboxes: Sandboxes
    var connections: Connections
    var retirements: Retirements
    var leases: Leases
    ghost var quarantined: set<SandboxId>
    const instance: InstanceId

    ghost function Tables(): Fleet
      reads this
    {
      Fleet(hosts, credentials, sandboxes, connections, retirements, leases)
    }

    ghost predicate Valid()
      reads this
    {
      Safe(Tables(), quarantined)
    }

    ghost predicate Indexed()
      reads this
    {
      OnePerSandbox(connections) && RequestsUnique(connections)
    }

    constructor (instance: InstanceId)
      ensures Valid() && Tables() == EMPTY_FLEET && this.instance == instance
    {
      this.instance := instance;
      hosts, credentials, sandboxes, connections, retirements, leases := map[], map[], map[], map[], map[], map[];
      quarantined := {};
      new;
      EmptySafe();
    }

    // ---------------------------------------------------------------- fencing

    /**
     Close the active connections of a sandbox, fail it unless it is over, open its retirement
     unless there is one.
     */
    method FenceSandbox(s: SandboxId, reason: Reason, now: Time)
      requires s in sandboxes
      modifies this`connections, this`sandboxes, this`retirements
      ensures Tables() == FenceAll(old(Tables()), {s}, reason, now)
    {
      CloseConnections(s, reason);
      var sandbox := sandboxes[s];
      if !sandbox.state.Terminated? {
        if !sandbox.state.Failed? {
          sandboxes := sandboxes[s := sandbox.(state := SM.SandboxState.Failed)];
        }
        if s !in retirements {
          retirements := retirements[s := NewRetirement(sandbox, reason, now)];
        }
      }
      assert sandboxes == FailAll(old(sandboxes), {s});
      assert retirements == RetireAll(old(retirements), old(sandboxes), {s}, reason, now);
    }

    method CloseConnections(s: SandboxId, reason: Reason)
      modifies this`connections
      ensures connections == CloseAll(old(connections), {s}, reason)
    {
      var open := set c | c in connections && connections[c].sandbox == s && connections[c].state.Active?;
      ghost var before := connections;
      while open != {}
        invariant connections.Keys == before.Keys
        invariant open <= before.Keys
        invariant forall c :: c in open ==> before[c].sandbox == s && before[c].state.Active?
        invariant forall c :: c in before ==>
                    connections[c] == if before[c].sandbox == s && before[c].state.Active? && c !in open
                                      then before[c].(state := Fenced(reason)) else before[c]
        decreases open
      {
        var c :| c in open;
        connections := connections[c := connections[c].(state := Fenced(reason))];
        open := open - {c};
      }
    }

    /** Every other sandbox of the supervisor that is not over is fenced by the newer boot. */
    method FenceReplaced(others: set<SandboxId>, now: Time)
      requires others <= sandboxes.Keys
      modifies this`connections, this`sandboxes, this`retirements
      ensures Tables() == FenceAll(old(Tables()), others, NewBoot, now)
    {
      hide FenceAll;
      var remaining := others;
      ghost var before := Tables();
      FenceNone(before, NewBoot, now);
      assert others - remaining == {};
      while remaining != {}
        invariant remaining <= others
        invariant Tables() == FenceAll(before, others - remaining, NewBoot, now)
        invariant others <= sandboxes.Keys
        decreases remaining
      {
        var s :| s in remaining;
        FenceOneMore(before, others - remaining, s, NewBoot, now);
        assert others - (remaining - {s}) == (others - remaining) + {s};
        FenceKeepsKeys(Tables(), {s}, NewBoot, now);
        FenceSandbox(s, NewBoot, now);
        remaining := remaining - {s};
      }
      assert others - {} == others;
    }

    // ---------------------------------------------------------------- register

    /** The answers to a registration whose transport is already known. */
    method Replay(c: ConnectionId, r: Registration, now: Time) returns (answer: Result<ConnectionId, Rejection>)
      requires c in connections && r.authority.sandbox in sandboxes
      modifies this`connections, this`sandboxes, this`retirements
      ensures var d := DecideReplay(c, old(connections[c]), r, now);
              && Tables() == (if d.Expired? then FenceAll(old(Tables()), {r.authority.sandbox}, HeartbeatTimeout, now) else old(Tables()))
              && answer == match d case Replay(k) => Ok(k) case Reject(code) => Err(code) case _ => Err(StaleRegistration)
    {
      hide FenceAll;
      var row := connections[c];
      if row.message != r.message || row.fingerprint != r.fingerprint || row.supervisor != r.authority.supervisor ||
         row.boot != r.authority.boot || row.sandbox != r.authority.sandbox || row.instance != r.instance {
        return Err(RegistrationConflict);
      }
      if row.state.Active? && row.expiresAt > now {
        return Ok(c);
      }
      if row.state.Active? {
        FenceSandbox(r.authority.sandbox, HeartbeatTimeout, now);
      }
      return Err(StaleRegistration);
    }

    method Register(r: Registration, now: Time) returns (answer: Result<ConnectionId, Rejection>)
      requires Valid() && Indexed() && r.connection !in connections
      modifies this`connections, this`sandboxes, this`retirements
      ensures Valid()
      ensures Tables() == SupervisorFleet.Register(old(Tables()), r, now)
      ensures answer == Answer(old(Tables()), r, now)
    {
      hide Safe, OnePerSandbox, RequestsUnique, FenceAll, BootElsewhere, MessageUsed, HasHistory, TransportUsed,
        OnSandboxOf, DecideNew, DecideReplay;
      ghost var f := Tables();
      RegisterSafe(f, quarantined, r, now);
      var a := r.authority;
      if a.sandbox !in sandboxes || sandboxes[a.sandbox].supervisor != a.supervisor || sandboxes[a.sandbox].boot != a.boot {
        return Err(UnauthorizedSandbox);
      }
      if BootElsewhere(Snapshot(), a) {
        return Err(BootIdentityCollision);
      }
      if r.capacity != sandboxes[a.sandbox].capacity {
        return Err(CapacityMismatch);
      }
      match TransportConnection(Snapshot(), a.supervisor, a.transport)
      case Some(c) => answer := Replay(c, r, now);
      case None => answer := RegisterNew(r, now);
    }

    function Snapshot(): (f: Fleet)
      reads this
      ensures f == Tables()
    {
      Fleet(hosts, credentials, sandboxes, connections, retirements, leases)
    }

    /** The checks and writes for a transport that has not registered before. */
    method RegisterNew(r: Registration, now: Time) returns (answer: Result<ConnectionId, Rejection>)
      requires Indexed() && r.authority.sandbox in sandboxes && r.connection !in connections
      modifies this`connections, this`sandboxes, this`retirements
      ensures var d := DecideNew(old(Tables()), r, now);
              && Tables() == (match d
                              case Open(active) => OpenConnection(old(Tables()), r, active, now)
                              case Expired => FenceAll(old(Tables()), {r.authority.sandbox}, HeartbeatTimeout, now)
                              case _ => old(Tables()))
              && answer == match d
                           case Reject(code) => Err(code)
                           case Open(_) => Ok(r.connection)
                           case Expired => Err(StaleRegistration)
                           case Replay(c) => Ok(c)
    {
      hide OnePerSandbox, RequestsUnique, FenceAll, MessageUsed, HasHistory, TransportUsed, OpenConnection;
      var s := r.authority.sandbox;
      var state := sandboxes[s].state;
      if MessageUsed(Snapshot(), r.message) {
        return Err(RegistrationReplay);
      }
      var active := CurrentActive(connections, s);
      if Unavailable(state) {
        return Err(SandboxUnavailable);
      }
      if state.Provisioning? && HasHistory(Snapshot(), s) {
        return Err(RegistrationInvariant);
      }
      if (state.Ready? || state.Leased?) && active.None? && HasHistory(Snapshot(), s) {
        return Err(StaleRegistration);
      }
      if active.Some? && connections[active.value].expiresAt <= now {
        FenceSandbox(s, HeartbeatTimeout, now);
        return Err(StaleRegistration);
      }
      if !r.policyAccepted {
        return Err(UnsupportedRuntime);
      }
      if TransportUsed(Snapshot(), r.authority.transport) {
        return Err(UniqueViolation);
      }
      WriteConnection(r, active, now);
      return Ok(r.connection);
    }

    /**
     Fence the replaced sandboxes, supersede the previous connection, ready the sandbox, insert the
     new connection.
     */
    method WriteConnection(r: Registration, active: Option<ConnectionId>, now: Time)
      requires r.authority.sandbox in sandboxes && r.connection !in connections
      requires active.Some? ==> ActiveOn(connections, active.value, r.authority.sandbox)
      modifies this`connections, this`sandboxes, this`retirements
      ensures Tables() == OpenConnection(old(Tables()), r, active, now)
    {
      ghost var f := Tables();
      var others := Replaced(Snapshot(), r.authority);
      FenceKeepsKeys(f, others, NewBoot, now);
      assert others <= sandboxes.Keys;
      hide FenceAll, Replaced;
      FenceReplaced(others, now);
      if active.Some? {
        connections := connections[active.value := connections[active.value].(state := Superseded)];
      }
      if sandboxes[r.authority.sandbox].state.Provisioning? {
        sandboxes := sandboxes[r.authority.sandbox := sandboxes[r.authority.sandbox].(state := SM.SandboxState.Ready)];
      }
      connections := connections[r.connection := NewConnection(r, now)];
    }

    // ---------------------------------------------------------------- heartbeats and expiry

    method Heartbeat(c: ConnectionId, a: Authority, now: Time, timeout: nat) returns (accepted: bool)
      requires Valid()
      modifies this`connections
      ensures Valid()
      ensures Tables() == SupervisorFleet.Heartbeat(old(Tables()), c, a, instance, now, timeout)
      ensures accepted <==> IsCurrent(old(connections), c, a, instance, now)
    {
      HeartbeatSafe(Tables(), quarantined, c, a, instance, now, timeout);
      hide Safe;
      accepted := IsCurrent(connections, c, a, instance, now);
      if accepted {
        connections := connections[c := connections[c].(expiresAt := now + timeout)];
      }
    }

    method ExpireConnection(c: ConnectionId, now: Time) returns (expired: bool)
      requires Valid()
      modifies this`connections, this`sandboxes, this`retirements
      ensures Valid()
      ensures Tables() == Expire(old(Tables()), c, now)
      ensures expired <==> IsExpired(old(connections), c, now)
    {
      hide Safe, FenceAll;
      ghost var f := Tables();
      ExpireSafe(f, quarantined, c, now);
      if c !in connections {
        return false;
      }
      if !connections[c].state.Active? || connections[c].expiresAt > now {
        return false;
      }
      ActiveSandbox(f, quarantined, c);
      FenceSandbox(connections[c].sandbox, HeartbeatTimeout, now);
      return true;
    }

    /** The sweep: each candidate in its own transaction, reporting those it expired. */
    method ExpireConnections(candidates: seq<ConnectionId>, now: Time) returns (expired: seq<ConnectionId>)
      requires Valid()
      modifies this`connections, this`sandboxes, this`retirements
      ensures Valid()
      ensures Tables() == ExpireEach(old(Tables()), candidates, now)
      ensures forall i :: 0 <= i < |candidates| ==> !IsExpired(connections, candidates[i], now)
      ensures forall c :: c in expired ==> c in candidates && IsExpired(old(connections), c, now)
    {
      hide Safe, Expire;
      expired := [];
      ghost var f := Tables();
      for i := 0 to |candidates|
        invariant Valid() && Tables() == ExpireEach(f, candidates[..i], now)
        invariant forall j :: 0 <= j < i ==> !IsExpired(connections, candidates[j], now)
        invariant forall c :: IsExpired(connections, c, now) ==> IsExpired(f.connections, c, now)
        invariant forall c :: c in expired ==> c in candidates && IsExpired(f.connections, c, now)
      {
        assert candidates[..i + 1][..i] == candidates[..i];
        ExpireClears(Tables(), candidates[i], now);
        var done := ExpireConnection(candidates[i], now);
        if done {
          expired := expired + [candidates[i]];
        }
      }
      assert candidates[..|candidates|] == candidates;
    }

    // ---------------------------------------------------------------- retirement claims

    /** The oldest due row that no other transaction has locked; rows of one age in order of sandbox. */
    method OldestDue(locked: set<SandboxId>, now: Time) returns (due: Option<SandboxId>)
      ensures due.None? ==> forall b :: b in retirements && b !in locked ==> !C.Claimable(retirements[b], now)
      ensures due.Some? ==> C.IsOldestDue(retirements, locked, now, due.value)
    {
      hide C.Claimable;
      due := None;
      var remaining := retirements.Keys - locked;
      while remaining != {}
        invariant remaining <= retirements.Keys - locked
        invariant due.None? ==> forall b :: b in retirements.Keys - locked - remaining ==> !C.Claimable(retirements[b], now)
        invariant due.Some? ==> C.IsOldestDue(retirements, locked + remaining, now, due.value)
        decreases remaining
      {
        var s :| s in remaining;
        if C.Claimable(retirements[s], now) && (due.None? || C.Older(retirements[s].createdAt, s, retirements[due.value].createdAt, due.value)) {
          due := Some(s);
        }
        remaining := remaining - {s};
      }
      assert locked + {} == locked;
    }

    /** Claim the oldest row that is due and not locked, if there is one. */
    method ClaimRetirement(locked: set<SandboxId>, id: ClaimId, now: Time, duration: nat)
      returns (claim: Option<RetirementClaim>)
      requires Valid()
      modifies this`retirements
      ensures Valid()
      ensures claim.None? ==>
                retirements == old(retirements) &&
                forall b :: b in retirements && b !in locked ==> !C.Claimable(retirements[b], now)
      ensures claim.Some? ==>
                var s := claim.value.sandbox;
                && C.IsOldestDue(old(retirements), locked, now, s)
                && (forall b :: b in old(retirements) && b !in locked && C.Claimable(old(retirements)[b], now) && b != s ==>
                      old(retirements)[s].createdAt < old(retirements)[b].createdAt ||
                      (old(retirements)[s].createdAt == old(retirements)[b].createdAt && s < b))
                && retirements == C.Take(old(retirements), s, id, instance, now, duration)
                && s in sandboxes
                && claim.value == RetirementClaim(s, sandboxes[s].supervisor, sandboxes[s].boot, id, old(retirements[s]).attempts + 1)
    {
      hide Safe, C.Claimable, C.RowUpdated, C.Take;
      var due := OldestDue(locked, now);
      if due.None? {
        return None;
      }
      RetirementRow(Tables(), quarantined, due.value);
      TakeUpdates(retirements, due.value, id, instance, now, duration);
      C.RowUpdatedSafe(Tables(), C.Take(retirements, due.value, id, instance, now, duration), due.value, quarantined);
      var taken := TakeRow(due.value, id, now, duration);
      return Some(taken);
    }

    /** The row as it is claimed, with the attempt that the claim begins. */
    method TakeRow(s: SandboxId, id: ClaimId, now: Time, duration: nat) returns (claim: RetirementClaim)
      requires s in retirements
      modifies this`retirements
      ensures retirements == C.Take(old(retirements), s, id, instance, now, duration)
      ensures claim == RetirementClaim(s, old(retirements[s]).supervisor, old(retirements[s]).boot, id, old(retirements[s]).attempts + 1)
    {
      var row := retirements[s];
      var attempt := row.attempts + 1;
      retirements := retirements[s := row.(state := Claimed, attempts := attempt, claim := Some(Claim(id, instance, now + duration)))];
      claim := RetirementClaim(s, row.supervisor, row.boot, id, attempt);
    }

    method RenewClaim(claim: RetirementClaim, now: Time, duration: nat) returns (held: bool)
      modifies this`retirements
      ensures held <==> C.Renew(old(retirements), claim.sandbox, claim.id, instance, now, duration).Some?
      ensures retirements == if held then C.Renew(old(retirements), claim.sandbox, claim.id, instance, now, duration).value else old(retirements)
    {
      held := C.Holds(retirements, claim.sandbox, claim.id, instance) && retirements[claim.sandbox].claim.value.until > now;
      if held {
        retirements := retirements[claim.sandbox :=
          retirements[claim.sandbox].(claim := Some(Claim(claim.id, instance, now + duration)))];
      }
    }

    method CompleteClaim(claim: RetirementClaim) returns (completed: bool)
      modifies this`retirements
      ensures completed <==> C.Complete(old(Tables()), claim.sandbox, claim.supervisor, claim.boot, claim.id, instance).Some?
      ensures retirements ==
              if completed then C.Complete(old(Tables()), claim.sandbox, claim.supervisor, claim.boot, claim.id, instance).value
              else old(retirements)
    {
      if claim.sandbox !in sandboxes {
        return false;
      }
      var sandbox := sandboxes[claim.sandbox];
      if sandbox.supervisor != claim.supervisor || sandbox.boot != claim.boot || !sandbox.state.Terminated? {
        return false;
      }
      completed := C.Holds(retirements, claim.sandbox, claim.id, instance);
      if completed {
        retirements := retirements[claim.sandbox := retirements[claim.sandbox].(state := Completed, claim := None, failed := false)];
      }
    }

    method FailClaim(claim: RetirementClaim, retryable: bool, now: Time, delay: nat) returns (released: bool)
      modifies this`retirements
      ensures released <==> C.Release(old(retirements), claim.sandbox, claim.id, instance, retryable, now, delay).Some?
      ensures retirements ==
              if released then C.Release(old(retirements), claim.sandbox, claim.id, instance, retryable, now, delay).value
              else old(retirements)
    {
      released := C.Holds(retirements, claim.sandbox, claim.id, instance);
      if released {
        var row := retirements[claim.sandbox];
        var state, availableAt := Blocked, now;
        if retryable {
          state, availableAt := Waiting, now + delay;
        }
        retirements := retirements[claim.sandbox := row.(state := state, availableAt := availableAt, claim := None, failed := true)];
      }
    }

    // ---------------------------------------------------------------- provisioning

    method Provision(p: ProvisionRequest, conflict: Option<CredentialId>, maximum: nat, routeAllowed: bool,
                     now: Time, ttl: nat)
      returns (r: Result<SupervisorFleet.Provisioned, ProvisionError>)
      requires Valid() && ConflictAnswer(Tables(), p, conflict)
      modifies this`hosts, this`sandboxes, this`credentials
      ensures Valid()
      ensures var spec := ProvisionWith(old(Tables()), p, conflict, maximum, routeAllowed, now, ttl);
              && Tables() == (if spec.Ok? then spec.value.0 else old(Tables()))
              && r == match spec case Ok(v) => Ok(v.1) case Err(e) => Err(e)
    {
      hide Safe, RevokeAll, SameProvision;
      ProvisionSafe(Tables(), quarantined, p, conflict, maximum, routeAllowed, now, ttl);
      ConflictStored(Tables(), p, conflict);
      hide ConflictAnswer;
      if !routeAllowed || p.capacity > maximum {
        return Err(PolicyRejected);
      }
      if p.supervisor in hosts && (hosts[p.supervisor].capacity < maximum || hosts[p.supervisor].url != p.url) {
        return Err(HostPolicyConflict);
      }
      var narrowed := if p.supervisor in hosts then hosts[p.supervisor := hosts[p.supervisor].(capacity := maximum)]
                      else hosts[p.supervisor := Host(maximum, p.url)];
      match conflict
      case Some(k) =>
        var row := credentials[k];
        if SameProvision(Snapshot().(hosts := narrowed), row, k, p) && !row.revoked && row.expiresAt > now {
          hosts := narrowed;
          return Ok(SupervisorFleet.Provisioned(row.expiresAt, true));
        }
        return Err(IdentityConflict);
      case None =>
        if exists k :: k in credentials && credentials[k].digest == p.digest {
          return Err(DigestTaken);
        }
        hosts := narrowed;
        sandboxes := sandboxes[p.sandbox := Sandbox(p.supervisor, p.boot, SM.SandboxState.Provisioning, p.capacity, 0)];
        credentials := RevokeAll(credentials, p.supervisor);
        credentials := credentials[p.credential := Credential(p.digest, p.request, p.sandbox, p.supervisor, p.boot, now + ttl, false)];
        return Ok(SupervisorFleet.Provisioned(now + ttl, false));
    }
  }

  // ------------------------------------------------------------------ for the loops

  lemma FenceKeepsKeys(f: Fleet, fenced: set<SandboxId>, reason: Reason, now: Time)
    ensures FenceAll(f, fenced, reason, now).sandboxes.Keys == f.sandboxes.Keys
    ensures FenceAll(f, fenced, reason, now).connections.Keys == f.connections.Keys
  {
  }

  lemma ActiveSandbox(f: Fleet, quarantined: set<SandboxId>, c: ConnectionId)
    requires Safe(f, quarantined) && c in f.connections
    ensures f.connections[c].sandbox in f.sandboxes
  {
  }

  lemma RetirementRow(f: Fleet, quarantined: set<SandboxId>, s: SandboxId)
    requires Safe(f, quarantined) && s in f.retirements
    ensures s in f.sandboxes && f.retirements[s].supervisor == f.sandboxes[s].supervisor
    ensures f.retirements[s].boot == f.sandboxes[s].boot
  {
  }

  lemma ConflictStored(f: Fleet, p: ProvisionRequest, conflict: Option<CredentialId>)
    requires ConflictAnswer(f, p, conflict)
    ensures conflict.Some? ==> conflict.value in f.credentials
  {
  }

  lemma TakeUpdates(rt: Retirements, s: SandboxId, id: ClaimId, owner: InstanceId, now: Time, duration: nat)
    requires s in rt
    ensures C.RowUpdated(rt, C.Take(rt, s, id, owner, now, duration), s)
  {
  }

  /** Expiring a connection leaves it not expired, and expires no other by the clock. */
  lemma ExpireClears(f: Fleet, c: ConnectionId, now: Time)
    ensures !IsExpired(Expire(f, c, now).connections, c, now)
    ensures forall d :: IsExpired(Expire(f, c, now).connections, d, now) ==> IsExpired(f.connections, d, now)
  {
  }
}
