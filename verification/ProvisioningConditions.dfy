/** Exactly which boots are provisioned, and what a provision writes. */
module ProvisioningConditions {
  import opened Common
  import opened SupervisorFleet
  import opened FleetSafety
  import SM = StateMachines

  /** No credential has the request's identity, number, sandbox, boot or digest. */
  ghost predicate Unclaimed(f: Fleet, p: ProvisionRequest) {
    forall k :: k in f.credentials ==>
      && k != p.credential && f.credentials[k].request != p.request && f.credentials[k].sandbox != p.sandbox
      && !(f.credentials[k].supervisor == p.supervisor && f.credentials[k].boot == p.boot)
      && f.credentials[k].digest != p.digest
  }

  /** The request was served before in every particular, and its credential is still good. */
  ghost predicate ServedBefore(f: Fleet, p: ProvisionRequest, now: Time) {
    && p.credential in f.credentials
    && f.credentials[p.credential] ==
       Credential(p.digest, p.request, p.sandbox, p.supervisor, p.boot, f.credentials[p.credential].expiresAt, false)
    && now < f.credentials[p.credential].expiresAt
    && p.sandbox in f.sandboxes && f.sandboxes[p.sandbox].capacity == p.capacity
  }

  /** The policy admits the capacity, and the host's own policy is neither widened nor moved. */
  ghost predicate PolicyAdmits(f: Fleet, p: ProvisionRequest, maximum: nat, routeAllowed: bool) {
    && routeAllowed && p.capacity <= maximum
    && (p.supervisor in f.hosts ==> maximum <= f.hosts[p.supervisor].capacity && f.hosts[p.supervisor].url == p.url)
  }

  lemma ServedConflict(f: Fleet, p: ProvisionRequest, now: Time, conflict: Option<CredentialId>)
    requires CredentialsUnique(f.credentials) && ConflictAnswer(f, p, conflict) && ServedBefore(f, p, now)
    ensures conflict == Some(p.credential)
  {
  }

  lemma ConflictIs(f: Fleet, p: ProvisionRequest, conflict: Option<CredentialId>)
    requires ConflictAnswer(f, p, conflict)
    ensures conflict.Some? ==> conflict.value in f.credentials && !Unclaimed(f, p)
    ensures conflict.None? ==>
              (Unclaimed(f, p) <==> forall k :: k in f.credentials ==> f.credentials[k].digest != p.digest)
    ensures conflict.None? ==> p.credential !in f.credentials
  {
  }

  /**
   A provision succeeds if and only if policy and host admit it and the request is either new in
   every identity it carries or was served before and its credential is still good; a new one is
   answered as new, a repeated one as a repeat with the old expiry.
   */
  lemma ProvisionsIff(f: Fleet, p: ProvisionRequest, conflict: Option<CredentialId>, maximum: nat, routeAllowed: bool,
                      now: Time, ttl: nat)
    requires CredentialsUnique(f.credentials) && ConflictAnswer(f, p, conflict)
    ensures conflict.Some? ==> conflict.value in f.credentials
    ensures var r := ProvisionWith(f, p, conflict, maximum, routeAllowed, now, ttl);
            && (r.Ok? <==> PolicyAdmits(f, p, maximum, routeAllowed) && (Unclaimed(f, p) || ServedBefore(f, p, now)))
            && (r.Ok? && Unclaimed(f, p) ==> r.value.1 == Provisioned(now + ttl, false))
            && (r.Ok? && ServedBefore(f, p, now) ==>
                  p.credential in f.credentials && r.value.1 == Provisioned(f.credentials[p.credential].expiresAt, true))
  {
    if ServedBefore(f, p, now) {
      ServedConflict(f, p, now, conflict);
    }
    hide CredentialsUnique;
    ConflictIs(f, p, conflict);
    hide ConflictAnswer, Unclaimed, Enroll;
  }

  /**
   A new provision writes exactly the sandbox of the boot, its credential with the time asked for,
   the revocation of the supervisor's other credentials, and the host at the configured maximum,
   which is never wider than before; a repeated one at most narrows the host.
   */
  lemma ProvisionWrites(f: Fleet, p: ProvisionRequest, conflict: Option<CredentialId>, maximum: nat, routeAllowed: bool,
                        now: Time, ttl: nat)
    requires CredentialsUnique(f.credentials) && ConflictAnswer(f, p, conflict)
    requires conflict.Some? ==> conflict.value in f.credentials
    requires ProvisionWith(f, p, conflict, maximum, routeAllowed, now, ttl).Ok?
    ensures var g := ProvisionWith(f, p, conflict, maximum, routeAllowed, now, ttl).value.0;
            && g.hosts == f.hosts[p.supervisor := Host(maximum, p.url)]
            && (p.supervisor in f.hosts ==> maximum <= f.hosts[p.supervisor].capacity && p.url == f.hosts[p.supervisor].url)
            && g.connections == f.connections && g.retirements == f.retirements && g.leases == f.leases
            && (conflict.Some? ==> g.sandboxes == f.sandboxes && g.credentials == f.credentials)
            && (conflict.None? ==>
                  && g.sandboxes == f.sandboxes[p.sandbox := Sandbox(p.supervisor, p.boot, SM.SandboxState.Provisioning, p.capacity, 0)]
                  && g.credentials.Keys == f.credentials.Keys + {p.credential}
                  && g.credentials[p.credential] == Credential(p.digest, p.request, p.sandbox, p.supervisor, p.boot, now + ttl, false)
                  && forall k :: k in f.credentials && k != p.credential ==>
                       g.credentials[k] == f.credentials[k].(revoked := f.credentials[k].revoked || f.credentials[k].supervisor == p.supervisor))
  {
    hide CredentialsUnique, ConflictAnswer;
  }
}
