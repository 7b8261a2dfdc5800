/** Claims on retirement rows: who may work on a retirement, and for how long. */
module RetirementClaims {
  import opened Common
  import opened SupervisorFleet
  import opened FleetSafety

  /** A waiting row whose time has come, or a claimed row whose claim has run out. */
  predicate Claimable(r: Retirement, now: Time) {
    || (r.state.Waiting? && r.availableAt <= now)
    || (r.state.Claimed? && r.claim.Some? && r.claim.value.until <= now)
  }

  predicate Older(createdAt: Time, s: SandboxId, createdAt': Time, s': SandboxId) {
    createdAt < createdAt' || (createdAt == createdAt' && s <= s')
  }

  /** Row `s` is due and not locked, and no other such row is older. */
  ghost predicate IsOldestDue(rt: Retirements, locked: set<SandboxId>, now: Time, s: SandboxId) {
    && s in rt && s !in locked && Claimable(rt[s], now)
    && forall b :: b in rt && b !in locked && Claimable(rt[b], now) ==> Older(rt[s].createdAt, s, rt[b].createdAt, b)
  }

  function Take(rt: Retirements, s: SandboxId, id: ClaimId, owner: InstanceId, now: Time, duration: nat): Retirements
    requires s in rt
  {
    rt[s := rt[s].(state := Claimed, attempts := rt[s].attempts + 1, claim := Some(Claim(id, owner, now + duration)))]
  }

  predicate Holds(rt: Retirements, s: SandboxId, id: ClaimId, owner: InstanceId) {
    && s in rt && rt[s].state.Claimed? && rt[s].claim.Some?
    && rt[s].claim.value.id == id && rt[s].claim.value.owner == owner
  }

  /** Renewal needs the claim to be held and not yet to have run out. */
  function Renew(rt: Retirements, s: SandboxId, id: ClaimId, owner: InstanceId, now: Time, duration: nat)
    : Option<Retirements>
  {
    if Holds(rt, s, id, owner) && rt[s].claim.value.until > now
    then Some(rt[s := rt[s].(claim := Some(Claim(id, owner, now + duration)))])
    else None
  }

  predicate Terminated(f: Fleet, s: SandboxId, supervisor: SupervisorId, boot: BootId) {
    s in f.sandboxes && f.sandboxes[s].supervisor == supervisor && f.sandboxes[s].boot == boot && f.sandboxes[s].state.Terminated?
  }

  /** Completion needs the claim and the durable terminal state of the very boot that was claimed. */
  function Complete(f: Fleet, s: SandboxId, supervisor: SupervisorId, boot: BootId, id: ClaimId, owner: InstanceId)
    : Option<Retirements>
  {
    if Terminated(f, s, supervisor, boot) && Holds(f.retirements, s, id, owner)
    then Some(f.retirements[s := f.retirements[s].(state := Completed, claim := None, failed := false)])
    else None
  }

  function Release(rt: Retirements, s: SandboxId, id: ClaimId, owner: InstanceId, retryable: bool, now: Time,
                   delay: nat): Option<Retirements> {
    if Holds(rt, s, id, owner)
    then Some(rt[s := rt[s].(state := if retryable then Waiting else Blocked,
                             availableAt := if retryable then now + delay else now,
                             claim := None, failed := true)])
    else None
  }

  /** Claim steps rewrite one row and keep what the row is for. */
  ghost predicate RowUpdated(rt: Retirements, rt': Retirements, s: SandboxId) {
    && s in rt && s in rt' && rt' == rt[s := rt'[s]]
    && rt'[s].supervisor == rt[s].supervisor && rt'[s].boot == rt[s].boot
    && (rt'[s].claim.Some? <==> rt'[s].state.Claimed?)
    && (rt'[s].state.Blocked? ==> rt'[s].failed)
    && rt'[s].attempts > 0
  }

  lemma RowUpdatedTables(f: Fleet, rt': Retirements, s: SandboxId)
    requires RowUpdated(f.retirements, rt', s)
    ensures RetirementLinked(f.sandboxes, f.retirements) ==> RetirementLinked(f.sandboxes, rt')
    ensures ClaimShape(f.retirements) ==> ClaimShape(rt')
  {
  }

  lemma RowUpdatedClosed(f: Fleet, rt': Retirements, s: SandboxId)
    requires RowUpdated(f.retirements, rt', s) && RetiredClosed(f.connections, f.retirements)
    ensures RetiredClosed(f.connections, rt')
  {
    hide ActiveOn;
  }

  lemma RowUpdatedSafe(f: Fleet, rt': Retirements, s: SandboxId, quarantined: set<SandboxId>)
    requires Safe(f, quarantined) && RowUpdated(f.retirements, rt', s)
    ensures Safe(f.(retirements := rt'), quarantined)
  {
    hide RowUpdated, Linked, OneActive, RequestsUnique, Serving, Quarantined, RetirementLinked, RetiredClosed,
      ClaimShape, Load, LeaseLinked, CredentialsUnique, Enrolled;
    RowUpdatedTables(f, rt', s);
    RowUpdatedClosed(f, rt', s);
  }

  /** No claim step is open to a holder whose claim is not the one on the row. */
  lemma LostClaim(f: Fleet, s: SandboxId, supervisor: SupervisorId, boot: BootId, id: ClaimId, owner: InstanceId,
                  retryable: bool, now: Time, span: nat)
    requires s in f.retirements && f.retirements[s].claim.Some? ==> f.retirements[s].claim.value.id != id
    ensures Renew(f.retirements, s, id, owner, now, span).None?
    ensures Complete(f, s, supervisor, boot, id, owner).None?
    ensures Release(f.retirements, s, id, owner, retryable, now, span).None?
  {
  }
}
