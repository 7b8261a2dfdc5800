/** Every interleaving of channel steps settles each promise exactly once. */
module ControlChannelRuns {
  import opened Common
  import opened ControlChannel

  // ------------------------------------------------------------------ one pending exchange ends

  /** The acknowledgement pending under `id` ends with `outcome`; the command may become prepared. */
  function EndAck(r: Router, k: ConnectionId, id: CommandId, prepared: map<CommandId, Prepared>,
                  outcome: Outcome): Router
    requires k in r.connections && id in r.connections[k].acks
  {
    var c := r.connections[k];
    r.(connections := r.connections[k := c.(acks := c.acks - {id}, prepared := prepared)],
       promises := Settle(r.promises, c.acks[id].promise, outcome))
  }

  function EndResult(r: Router, k: ConnectionId, id: CommandId, outcome: Outcome): Router
    requires k in r.connections && id in r.connections[k].results
  {
    var c := r.connections[k];
    r.(connections := r.connections[k := c.(results := c.results - {id})],
       promises := Settle(r.promises, c.results[id].promise, outcome))
  }

  lemma Removed<K, V>(m: map<K, V>, k: K)
    requires k in m
    ensures |m - {k}| == |m| - 1 && (m - {k}).Keys == m.Keys - {k}
  {
    assert m == (m - {k})[k := m[k]];
  }

  lemma Added<K, V>(m: map<K, V>, k: K, v: V)
    requires k !in m
    ensures |m[k := v]| == |m| + 1 && m[k := v].Keys == m.Keys + {k}
  {
  }

  lemma EndAckConnection(c: Connection, id: CommandId, prepared: map<CommandId, Prepared>, max: nat)
    requires ConnectionOk(c, max) && id in c.acks
    requires prepared == c.prepared || (id in prepared && prepared == c.prepared[id := prepared[id]])
    ensures ConnectionOk(c.(acks := c.acks - {id}, prepared := prepared), max)
  {
    Removed(c.acks, id);
    assert id !in c.prepared && id !in c.results;
    if prepared != c.prepared {
      Added(c.prepared, id, prepared[id]);
    }
  }

  lemma EndResultConnection(c: Connection, id: CommandId, max: nat)
    requires ConnectionOk(c, max) && id in c.results
    ensures ConnectionOk(c.(results := c.results - {id}), max)
  {
    Removed(c.results, id);
  }

  lemma EndAckPromises(r: Router, k: ConnectionId, id: CommandId, prepared: map<CommandId, Prepared>, outcome: Outcome)
    requires k in r.connections && id in r.connections[k].acks
    requires PromisesExact(r) && EntriesPromised(r) && !outcome.Waiting?
    ensures PromisesExact(EndAck(r, k, id, prepared, outcome))
  {
    var r' := EndAck(r, k, id, prepared, outcome);
    var own := r.connections[k].acks[id].promise;
    assert AckPromised(r.promises, k, id, r.connections[k].acks[id]);
    forall p | p in r'.promises
      ensures r'.promises[p].connection in r'.connections
      ensures r'.promises[p].outcome.Waiting? <==>
              PendsOn(r'.connections[r'.promises[p].connection], r'.promises[p].connection, p, r'.promises[p])
    {
      assert r.promises[p].connection in r.connections;
    }
  }

  lemma EndAckEntries(r: Router, k: ConnectionId, id: CommandId, prepared: map<CommandId, Prepared>, outcome: Outcome)
    requires k in r.connections && id in r.connections[k].acks && EntriesPromised(r)
    ensures EntriesPromised(EndAck(r, k, id, prepared, outcome))
  {
  }

  lemma EndResultPromises(r: Router, k: ConnectionId, id: CommandId, outcome: Outcome)
    requires k in r.connections && id in r.connections[k].results
    requires PromisesExact(r) && EntriesPromised(r) && !outcome.Waiting?
    ensures PromisesExact(EndResult(r, k, id, outcome))
  {
    var r' := EndResult(r, k, id, outcome);
    var own := r.connections[k].results[id].promise;
    assert ResultPromised(r.promises, k, id, r.connections[k].results[id]);
    forall p | p in r'.promises
      ensures r'.promises[p].connection in r'.connections
      ensures r'.promises[p].outcome.Waiting? <==>
              PendsOn(r'.connections[r'.promises[p].connection], r'.promises[p].connection, p, r'.promises[p])
    {
      assert r.promises[p].connection in r.connections;
    }
  }

  lemma EndResultEntries(r: Router, k: ConnectionId, id: CommandId, outcome: Outcome)
    requires k in r.connections && id in r.connections[k].results && EntriesPromised(r)
    ensures EntriesPromised(EndResult(r, k, id, outcome))
  {
  }

  lemma SettleStays(promises: map<PromiseId, Promise>, p: PromiseId, outcome: Outcome)
    ensures SettledStay(promises, Settle(promises, p, outcome))
  {
  }

  lemma SettleHonest(promises: map<PromiseId, Promise>, p: PromiseId, outcome: Outcome)
    requires OutcomesHonest(promises)
    requires p in promises ==> HonestOutcome(promises[p].(outcome := outcome))
    ensures OutcomesHonest(Settle(promises, p, outcome))
  {
  }

  /** Only connection `k` changes, and it stays attached where it was. */
  ghost predicate SamePlaces(r: Router, r': Router) {
    && r'.bySandbox == r.bySandbox && r'.connections.Keys == r.connections.Keys
    && forall k :: k in r.connections ==>
         r'.connections[k].sandbox == r.connections[k].sandbox && r'.connections[k].detached == r.connections[k].detached
  }

  lemma SamePlacesIndexed(r: Router, r': Router)
    requires Indexed(r) && SamePlaces(r, r')
    ensures Indexed(r')
  {
  }

  lemma ReplaceOk(connections: map<ConnectionId, Connection>, k: ConnectionId, c: Connection, max: nat)
    requires AllOk(connections, max) && ConnectionOk(c, max)
    ensures AllOk(connections[k := c], max)
  {
    hide ConnectionOk;
  }

  lemma ReplaceIndexed(r: Router, k: ConnectionId, c: Connection, promises: map<PromiseId, Promise>)
    requires Indexed(r) && k in r.connections
    requires c.sandbox == r.connections[k].sandbox && c.detached == r.connections[k].detached
    ensures Indexed(r.(connections := r.connections[k := c], promises := promises))
  {
    SamePlacesIndexed(r, r.(connections := r.connections[k := c], promises := promises));
    hide Indexed;
  }

  lemma AckEntry(r: Router, k: ConnectionId, id: CommandId, max: nat)
    requires Valid(r, max) && k in r.connections && id in r.connections[k].acks
    ensures var p := r.connections[k].acks[id].promise;
            p in r.promises && AckPromised(r.promises, k, id, r.connections[k].acks[id]) && ConnectionOk(r.connections[k], max)
  {
    hide PromisesExact, OutcomesHonest, ConnectionOk, Indexed;
  }

  lemma ResultEntry(r: Router, k: ConnectionId, id: CommandId, max: nat)
    requires Valid(r, max) && k in r.connections && id in r.connections[k].results
    ensures var p := r.connections[k].results[id].promise;
            p in r.promises && ResultPromised(r.promises, k, id, r.connections[k].results[id]) && ConnectionOk(r.connections[k], max)
  {
    hide PromisesExact, OutcomesHonest, ConnectionOk, Indexed;
  }

  lemma EndAckValid(r: Router, k: ConnectionId, id: CommandId, prepared: map<CommandId, Prepared>, outcome: Outcome,
                    max: nat)
    requires Valid(r, max) && k in r.connections && id in r.connections[k].acks && !outcome.Waiting?
    requires var before := r.connections[k].prepared;
             prepared == before || (id in prepared && prepared == before[id := prepared[id]])
    requires match outcome
             case Rejected(e) => e.retryable && !e.ambiguous
             case Acked(ack) => ack.identity == r.connections[k].acks[id].command.identity
             case _ => false
    ensures Valid(EndAck(r, k, id, prepared, outcome), max)
    ensures SettledStay(r.promises, EndAck(r, k, id, prepared, outcome).promises)
  {
    hide PromisesExact, EntriesPromised, OutcomesHonest, ConnectionOk, AllOk, Settle, SettledStay, Indexed;
    var c := r.connections[k];
    var own := c.acks[id].promise;
    var c' := c.(acks := c.acks - {id}, prepared := prepared);
    AckEntry(r, k, id, max);
    EndAckConnection(c, id, prepared, max);
    ReplaceOk(r.connections, k, c', max);
    ReplaceIndexed(r, k, c', Settle(r.promises, own, outcome));
    EndAckPromises(r, k, id, prepared, outcome);
    EndAckEntries(r, k, id, prepared, outcome);
    SettleStays(r.promises, own, outcome);
    SettleHonest(r.promises, own, outcome);
  }

  lemma EndResultValid(r: Router, k: ConnectionId, id: CommandId, outcome: Outcome, max: nat)
    requires Valid(r, max) && k in r.connections && id in r.connections[k].results && !outcome.Waiting?
    requires match outcome
             case Rejected(e) => !e.retryable && e.ambiguous
             case Resulted(result) => Answers(r.connections[k].results[id], result)
             case _ => false
    ensures Valid(EndResult(r, k, id, outcome), max)
    ensures SettledStay(r.promises, EndResult(r, k, id, outcome).promises)
  {
    hide PromisesExact, EntriesPromised, OutcomesHonest, ConnectionOk, AllOk, Settle, SettledStay, Indexed;
    var c := r.connections[k];
    var own := c.results[id].promise;
    ResultEntry(r, k, id, max);
    EndResultConnection(c, id, max);
    ReplaceOk(r.connections, k, c.(results := c.results - {id}), max);
    ReplaceIndexed(r, k, c.(results := c.results - {id}), Settle(r.promises, own, outcome));
    EndResultPromises(r, k, id, outcome);
    EndResultEntries(r, k, id, outcome);
    SettleStays(r.promises, own, outcome);
    SettleHonest(r.promises, own, outcome);
  }

  // ------------------------------------------------------------------ one exchange begins or moves on

  function BeginAck(r: Router, k: ConnectionId, command: Command, p: PromiseId): Router
    requires k in r.connections
  {
    var id := command.identity.command;
    r.(connections := r.connections[k := r.connections[k].(acks := r.connections[k].acks[id := PendingAck(command, p)])],
       promises := r.promises[p := Promise(k, command, None, Waiting)])
  }

  function BeginResult(r: Router, k: ConnectionId, pending: PendingResult): Router
    requires k in r.connections
  {
    var id := pending.command.identity.command;
    var c := r.connections[k];
    r.(connections := r.connections[k := c.(prepared := c.prepared - {id}, results := c.results[id := pending])],
       promises := r.promises[pending.promise := Promise(k, pending.command, Some(pending.commit.message), Waiting)])
  }

  lemma BeginAckConnection(c: Connection, command: Command, p: PromiseId, max: nat)
    requires ConnectionOk(c, max) && PendingCount(c) < max && !c.detached
    requires var id := command.identity.command; id !in c.acks && id !in c.prepared && id !in c.results
    ensures ConnectionOk(c.(acks := c.acks[command.identity.command := PendingAck(command, p)]), max)
  {
    Added(c.acks, command.identity.command, PendingAck(command, p));
  }

  lemma BeginResultConnection(c: Connection, pending: PendingResult, max: nat)
    requires ConnectionOk(c, max) && !c.detached && pending.command.identity.command in c.prepared
    ensures var id := pending.command.identity.command;
            ConnectionOk(c.(prepared := c.prepared - {id}, results := c.results[id := pending]), max)
  {
    var id := pending.command.identity.command;
    Removed(c.prepared, id);
    assert id !in c.results && id !in c.acks;
    Added(c.results, id, pending);
  }

  lemma BeginAckPromises(r: Router, k: ConnectionId, command: Command, p: PromiseId)
    requires k in r.connections && p !in r.promises && command.identity.command !in r.connections[k].acks
    requires PromisesExact(r) && EntriesPromised(r)
    ensures PromisesExact(BeginAck(r, k, command, p)) && EntriesPromised(BeginAck(r, k, command, p))
  {
    var r' := BeginAck(r, k, command, p);
    forall q | q in r.promises
      ensures r'.promises[q] == r.promises[q] && r'.promises[q].connection in r'.connections
      ensures r'.promises[q].outcome.Waiting? <==>
              PendsOn(r'.connections[r'.promises[q].connection], r'.promises[q].connection, q, r'.promises[q])
    {
    }
  }

  lemma BeginResultPromises(r: Router, k: ConnectionId, pending: PendingResult)
    requires k in r.connections && pending.promise !in r.promises
    requires pending.command.identity.command !in r.connections[k].results
    requires PromisesExact(r) && EntriesPromised(r)
    ensures PromisesExact(BeginResult(r, k, pending)) && EntriesPromised(BeginResult(r, k, pending))
  {
    var r' := BeginResult(r, k, pending);
    forall q | q in r.promises
      ensures r'.promises[q] == r.promises[q] && r'.promises[q].connection in r'.connections
      ensures r'.promises[q].outcome.Waiting? <==>
              PendsOn(r'.connections[r'.promises[q].connection], r'.promises[q].connection, q, r'.promises[q])
    {
    }
  }

  lemma NewPromise(promises: map<PromiseId, Promise>, p: PromiseId, promise: Promise)
    requires OutcomesHonest(promises) && p !in promises && promise.outcome.Waiting?
    ensures OutcomesHonest(promises[p := promise]) && SettledStay(promises, promises[p := promise])
  {
  }

  lemma ConnectionFits(r: Router, k: ConnectionId, max: nat)
    requires Valid(r, max) && k in r.connections
    ensures ConnectionOk(r.connections[k], max)
  {
    hide PromisesExact, EntriesPromised, OutcomesHonest, ConnectionOk, Indexed;
  }

  lemma BeginAckValid(r: Router, k: ConnectionId, command: Command, p: PromiseId, max: nat)
    requires Valid(r, max) && k in r.connections && p !in r.promises
    requires var c := r.connections[k];
             var id := command.identity.command;
             id !in c.acks && id !in c.prepared && id !in c.results && PendingCount(c) < max && !c.detached
    ensures Valid(BeginAck(r, k, command, p), max) && SettledStay(r.promises, BeginAck(r, k, command, p).promises)
  {
    hide PromisesExact, EntriesPromised, OutcomesHonest, ConnectionOk, AllOk, SettledStay, Indexed, PendingCount;
    var id := command.identity.command;
    var c' := r.connections[k].(acks := r.connections[k].acks[id := PendingAck(command, p)]);
    ConnectionFits(r, k, max);
    BeginAckConnection(r.connections[k], command, p, max);
    ReplaceOk(r.connections, k, c', max);
    ReplaceIndexed(r, k, c', r.promises[p := Promise(k, command, None, Waiting)]);
    BeginAckPromises(r, k, command, p);
    NewPromise(r.promises, p, Promise(k, command, None, Waiting));
  }

  lemma BeginResultValid(r: Router, k: ConnectionId, pending: PendingResult, max: nat)
    requires Valid(r, max) && k in r.connections && pending.promise !in r.promises && !r.connections[k].detached
    requires pending.command.identity.command in r.connections[k].prepared
    ensures Valid(BeginResult(r, k, pending), max) && SettledStay(r.promises, BeginResult(r, k, pending).promises)
  {
    hide PromisesExact, EntriesPromised, OutcomesHonest, ConnectionOk, AllOk, SettledStay, Indexed;
    var id := pending.command.identity.command;
    var c := r.connections[k];
    var c' := c.(prepared := c.prepared - {id}, results := c.results[id := pending]);
    ConnectionFits(r, k, max);
    PreparedOnly(c, id, max);
    BeginResultConnection(c, pending, max);
    ReplaceOk(r.connections, k, c', max);
    ReplaceIndexed(r, k, c',
                   r.promises[pending.promise := Promise(k, pending.command, Some(pending.commit.message), Waiting)]);
    BeginResultPromises(r, k, pending);
    NewPromise(r.promises, pending.promise, Promise(k, pending.command, Some(pending.commit.message), Waiting));
  }

  lemma PreparedOnly(c: Connection, id: CommandId, max: nat)
    requires ConnectionOk(c, max) && id in c.prepared
    ensures id !in c.results && id !in c.acks
  {
  }

  lemma ReleaseConnection(c: Connection, id: CommandId, max: nat)
    requires ConnectionOk(c, max)
    ensures ConnectionOk(c.(prepared := c.prepared - {id}), max)
  {
    if id in c.prepared {
      Removed(c.prepared, id);
    } else {
      assert c.prepared - {id} == c.prepared;
    }
  }

  lemma ReleaseSentValid(r: Router, k: ConnectionId, id: CommandId, max: nat)
    requires Valid(r, max)
    ensures Valid(ReleaseSent(r, k, id), max) && ReleaseSent(r, k, id).promises == r.promises
  {
    hide PromisesExact, EntriesPromised, OutcomesHonest, ConnectionOk, Indexed;
    ReleasePromises(r, k, id);
    if k in r.connections {
      var c := r.connections[k];
      ReleaseConnection(c, id, max);
      ReplaceOk(r.connections, k, c.(prepared := c.prepared - {id}), max);
      ReplaceIndexed(r, k, c.(prepared := c.prepared - {id}), r.promises);
    }
  }

  lemma ReleasePromises(r: Router, k: ConnectionId, id: CommandId)
    requires PromisesExact(r) && EntriesPromised(r)
    ensures PromisesExact(ReleaseSent(r, k, id)) && EntriesPromised(ReleaseSent(r, k, id))
  {
  }

  // ------------------------------------------------------------------ detach and attach

  lemma DetachPromise(r: Router, k: ConnectionId, code: Code, p: PromiseId)
    requires k in r.connections && PromisesExact(r) && p in r.promises && !r.connections[k].detached
    ensures var r' := DetachState(r, k, code);
            && p in r'.promises && r'.promises[p].connection in r'.connections
            && (r'.promises[p].outcome.Waiting? <==>
                  PendsOn(r'.connections[r'.promises[p].connection], r'.promises[p].connection, p, r'.promises[p]))
  {
    assert r.promises[p].connection in r.connections;
  }

  lemma DetachPromises(r: Router, k: ConnectionId, code: Code)
    requires k in r.connections && PromisesExact(r)
    ensures PromisesExact(DetachState(r, k, code))
  {
    if !r.connections[k].detached {
      forall p | p in r.promises
        ensures var r' := DetachState(r, k, code);
                && p in r'.promises && r'.promises[p].connection in r'.connections
                && (r'.promises[p].outcome.Waiting? <==>
                      PendsOn(r'.connections[r'.promises[p].connection], r'.promises[p].connection, p, r'.promises[p]))
      {
        DetachPromise(r, k, code, p);
      }
      hide PendsOn;
    }
  }

  lemma DetachEntries(r: Router, k: ConnectionId, code: Code)
    requires k in r.connections && EntriesPromised(r)
    ensures EntriesPromised(DetachState(r, k, code))
  {
    hide PendsOn;
  }

  lemma DetachOutcomes(r: Router, k: ConnectionId, code: Code)
    requires k in r.connections && OutcomesHonest(r.promises)
    ensures OutcomesHonest(DetachState(r, k, code).promises)
    ensures SettledStay(r.promises, DetachState(r, k, code).promises)
  {
  }

  lemma DetachIndexed(r: Router, k: ConnectionId, code: Code)
    requires k in r.connections && Indexed(r)
    ensures Indexed(DetachState(r, k, code))
    ensures DetachState(r, k, code).connections.Keys == r.connections.Keys
    ensures DetachState(r, k, code).connections[k].detached
    ensures r.connections[k].sandbox !in DetachState(r, k, code).bySandbox ||
            DetachState(r, k, code).bySandbox[r.connections[k].sandbox] != k
  {
    hide RejectPending;
  }

  lemma DetachOk(r: Router, k: ConnectionId, code: Code, max: nat)
    requires k in r.connections && AllOk(r.connections, max)
    ensures AllOk(DetachState(r, k, code).connections, max)
  {
    ReplaceOk(r.connections, k, Emptied(r.connections[k]), max);
    hide RejectPending, AllOk;
  }

  lemma DetachValid(r: Router, k: ConnectionId, code: Code, max: nat)
    requires Valid(r, max) && k in r.connections
    ensures Valid(DetachState(r, k, code), max) && SettledStay(r.promises, DetachState(r, k, code).promises)
  {
    hide PromisesExact, EntriesPromised, OutcomesHonest, AllOk, SettledStay, Indexed, DetachState;
    DetachPromises(r, k, code);
    DetachEntries(r, k, code);
    DetachOutcomes(r, k, code);
    DetachIndexed(r, k, code);
    DetachOk(r, k, code, max);
  }

  /** A new connection takes the place of the sandbox, which no live connection holds any more. */
  function Joined(r: Router, k: ConnectionId, c: Connection): Router {
    r.(bySandbox := r.bySandbox[c.sandbox := k], connections := r.connections[k := c])
  }

  lemma JoinedPromises(r: Router, k: ConnectionId, c: Connection)
    requires k !in r.connections && PromisesExact(r) && EntriesPromised(r)
    requires c.acks == map[] && c.results == map[]
    ensures PromisesExact(Joined(r, k, c)) && EntriesPromised(Joined(r, k, c))
  {
  }

  lemma JoinedIndexed(r: Router, k: ConnectionId, c: Connection, max: nat)
    requires k !in r.connections && Indexed(r) && AllOk(r.connections, max) && c.sandbox !in r.bySandbox
    requires c.acks == map[] && c.prepared == map[] && c.results == map[] && !c.detached
    ensures Indexed(Joined(r, k, c)) && AllOk(Joined(r, k, c).connections, max)
  {
  }

  lemma JoinedValid(r: Router, k: ConnectionId, c: Connection, max: nat)
    requires Valid(r, max) && k !in r.connections && c.sandbox !in r.bySandbox
    requires c.acks == map[] && c.prepared == map[] && c.results == map[] && !c.detached
    ensures Valid(Joined(r, k, c), max)
  {
    hide PromisesExact, EntriesPromised, OutcomesHonest, AllOk, Indexed;
    JoinedPromises(r, k, c);
    JoinedIndexed(r, k, c, max);
  }

  lemma AttachValid(r: Router, k: ConnectionId, sandbox: SandboxId, steers: bool, twoPhase: bool, max: nat)
    requires Valid(r, max) && Attach(r, k, sandbox, steers, twoPhase).Ok?
    ensures var r' := Attach(r, k, sandbox, steers, twoPhase).value;
            Valid(r', max) && SettledStay(r.promises, r'.promises)
  {
    var c := Connection(sandbox, steers, twoPhase, map[], map[], map[], false);
    var prior := r;
    if sandbox in r.bySandbox {
      var p := r.bySandbox[sandbox];
      assert p in r.connections && !r.connections[p].detached && r.connections[p].sandbox == sandbox;
      DetachValid(r, p, ControlChannel.Superseded, max);
      prior := DetachState(r, p, ControlChannel.Superseded);
    }
    assert Attach(r, k, sandbox, steers, twoPhase) == Ok(Joined(prior, k, c));
    assert SettledStay(r.promises, prior.promises);
    hide Valid, SettledStay, RejectPending;
    JoinedValid(prior, k, c, max);
  }

  // ------------------------------------------------------------------ runs

  datatype Step =
    | AttachStep(connection: ConnectionId, sandbox: SandboxId, steers: bool, twoPhase: bool)
    | DetachStep(connection: ConnectionId)
    | PrepareStep(sandbox: SandboxId, command: Command, promise: PromiseId)
    | PrepareSendFails(connection: ConnectionId, id: CommandId, promise: PromiseId)
    | AckTimesOut(connection: ConnectionId, id: CommandId, promise: PromiseId)
    | AckArrives(connection: ConnectionId, ack: Ack)
    | CommitStep(sandbox: SandboxId, command: Command, ack: Ack, commit: Disposition, promise: PromiseId)
    | CommitSendFails(connection: ConnectionId, id: CommandId, promise: PromiseId)
    | ResultTimesOut(connection: ConnectionId, id: CommandId, promise: PromiseId)
    | ResultArrives(connection: ConnectionId, result: CommandResult)
    | ReleaseWasSent(connection: ConnectionId, id: CommandId)

  function OrSame(r: Router, result: Result<Router, ChannelError>): Router {
    match result
    case Ok(r') => r'
    case Err(_) => r
  }

  function Do(r: Router, step: Step, max: nat): Router {
    match step
    case AttachStep(k, sandbox, steers, twoPhase) => OrSame(r, Attach(r, k, sandbox, steers, twoPhase))
    case DetachStep(k) => Detach(r, k)
    case PrepareStep(sandbox, command, p) => if p in r.promises then r else OrSame(r, Prepare(r, sandbox, command, max, p))
    case PrepareSendFails(k, id, p) => GiveUpAck(r, k, id, p, SendFailed)
    case AckTimesOut(k, id, p) => GiveUpAck(r, k, id, p, AckTimeout)
    case AckArrives(k, ack) => OrSame(r, ReceiveAck(r, k, ack))
    case CommitStep(sandbox, command, ack, commit, p) =>
      if p in r.promises then r else OrSame(r, Commit(r, sandbox, command, ack, commit, p))
    case CommitSendFails(k, id, p) => GiveUpResult(r, k, id, p, CommitSendFailed)
    case ResultTimesOut(k, id, p) => GiveUpResult(r, k, id, p, ResultTimeout)
    case ResultArrives(k, result) => OrSame(r, ReceiveResult(r, k, result))
    case ReleaseWasSent(k, id) => ReleaseSent(r, k, id)
  }

  /** What a router becomes by any interleaving of steps. */
  function Continue(r: Router, steps: seq<Step>, max: nat): Router {
    if steps == [] then r else Do(Continue(r, steps[..|steps| - 1], max), steps[|steps| - 1], max)
  }

  function After(steps: seq<Step>, max: nat): Router {
    Continue(EMPTY_ROUTER, steps, max)
  }

  lemma {:induction false} ContinueOn(r: Router, first: seq<Step>, second: seq<Step>, max: nat)
    ensures Continue(r, first + second, max) == Continue(Continue(r, first, max), second, max)
  {
    hide Do;
    if second == [] {
      assert first + second == first;
    } else {
      var shorter := second[..|second| - 1];
      assert (first + second)[..|first + second| - 1] == first + shorter;
      ContinueOn(r, first, shorter, max);
    }
  }

  lemma ContinueOne(r: Router, step: Step, max: nat)
    ensures Continue(r, [step], max) == Do(r, step, max)
  {
    hide Do;
    assert [step][..0] == [];
  }

  lemma StaysRefl(promises: map<PromiseId, Promise>)
    ensures SettledStay(promises, promises)
  {
  }

  lemma StaysOn(a: map<PromiseId, Promise>, b: map<PromiseId, Promise>, c: map<PromiseId, Promise>)
    requires SettledStay(a, b) && SettledStay(b, c)
    ensures SettledStay(a, c)
  {
  }

  lemma PrepareValid(r: Router, sandbox: SandboxId, command: Command, p: PromiseId, max: nat)
    requires Valid(r, max) && p !in r.promises && Prepare(r, sandbox, command, max, p).Ok?
    ensures var r' := Prepare(r, sandbox, command, max, p).value; Valid(r', max) && SettledStay(r.promises, r'.promises)
  {
    var k := PrepareCheck(r, sandbox, command, max).value;
    hide Valid, SettledStay;
    BeginAckValid(r, k, command, p, max);
  }

  lemma CommitValid(r: Router, sandbox: SandboxId, command: Command, ack: Ack, commit: Disposition, p: PromiseId,
                    max: nat)
    requires Valid(r, max) && p !in r.promises && Commit(r, sandbox, command, ack, commit, p).Ok?
    ensures var r' := Commit(r, sandbox, command, ack, commit, p).value; Valid(r', max) && SettledStay(r.promises, r'.promises)
  {
    var k := CommitCheck(r, sandbox, command, ack, commit).value;
    hide Valid, SettledStay, Disposes;
    BeginResultValid(r, k, PendingResult(command, ack, commit, p), max);
  }

  lemma GiveUpAckValid(r: Router, k: ConnectionId, id: CommandId, p: PromiseId, code: Code, max: nat)
    requires Valid(r, max)
    ensures var r' := GiveUpAck(r, k, id, p, code); Valid(r', max) && SettledStay(r.promises, r'.promises)
  {
    hide Valid, SettledStay, Settle;
    StaysRefl(r.promises);
    if AckPending(r, k, id, p) {
      EndAckValid(r, k, id, r.connections[k].prepared, Rejected(ChannelError(code, true, false)), max);
    }
  }

  lemma GiveUpResultValid(r: Router, k: ConnectionId, id: CommandId, p: PromiseId, code: Code, max: nat)
    requires Valid(r, max)
    ensures var r' := GiveUpResult(r, k, id, p, code); Valid(r', max) && SettledStay(r.promises, r'.promises)
  {
    hide Valid, SettledStay, Settle;
    StaysRefl(r.promises);
    if ResultPending(r, k, id, p) {
      EndResultValid(r, k, id, Rejected(ChannelError(code, false, true)), max);
    }
  }

  lemma ReceiveAckValid(r: Router, k: ConnectionId, ack: Ack, max: nat)
    requires Valid(r, max) && ReceiveAck(r, k, ack).Ok?
    ensures var r' := ReceiveAck(r, k, ack).value; Valid(r', max) && SettledStay(r.promises, r'.promises)
  {
    hide Valid, SettledStay, Settle;
    var id := ack.identity.command;
    var c := r.connections[k];
    var prepared := if ack.rejected then c.prepared else c.prepared[id := Prepared(c.acks[id].command, ack)];
    EndAckValid(r, k, id, prepared, Acked(ack), max);
  }

  lemma ReceiveResultValid(r: Router, k: ConnectionId, result: CommandResult, max: nat)
    requires Valid(r, max) && ReceiveResult(r, k, result).Ok?
    ensures var r' := ReceiveResult(r, k, result).value; Valid(r', max) && SettledStay(r.promises, r'.promises)
  {
    hide Valid, SettledStay, Settle;
    EndResultValid(r, k, result.identity.command, Resulted(result), max);
  }

  lemma DoValid(r: Router, step: Step, max: nat)
    requires Valid(r, max)
    ensures Valid(Do(r, step, max), max) && SettledStay(r.promises, Do(r, step, max).promises)
  {
    hide Valid, SettledStay, Attach, DetachState, Prepare, GiveUpAck, ReceiveAck, Commit, GiveUpResult,
      ReceiveResult, ReleaseSent;
    StaysRefl(r.promises);
    match step
    case AttachStep(k, sandbox, steers, twoPhase) =>
      if Attach(r, k, sandbox, steers, twoPhase).Ok? { AttachValid(r, k, sandbox, steers, twoPhase, max); }
    case DetachStep(k) => if k in r.connections { DetachValid(r, k, Closed, max); }
    case PrepareStep(sandbox, command, p) =>
      if p !in r.promises && Prepare(r, sandbox, command, max, p).Ok? { PrepareValid(r, sandbox, command, p, max); }
    case PrepareSendFails(k, id, p) => GiveUpAckValid(r, k, id, p, SendFailed, max);
    case AckTimesOut(k, id, p) => GiveUpAckValid(r, k, id, p, AckTimeout, max);
    case AckArrives(k, ack) => if ReceiveAck(r, k, ack).Ok? { ReceiveAckValid(r, k, ack, max); }
    case CommitStep(sandbox, command, ack, commit, p) =>
      if p !in r.promises && Commit(r, sandbox, command, ack, commit, p).Ok? { CommitValid(r, sandbox, command, ack, commit, p, max); }
    case CommitSendFails(k, id, p) => GiveUpResultValid(r, k, id, p, CommitSendFailed, max);
    case ResultTimesOut(k, id, p) => GiveUpResultValid(r, k, id, p, ResultTimeout, max);
    case ResultArrives(k, result) => if ReceiveResult(r, k, result).Ok? { ReceiveResultValid(r, k, result, max); }
    case ReleaseWasSent(k, id) => ReleaseSentValid(r, k, id, max);
  }

  lemma {:induction false} ContinueValid(r: Router, steps: seq<Step>, max: nat)
    requires Valid(r, max)
    ensures Valid(Continue(r, steps, max), max) && SettledStay(r.promises, Continue(r, steps, max).promises)
  {
    hide Valid, Do, SettledStay;
    if steps == [] {
      StaysRefl(r.promises);
    } else {
      var before := Continue(r, steps[..|steps| - 1], max);
      ContinueValid(r, steps[..|steps| - 1], max);
      DoValid(before, steps[|steps| - 1], max);
      StaysOn(r.promises, before.promises, Continue(r, steps, max).promises);
    }
  }

  lemma RunValid(steps: seq<Step>, max: nat)
    ensures Valid(After(steps, max), max)
  {
    EmptyValid(max);
    hide Valid, SettledStay;
    ContinueValid(EMPTY_ROUTER, steps, max);
  }

  /** No promise is forgotten or settled twice, whatever happens after the first `n` steps. */
  lemma SettledOnce(steps: seq<Step>, n: nat, max: nat)
    requires n <= |steps|
    ensures SettledStay(After(steps[..n], max).promises, After(steps, max).promises)
  {
    hide Valid, Continue, SettledStay;
    assert steps == steps[..n] + steps[n..];
    RunValid(steps[..n], max);
    ContinueOn(EMPTY_ROUTER, steps[..n], steps[n..], max);
    ContinueValid(After(steps[..n], max), steps[n..], max);
  }

  /**
   In every reachable state: a command is in at most one map of a connection, a connection holds at
   most `max` exchanges, and a detached one holds none.
   */
  lemma ConnectionsBounded(steps: seq<Step>, max: nat, k: ConnectionId, id: CommandId)
    requires k in After(steps, max).connections
    ensures var c := After(steps, max).connections[k];
            && !(id in c.acks && id in c.prepared) && !(id in c.acks && id in c.results) && !(id in c.prepared && id in c.results)
            && PendingCount(c) <= max
            && (c.detached ==> PendingCount(c) == 0)
  {
    RunValid(steps, max);
    hide Continue, Indexed, PromisesExact, EntriesPromised, OutcomesHonest;
    assert ConnectionOk(After(steps, max).connections[k], max);
  }

  /**
   In every reachable state a promise is unsettled exactly while its own entry is pending, so never
   on a detached connection.
   */
  lemma UnsettledIffPending(steps: seq<Step>, max: nat, p: PromiseId)
    requires p in After(steps, max).promises
    ensures var r := After(steps, max);
            var promise := r.promises[p];
            && promise.connection in r.connections
            && (promise.outcome.Waiting? <==> PendsOn(r.connections[promise.connection], promise.connection, p, promise))
            && (r.connections[promise.connection].detached ==> !promise.outcome.Waiting?)
  {
    RunValid(steps, max);
    hide Continue, Indexed, EntriesPromised, OutcomesHonest;
    assert ConnectionOk(After(steps, max).connections[After(steps, max).promises[p].connection], max);
  }

  /**
   Every rejection says the truth about the worker: a commit's is final and ambiguous, a prepare's
   retryable and unambiguous.
   */
  lemma RejectionsHonest(steps: seq<Step>, max: nat, p: PromiseId)
    requires p in After(steps, max).promises && After(steps, max).promises[p].outcome.Rejected?
    ensures var promise := After(steps, max).promises[p];
            if promise.commits then !promise.outcome.error.retryable && promise.outcome.error.ambiguous
            else promise.outcome.error.retryable && !promise.outcome.error.ambiguous
  {
    RunValid(steps, max);
    hide Continue, Indexed, PromisesExact, EntriesPromised, AllOk;
    assert HonestOutcome(After(steps, max).promises[p]);
  }

  // ------------------------------------------------------------------ who settles, who prepares

  /** Promise `p` of connection `k` holds `outcome`. */
  predicate Holds(promises: map<PromiseId, Promise>, p: PromiseId, k: ConnectionId, outcome: Outcome) {
    p in promises && promises[p].connection == k && promises[p].outcome == outcome
  }

  lemma AttachSettles(r: Router, k: ConnectionId, sandbox: SandboxId, steers: bool, twoPhase: bool, p: PromiseId,
                      outcome: Outcome, on: ConnectionId)
    requires outcome.Acked? || outcome.Resulted?
    requires Attach(r, k, sandbox, steers, twoPhase).Ok?
    requires Holds(Attach(r, k, sandbox, steers, twoPhase).value.promises, p, on, outcome)
    ensures Holds(r.promises, p, on, outcome)
  {
    hide PendsOn, DetachError;
  }

  lemma EntryConnection(r: Router, k: ConnectionId, id: CommandId, max: nat)
    requires Valid(r, max) && k in r.connections
    ensures id in r.connections[k].acks ==> AckPromised(r.promises, k, id, r.connections[k].acks[id])
    ensures id in r.connections[k].results ==> ResultPromised(r.promises, k, id, r.connections[k].results[id])
  {
    hide AllOk, Indexed, PromisesExact, OutcomesHonest, AckPromised, ResultPromised;
  }

  lemma AckSettles(r: Router, on: ConnectionId, arriving: Ack, max: nat, p: PromiseId, k: ConnectionId, ack: Ack)
    requires Valid(r, max) && ReceiveAck(r, on, arriving).Ok? && !Holds(r.promises, p, k, Acked(ack))
    requires Holds(ReceiveAck(r, on, arriving).value.promises, p, k, Acked(ack))
    ensures on == k && arriving == ack
  {
    hide Valid;
    EntryConnection(r, on, arriving.identity.command, max);
  }

  lemma ResultSettles(r: Router, on: ConnectionId, arriving: CommandResult, max: nat, p: PromiseId, k: ConnectionId,
                      result: CommandResult)
    requires Valid(r, max) && ReceiveResult(r, on, arriving).Ok? && !Holds(r.promises, p, k, Resulted(result))
    requires Holds(ReceiveResult(r, on, arriving).value.promises, p, k, Resulted(result))
    ensures on == k && arriving == result
  {
    hide Valid, Answers;
    EntryConnection(r, on, arriving.identity.command, max);
  }

  /** Only an acknowledgement arriving on its connection settles a promise with that acknowledgement. */
  lemma DoAcknowledges(r: Router, step: Step, max: nat, p: PromiseId, k: ConnectionId, ack: Ack)
    requires Valid(r, max) && Holds(Do(r, step, max).promises, p, k, Acked(ack)) && !Holds(r.promises, p, k, Acked(ack))
    ensures step == AckArrives(k, ack)
  {
    hide Valid, PendsOn, Attach, Live, Disposes, PrepareCheck, CommitCheck, ReceiveAck;
    match step
    case AttachStep(on, sandbox, steers, twoPhase) =>
      if Attach(r, on, sandbox, steers, twoPhase).Ok? { AttachSettles(r, on, sandbox, steers, twoPhase, p, Acked(ack), k); }
    case AckArrives(on, a) => if ReceiveAck(r, on, a).Ok? { AckSettles(r, on, a, max, p, k, ack); }
    case _ =>
  }

  /** Only a result arriving on its connection settles a promise with that result. */
  lemma DoResults(r: Router, step: Step, max: nat, p: PromiseId, k: ConnectionId, result: CommandResult)
    requires Valid(r, max) && Holds(Do(r, step, max).promises, p, k, Resulted(result))
    requires !Holds(r.promises, p, k, Resulted(result))
    ensures step == ResultArrives(k, result)
  {
    hide Valid, PendsOn, Attach, Live, Disposes, PrepareCheck, CommitCheck, ReceiveResult;
    match step
    case AttachStep(on, sandbox, steers, twoPhase) =>
      if Attach(r, on, sandbox, steers, twoPhase).Ok? { AttachSettles(r, on, sandbox, steers, twoPhase, p, Resulted(result), k); }
    case ResultArrives(on, a) => if ReceiveResult(r, on, a).Ok? { ResultSettles(r, on, a, max, p, k, result); }
    case _ =>
  }

  lemma {:induction false} AcknowledgedByWorker(r: Router, steps: seq<Step>, max: nat, p: PromiseId, k: ConnectionId,
                                                ack: Ack)
    requires Valid(r, max) && Holds(Continue(r, steps, max).promises, p, k, Acked(ack))
    requires !Holds(r.promises, p, k, Acked(ack))
    ensures AckArrives(k, ack) in steps
  {
    hide Valid, Do, SettledStay, Holds;
    if steps != [] {
      var before := steps[..|steps| - 1];
      ContinueValid(r, before, max);
      if Holds(Continue(r, before, max).promises, p, k, Acked(ack)) {
        AcknowledgedByWorker(r, before, max, p, k, ack);
      } else {
        DoAcknowledges(Continue(r, before, max), steps[|steps| - 1], max, p, k, ack);
      }
    }
  }

  lemma {:induction false} ResultedByWorker(r: Router, steps: seq<Step>, max: nat, p: PromiseId, k: ConnectionId,
                                            result: CommandResult)
    requires Valid(r, max) && Holds(Continue(r, steps, max).promises, p, k, Resulted(result))
    requires !Holds(r.promises, p, k, Resulted(result))
    ensures ResultArrives(k, result) in steps
  {
    hide Valid, Do, SettledStay, Holds;
    if steps != [] {
      var before := steps[..|steps| - 1];
      ContinueValid(r, before, max);
      if Holds(Continue(r, before, max).promises, p, k, Resulted(result)) {
        ResultedByWorker(r, before, max, p, k, result);
      } else {
        DoResults(Continue(r, before, max), steps[|steps| - 1], max, p, k, result);
      }
    }
  }

  /**
   Over every run: an acknowledgement or a result a caller is given arrived from the worker on the
   promise's own connection, and is about the very command, and the very commit, of that promise.
   */
  lemma AnswersAreTheWorkers(steps: seq<Step>, max: nat, p: PromiseId)
    requires p in After(steps, max).promises
    ensures var promise := After(steps, max).promises[p];
            match promise.outcome
            case Acked(ack) => AckArrives(promise.connection, ack) in steps && ack.identity == promise.sent.identity && !promise.commits
            case Resulted(result) =>
              && ResultArrives(promise.connection, result) in steps && result.steer
              && result.identity == promise.sent.identity && promise.commit == Some(result.commit)
            case _ => true
  {
    var promise := After(steps, max).promises[p];
    RunValid(steps, max);
    EmptyValid(max);
    PromiseHonest(After(steps, max), p, max);
    hide Valid, Continue;
    match promise.outcome
    case Acked(ack) => AcknowledgedByWorker(EMPTY_ROUTER, steps, max, p, promise.connection, ack);
    case Resulted(result) => ResultedByWorker(EMPTY_ROUTER, steps, max, p, promise.connection, result);
    case _ =>
  }

  lemma PromiseHonest(r: Router, p: PromiseId, max: nat)
    requires Valid(r, max) && p in r.promises
    ensures HonestOutcome(r.promises[p])
  {
    hide AllOk, Indexed, PromisesExact, EntriesPromised, HonestOutcome;
  }

  predicate PreparedOn(r: Router, k: ConnectionId, id: CommandId) {
    k in r.connections && id in r.connections[k].prepared
  }

  /** The worker accepts command `id` on connection `k`. */
  predicate Accepts(step: Step, k: ConnectionId, id: CommandId) {
    step.AckArrives? && step.connection == k && step.ack.identity.command == id && !step.ack.rejected
  }

  lemma PreparedByAcceptance(r: Router, step: Step, max: nat, k: ConnectionId, id: CommandId)
    requires PreparedOn(Do(r, step, max), k, id) && !PreparedOn(r, k, id)
    ensures Accepts(step, k, id)
  {
    hide PendsOn, RejectPending, Settle, Disposes, PrepareCheck, CommitCheck;
  }

  lemma {:induction false} StaysUnprepared(r: Router, steps: seq<Step>, max: nat, k: ConnectionId, id: CommandId)
    requires !PreparedOn(r, k, id)
    requires forall step :: step in steps ==> !Accepts(step, k, id)
    ensures !PreparedOn(Continue(r, steps, max), k, id)
  {
    hide Do, PreparedOn, Accepts;
    if steps != [] {
      var before := steps[..|steps| - 1];
      StaysUnprepared(r, before, max, k, id);
      if PreparedOn(Continue(r, steps, max), k, id) {
        PreparedByAcceptance(Continue(r, before, max), steps[|steps| - 1], max, k, id);
      }
    }
  }

  /**
   Once a release has been sent on a connection, the command cannot be committed there, nor released
   again, however the run goes on, until the worker accepts it there anew.
   */
  lemma ReleasedCannotCommit(r: Router, k: ConnectionId, steps: seq<Step>, max: nat, sandbox: SandboxId,
                             command: Command, ack: Ack, d: Disposition)
    requires forall step :: step in steps ==> !Accepts(step, k, command.identity.command)
    ensures var r' := Continue(ReleaseSent(r, k, command.identity.command), steps, max);
            sandbox in r'.bySandbox && r'.bySandbox[sandbox] == k ==>
              CommitCheck(r', sandbox, command, ack, d).Err? && ReleaseCheck(r', sandbox, command, ack, d).Err?
  {
    hide Do, Disposes, Accepts;
    StaysUnprepared(ReleaseSent(r, k, command.identity.command), steps, max, k, command.identity.command);
    hide Continue, ReleaseSent;
  }
}
