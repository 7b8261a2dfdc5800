/**
 The two-phase worker control channel: every exchange on every connection, with its promises,
 under any interleaving of sends, acknowledgements, results, timeouts, detaches and supersession.
 */
module ControlChannel {
  import opened Common

  type SandboxId = nat
  type ConnectionId = nat
  type CommandId = nat
  type MessageId = nat
  type PromiseId = nat

  /** What must agree between a command and everything said about it. */
  datatype Identity = Identity(command: CommandId, session: nat, turn: nat, lease: nat, token: nat)

  datatype Command = Command(message: MessageId, identity: Identity)

  datatype Ack = Ack(message: MessageId, identity: Identity, rejected: bool, retryable: bool)

  /** A commit or a release: what becomes of an acknowledged command. */
  datatype Disposition = Disposition(message: MessageId, identity: Identity, acknowledged: MessageId)

  datatype ResultStatus = Completed | Failed | OtherStatus

  datatype CommandResult = CommandResult(identity: Identity, commit: MessageId, steer: bool, status: ResultStatus, retryable: bool)

  datatype Code =
    | AlreadyAttached
    | Superseded
    | Closed
    | StaleConnection
    | CapabilityMissing
    | ConnectionUnavailable
    | ExchangeConflict
    | AtCapacity
    | AckTimeout
    | SendFailed
    | InvalidAck
    | CommitMismatch
    | ResultTimeout
    | CommitSendFailed
    | ReleaseMismatch
    | UnexpectedAck
    | AckMismatch
    | UnexpectedResult
    | ResultMismatch

  datatype ChannelError = ChannelError(code: Code, retryable: bool, ambiguous: bool)

  datatype PendingAck = PendingAck(command: Command, promise: PromiseId)

  datatype Prepared = Prepared(command: Command, ack: Ack)

  datatype PendingResult = PendingResult(command: Command, ack: Ack, commit: Disposition, promise: PromiseId)

  datatype Connection = Connection(
    sandbox: SandboxId,
    steers: bool,
    twoPhase: bool,
    acks: map<CommandId, PendingAck>,
    prepared: map<CommandId, Prepared>,
    results: map<CommandId, PendingResult>,
    detached: bool)

  datatype Outcome = Waiting | Acked(ack: Ack) | Resulted(result: CommandResult) | Rejected(error: ChannelError)

  /**
   A promise handed to a caller of prepare or of commit, and the exchange it waits on: the command
   that was sent and, for a commit, the commit's message.
   */
  datatype Promise = Promise(connection: ConnectionId, sent: Command, commit: Option<MessageId>, outcome: Outcome) {
    const command: CommandId := sent.identity.command
    const commits: bool := commit.Some?
  }

  datatype Router = Router(
    bySandbox: map<SandboxId, ConnectionId>,
    connections: map<ConnectionId, Connection>,
    promises: map<PromiseId, Promise>)

  const EMPTY_ROUTER := Router(map[], map[], map[])

  function PendingCount(c: Connection): nat {
    |c.acks| + |c.prepared| + |c.results|
  }

  // ------------------------------------------------------------------ promises

  /** Settling a promise that is still waiting; a settled one keeps its outcome. */
  function Settle(promises: map<PromiseId, Promise>, p: PromiseId, outcome: Outcome): map<PromiseId, Promise> {
    if p in promises && promises[p].outcome.Waiting? then promises[p := promises[p].(outcome := outcome)] else promises
  }

  /** The promise of a pending acknowledgement or result of connection `k`. */
  predicate PendsOn(c: Connection, k: ConnectionId, p: PromiseId, promise: Promise) {
    && promise.connection == k
    && if promise.commits then promise.command in c.results && c.results[promise.command].promise == p
       else promise.command in c.acks && c.acks[promise.command].promise == p
  }

  // ------------------------------------------------------------------ attach and detach

  /**
   What a detach rejects a pending exchange with: a commit may have reached the worker, an
   unacknowledged command may be sent again.
   */
  function DetachError(code: Code, commits: bool): ChannelError {
    if commits then ChannelError(code, false, true) else ChannelError(code, true, false)
  }

  function RejectPending(promises: map<PromiseId, Promise>, c: Connection, k: ConnectionId, code: Code)
    : map<PromiseId, Promise>
  {
    map p | p in promises ::
      if PendsOn(c, k, p, promises[p]) && promises[p].outcome.Waiting?
      then promises[p].(outcome := Rejected(DetachError(code, promises[p].commits))) else promises[p]
  }

  function Emptied(c: Connection): Connection {
    c.(acks := map[], prepared := map[], results := map[], detached := true)
  }

  function DetachState(r: Router, k: ConnectionId, code: Code): Router
    requires k in r.connections
  {
    var c := r.connections[k];
    if c.detached then r
    else Router(
      if c.sandbox in r.bySandbox && r.bySandbox[c.sandbox] == k then r.bySandbox - {c.sandbox} else r.bySandbox,
      r.connections[k := Emptied(c)],
      RejectPending(r.promises, c, k, code))
  }

  function Attach(r: Router, k: ConnectionId, sandbox: SandboxId, steers: bool, twoPhase: bool)
    : Result<Router, ChannelError>
  {
    if k in r.connections then Err(ChannelError(AlreadyAttached, false, false))
    else
      var prior := if sandbox in r.bySandbox && r.bySandbox[sandbox] in r.connections
                   then DetachState(r, r.bySandbox[sandbox], Superseded) else r;
      Ok(prior.(bySandbox := prior.bySandbox[sandbox := k],
                connections := prior.connections[k := Connection(sandbox, steers, twoPhase, map[], map[], map[], false)]))
  }

  function Detach(r: Router, k: ConnectionId): Router {
    if k in r.connections then DetachState(r, k, Closed) else r
  }

  // ------------------------------------------------------------------ prepare

  function CurrentConnection(r: Router, sandbox: SandboxId, ambiguous: bool): Result<ConnectionId, ChannelError> {
    if sandbox !in r.bySandbox || r.bySandbox[sandbox] !in r.connections || r.connections[r.bySandbox[sandbox]].detached
    then Err(ChannelError(ConnectionUnavailable, !ambiguous, ambiguous))
    else if !r.connections[r.bySandbox[sandbox]].twoPhase then Err(ChannelError(CapabilityMissing, false, ambiguous))
    else Ok(r.bySandbox[sandbox])
  }

  function PrepareCheck(r: Router, sandbox: SandboxId, command: Command, max: nat): Result<ConnectionId, ChannelError> {
    match CurrentConnection(r, sandbox, false)
    case Err(e) => Err(e)
    case Ok(k) =>
      if k !in r.connections then Err(ChannelError(ConnectionUnavailable, true, false))
      else
        var c := r.connections[k];
        var id := command.identity.command;
        if !c.steers then Err(ChannelError(CapabilityMissing, false, false))
        else if id in c.acks || id in c.prepared || id in c.results then Err(ChannelError(ExchangeConflict, false, false))
        else if PendingCount(c) >= max then Err(ChannelError(AtCapacity, true, false))
        else Ok(k)
  }

  /** The synchronous part of prepare: checks, then a promise pending on the acknowledgement. */
  function Prepare(r: Router, sandbox: SandboxId, command: Command, max: nat, p: PromiseId)
    : Result<Router, ChannelError>
  {
    match PrepareCheck(r, sandbox, command, max)
    case Err(e) => Err(e)
    case Ok(k) =>
      if k !in r.connections then Err(ChannelError(ConnectionUnavailable, true, false))
      else
        var id := command.identity.command;
        Ok(r.(connections := r.connections[k := r.connections[k].(acks := r.connections[k].acks[id := PendingAck(command, p)])],
              promises := r.promises[p := Promise(k, command, None, Waiting)]))
  }

  predicate AckPending(r: Router, k: ConnectionId, id: CommandId, p: PromiseId) {
    k in r.connections && id in r.connections[k].acks && r.connections[k].acks[id].promise == p
  }

  /** The failed send or the timeout of one particular prepare: it acts only while its own entry is pending. */
  function GiveUpAck(r: Router, k: ConnectionId, id: CommandId, p: PromiseId, code: Code): Router {
    if AckPending(r, k, id, p)
    then r.(connections := r.connections[k := r.connections[k].(acks := r.connections[k].acks - {id})],
            promises := Settle(r.promises, p, Rejected(ChannelError(code, true, false))))
    else r
  }

  // ------------------------------------------------------------------ messages from the worker

  predicate Live(r: Router, k: ConnectionId) {
    && k in r.connections && !r.connections[k].detached
    && r.connections[k].sandbox in r.bySandbox && r.bySandbox[r.connections[k].sandbox] == k
  }

  function ReceiveAck(r: Router, k: ConnectionId, ack: Ack): Result<Router, ChannelError> {
    var id := ack.identity.command;
    if !Live(r, k) then Err(ChannelError(StaleConnection, false, true))
    else if id !in r.connections[k].acks then Err(ChannelError(UnexpectedAck, false, false))
    else if r.connections[k].acks[id].command.identity != ack.identity then Err(ChannelError(AckMismatch, false, false))
    else
      var c := r.connections[k];
      var pending := c.acks[id];
      var c' := c.(acks := c.acks - {id},
                   prepared := if ack.rejected then c.prepared else c.prepared[id := Prepared(pending.command, ack)]);
      Ok(r.(connections := r.connections[k := c'], promises := Settle(r.promises, pending.promise, Acked(ack))))
  }

  predicate Answers(pending: PendingResult, result: CommandResult) {
    pending.command.identity == result.identity && result.commit == pending.commit.message && result.steer
  }

  function ReceiveResult(r: Router, k: ConnectionId, result: CommandResult): Result<Router, ChannelError> {
    var id := result.identity.command;
    if !Live(r, k) then Err(ChannelError(StaleConnection, false, true))
    else if id !in r.connections[k].results then Err(ChannelError(UnexpectedResult, false, true))
    else if !Answers(r.connections[k].results[id], result) then Err(ChannelError(ResultMismatch, false, true))
    else
      var c := r.connections[k];
      Ok(r.(connections := r.connections[k := c.(results := c.results - {id})],
            promises := Settle(r.promises, c.results[id].promise, Resulted(result))))
  }

  // ------------------------------------------------------------------ commit and release

  predicate Disposes(prepared: Prepared, command: Command, ack: Ack, d: Disposition) {
    && prepared.command.message == command.message
    && prepared.ack.message == ack.message
    && command.identity == ack.identity && command.identity == d.identity
    && d.acknowledged == ack.message
  }

  function CommitCheck(r: Router, sandbox: SandboxId, command: Command, ack: Ack, commit: Disposition)
    : Result<ConnectionId, ChannelError>
  {
    var id := command.identity.command;
    if ack.rejected then Err(ChannelError(InvalidAck, false, false))
    else
      match CurrentConnection(r, sandbox, true)
      case Err(e) => Err(e)
      case Ok(k) =>
        if k !in r.connections || id !in r.connections[k].prepared || !Disposes(r.connections[k].prepared[id], command, ack, commit)
        then Err(ChannelError(CommitMismatch, false, true))
        else if id in r.connections[k].results then Err(ChannelError(ExchangeConflict, false, true))
        else Ok(k)
  }

  /** The synchronous part of commit: the prepared command becomes a pending result. */
  function Commit(r: Router, sandbox: SandboxId, command: Command, ack: Ack, commit: Disposition, p: PromiseId)
    : Result<Router, ChannelError>
  {
    match CommitCheck(r, sandbox, command, ack, commit)
    case Err(e) => Err(e)
    case Ok(k) =>
      if k !in r.connections then Err(ChannelError(CommitMismatch, false, true))
      else
        var id := command.identity.command;
        var c := r.connections[k];
        Ok(r.(connections := r.connections[k := c.(prepared := c.prepared - {id},
                                                   results := c.results[id := PendingResult(command, ack, commit, p)])],
              promises := r.promises[p := Promise(k, command, Some(commit.message), Waiting)]))
  }

  predicate ResultPending(r: Router, k: ConnectionId, id: CommandId, p: PromiseId) {
    k in r.connections && id in r.connections[k].results && r.connections[k].results[id].promise == p
  }

  /** The failed send or the timeout of one particular commit. */
  function GiveUpResult(r: Router, k: ConnectionId, id: CommandId, p: PromiseId, code: Code): Router {
    if ResultPending(r, k, id, p)
    then r.(connections := r.connections[k := r.connections[k].(results := r.connections[k].results - {id})],
            promises := Settle(r.promises, p, Rejected(ChannelError(code, false, true))))
    else r
  }

  /** The checks of release; the entry stays prepared while the release is being sent. */
  function ReleaseCheck(r: Router, sandbox: SandboxId, command: Command, ack: Ack, release: Disposition)
    : Result<ConnectionId, ChannelError>
  {
    var id := command.identity.command;
    if ack.rejected then Err(ChannelError(InvalidAck, false, false))
    else
      match CurrentConnection(r, sandbox, false)
      case Err(e) => Err(e)
      case Ok(k) =>
        if k !in r.connections || id !in r.connections[k].prepared || !Disposes(r.connections[k].prepared[id], command, ack, release)
        then Err(ChannelError(ReleaseMismatch, false, false))
        else Ok(k)
  }

  /** Once the release has been sent, whatever is prepared under the command is forgotten. */
  function ReleaseSent(r: Router, k: ConnectionId, id: CommandId): Router {
    if k in r.connections
    then r.(connections := r.connections[k := r.connections[k].(prepared := r.connections[k].prepared - {id})])
    else r
  }

  // ------------------------------------------------------------------ the invariant

  /**
   A command is in at most one of the three maps, entries are filed under their own command, and a
   detached connection is empty.
   */
  ghost predicate ConnectionOk(c: Connection, max: nat) {
    && c.acks.Keys !! c.prepared.Keys && c.acks.Keys !! c.results.Keys && c.prepared.Keys !! c.results.Keys
    && PendingCount(c) <= max
    && (c.detached ==> c.acks == map[] && c.prepared == map[] && c.results == map[])
  }

  ghost predicate AllOk(connections: map<ConnectionId, Connection>, max: nat) {
    forall k :: k in connections ==> ConnectionOk(connections[k], max)
  }

  /** The sandbox index holds exactly the connections that are not detached. */
  ghost predicate Indexed(r: Router) {
    && (forall s :: s in r.bySandbox ==>
          r.bySandbox[s] in r.connections && !r.connections[r.bySandbox[s]].detached && r.connections[r.bySandbox[s]].sandbox == s)
    && (forall k :: k in r.connections && !r.connections[k].detached ==>
          r.connections[k].sandbox in r.bySandbox && r.bySandbox[r.connections[k].sandbox] == k)
  }

  /** A promise is unsettled exactly while its exchange is still pending under it. */
  ghost predicate PromisesExact(r: Router) {
    forall p :: p in r.promises ==>
      && r.promises[p].connection in r.connections
      && (r.promises[p].outcome.Waiting? <==>
            PendsOn(r.connections[r.promises[p].connection], r.promises[p].connection, p, r.promises[p]))
  }

  /** A pending acknowledgement is filed under its own command and has the promise of that command. */
  predicate AckPromised(promises: map<PromiseId, Promise>, k: ConnectionId, id: CommandId, pending: PendingAck) {
    && pending.command.identity.command == id && pending.promise in promises
    && promises[pending.promise].connection == k && promises[pending.promise].sent == pending.command
    && promises[pending.promise].commit == None
  }

  /** And so has a pending result, with its commit. */
  predicate ResultPromised(promises: map<PromiseId, Promise>, k: ConnectionId, id: CommandId, pending: PendingResult) {
    && pending.command.identity.command == id && pending.promise in promises
    && promises[pending.promise].connection == k && promises[pending.promise].sent == pending.command
    && promises[pending.promise].commit == Some(pending.commit.message)
  }

  /** Every pending entry has the promise its caller is waiting on. */
  ghost predicate EntriesPromised(r: Router) {
    && (forall k, id :: k in r.connections && id in r.connections[k].acks ==>
          AckPromised(r.promises, k, id, r.connections[k].acks[id]))
    && (forall k, id :: k in r.connections && id in r.connections[k].results ==>
          ResultPromised(r.promises, k, id, r.connections[k].results[id]))
  }

  predicate HonestOutcome(promise: Promise) {
    match promise.outcome
    case Rejected(e) => if promise.commits then !e.retryable && e.ambiguous else e.retryable && !e.ambiguous
    case Acked(ack) => !promise.commits && ack.identity == promise.sent.identity
    case Resulted(result) =>
      promise.commit == Some(result.commit) && result.identity == promise.sent.identity && result.steer
    case Waiting => true
  }

  /**
   A rejected commit is never retryable and always ambiguous; a rejected prepare is always retryable and never ambiguous;
   an acknowledgement or a result is about the very command and commit that were sent.
   */
  ghost predicate OutcomesHonest(promises: map<PromiseId, Promise>) {
    forall p :: p in promises ==> HonestOutcome(promises[p])
  }

  ghost predicate Valid(r: Router, max: nat) {
    AllOk(r.connections, max) && Indexed(r) && PromisesExact(r) && EntriesPromised(r) && OutcomesHonest(r.promises)
  }

  /** No promise is lost, and a settled one keeps its outcome and exchange. */
  ghost predicate SettledStay(before: map<PromiseId, Promise>, after: map<PromiseId, Promise>) {
    forall p :: p in before ==>
      && p in after
      && after[p].connection == before[p].connection && after[p].sent == before[p].sent && after[p].commit == before[p].commit
      && (!before[p].outcome.Waiting? ==> after[p] == before[p])
  }

  lemma EmptyValid(max: nat)
    ensures Valid(EMPTY_ROUTER, max)
  {
  }
}
