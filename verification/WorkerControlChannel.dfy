/**
 The router of the worker control channel over its maps, one method per synchronous stretch of
 its code. Each is proved to be the channel step of the same name.
 */
module WorkerControlChannel {
  import opened Common
  import opened ControlChannel
  import R = ControlChannelRuns

  /** The pending exchanges of `acks` and `results` rejected, the others still waiting. */
  function RejectSome(promises: map<PromiseId, Promise>, c: Connection, k: ConnectionId, code: Code,
                      acks: set<CommandId>, results: set<CommandId>): map<PromiseId, Promise> {
    map p | p in promises ::
      if PendsOn(c, k, p, promises[p]) && promises[p].outcome.Waiting? &&
         (if promises[p].commits then promises[p].command in results else promises[p].command in acks)
      then promises[p].(outcome := Rejected(DetachError(code, promises[p].commits))) else promises[p]
  }

  class WorkerControlChannelRouter {
    var bySandbox: map<SandboxId, ConnectionId>
    var connections: map<ConnectionId, Connection>
    var promises: map<PromiseId, Promise>
    const maxPendingCommands: nat

    ghost function State(): Router
      reads this
    {
      Router(bySandbox, connections, promises)
    }

    function Snapshot(): (r: Router)
      reads this
      ensures r == State()
    {
      Router(bySandbox, connections, promises)
    }

    ghost predicate Valid()
      reads this
    {
      ControlChannel.Valid(State(), maxPendingCommands)
    }

    constructor (maxPendingCommands: nat)
      ensures Valid() && State() == EMPTY_ROUTER && this.maxPendingCommands == maxPendingCommands
    {
      this.maxPendingCommands := maxPendingCommands;
      bySandbox, connections, promises := map[], map[], map[];
      new;
      EmptyValid(maxPendingCommands);
    }

    // ---------------------------------------------------------------- attach and detach

    method Attach(k: ConnectionId, sandbox: SandboxId, steers: bool, twoPhase: bool)
      returns (r: Result<(), ChannelError>)
      requires Valid()
      modifies this
      ensures Valid()
      ensures State() == R.OrSame(old(State()), ControlChannel.Attach(old(State()), k, sandbox, steers, twoPhase))
      ensures r.Ok? <==> ControlChannel.Attach(old(State()), k, sandbox, steers, twoPhase).Ok?
      ensures SettledStay(old(promises), promises)
    {
      ghost var before := State();
      R.StaysRefl(before.promises);
      if ControlChannel.Attach(before, k, sandbox, steers, twoPhase).Ok? {
        R.AttachValid(before, k, sandbox, steers, twoPhase, maxPendingCommands);
      }
      if k in connections {
        return Err(ChannelError(AlreadyAttached, false, false));
      }
      if sandbox in bySandbox && bySandbox[sandbox] in connections {
        DetachState(bySandbox[sandbox], ControlChannel.Superseded);
      }
      hide ControlChannel.Valid, SettledStay, ControlChannel.DetachState;
      bySandbox := bySandbox[sandbox := k];
      connections := connections[k := Connection(sandbox, steers, twoPhase, map[], map[], map[], false)];
      return Ok(());
    }

    method Detach(k: ConnectionId)
      requires Valid()
      modifies this
      ensures Valid()
      ensures State() == ControlChannel.Detach(old(State()), k)
      ensures SettledStay(old(promises), promises)
    {
      R.StaysRefl(promises);
      if k !in connections || connections[k].detached {
        return;
      }
      R.DetachValid(State(), k, Closed, maxPendingCommands);
      hide ControlChannel.Valid, SettledStay, ControlChannel.DetachState;
      DetachState(k, Closed);
    }

    /** Close a connection: forget it, then reject everything that was waiting on it. */
    method DetachState(k: ConnectionId, code: Code)
      requires k in connections && EntriesPromised(State())
      modifies this
      ensures State() == ControlChannel.DetachState(old(State()), k, code)
    {
      var c := connections[k];
      if c.detached {
        return;
      }
      if c.sandbox in bySandbox && bySandbox[c.sandbox] == k {
        bySandbox := bySandbox - {c.sandbox};
      }
      BothPromised(State(), k);
      hide RejectSome, RejectPending, EntriesPromised, AcksPromised, EntriesKnown;
      ghost var before := promises;
      RejectAcknowledgements(k, c, code);
      RejectKeepsKnown(before, c, k, code);
      RejectResults(k, c, code);
      RejectBoth(before, c, k, code);
      connections := connections[k := c.(acks := map[], prepared := map[], results := map[], detached := true)];
    }

    method RejectAcknowledgements(k: ConnectionId, c: Connection, code: Code)
      requires AcksPromised(promises, c, k)
      modifies this`promises
      ensures promises == RejectSome(old(promises), c, k, code, c.acks.Keys, {})
    {
      hide RejectSome, Settle, AcksPromised;
      var remaining := c.acks.Keys;
      ghost var before := promises;
      RejectNone(before, c, k, code);
      assert c.acks.Keys - remaining == {};
      while remaining != {}
        invariant remaining <= c.acks.Keys
        invariant promises == RejectSome(before, c, k, code, c.acks.Keys - remaining, {})
        decreases remaining
      {
        var id :| id in remaining;
        RejectOneAck(before, c, k, code, c.acks.Keys - remaining, id);
        promises := Settle(promises, c.acks[id].promise, Rejected(DetachError(code, false)));
        assert c.acks.Keys - (remaining - {id}) == (c.acks.Keys - remaining) + {id};
        remaining := remaining - {id};
      }
      assert c.acks.Keys - {} == c.acks.Keys;
    }

    method RejectResults(k: ConnectionId, c: Connection, code: Code)
      requires EntriesKnown(promises, c, k)
      modifies this`promises
      ensures promises == RejectSome(old(promises), c, k, code, {}, c.results.Keys)
    {
      hide RejectSome, Settle, EntriesKnown;
      var remaining := c.results.Keys;
      ghost var before := promises;
      RejectNone(before, c, k, code);
      assert c.results.Keys - remaining == {};
      while remaining != {}
        invariant remaining <= c.results.Keys
        invariant promises == RejectSome(before, c, k, code, {}, c.results.Keys - remaining)
        decreases remaining
      {
        var id :| id in remaining;
        RejectOneResult(before, c, k, code, c.results.Keys - remaining, id);
        promises := Settle(promises, c.results[id].promise, Rejected(DetachError(code, true)));
        assert c.results.Keys - (remaining - {id}) == (c.results.Keys - remaining) + {id};
        remaining := remaining - {id};
      }
      assert c.results.Keys - {} == c.results.Keys;
    }

    // ---------------------------------------------------------------- prepare

    method CheckPrepare(sandbox: SandboxId, command: Command) returns (r: Result<ConnectionId, ChannelError>)
      ensures r == PrepareCheck(State(), sandbox, command, maxPendingCommands)
    {
      var current := CurrentConnection(Snapshot(), sandbox, false);
      if current.Err? {
        return current;
      }
      var c := connections[current.value];
      var id := command.identity.command;
      if !c.steers {
        return Err(ChannelError(CapabilityMissing, false, false));
      }
      if id in c.acks || id in c.prepared || id in c.results {
        return Err(ChannelError(ExchangeConflict, false, false));
      }
      if PendingCount(c) >= maxPendingCommands {
        return Err(ChannelError(AtCapacity, true, false));
      }
      return current;
    }

    /** Everything prepare does before it awaits the send; `p` is the promise it returns. */
    method Prepare(sandbox: SandboxId, command: Command, p: PromiseId) returns (r: Result<ConnectionId, ChannelError>)
      requires Valid() && p !in promises
      modifies this`connections, this`promises
      ensures Valid()
      ensures State() == R.OrSame(old(State()), ControlChannel.Prepare(old(State()), sandbox, command, maxPendingCommands, p))
      ensures r == PrepareCheck(old(State()), sandbox, command, maxPendingCommands)
      ensures r.Ok? ==> AckPending(State(), r.value, command.identity.command, p)
      ensures SettledStay(old(promises), promises)
    {
      hide ControlChannel.Valid, SettledStay, PrepareCheck;
      ghost var before := State();
      R.StaysRefl(promises);
      r := CheckPrepare(sandbox, command);
      if r.Err? {
        return;
      }
      CheckedPrepare(before, sandbox, command, maxPendingCommands);
      R.PrepareValid(before, sandbox, command, p, maxPendingCommands);
      var k := r.value;
      var c := connections[k];
      var id := command.identity.command;
      promises := promises[p := Promise(k, command, None, Waiting)];
      connections := connections[k := c.(acks := c.acks[id := PendingAck(command, p)])];
    }

    /** The send of a prepare failed, or its acknowledgement did not come in time. */
    method GiveUpAcknowledgement(k: ConnectionId, id: CommandId, p: PromiseId, code: Code)
      requires Valid()
      modifies this
      ensures Valid()
      ensures State() == GiveUpAck(old(State()), k, id, p, code)
      ensures SettledStay(old(promises), promises)
    {
      hide ControlChannel.Valid, SettledStay, Settle;
      R.GiveUpAckValid(State(), k, id, p, code, maxPendingCommands);
      if k !in connections || id !in connections[k].acks || connections[k].acks[id].promise != p {
        return;
      }
      connections := connections[k := connections[k].(acks := connections[k].acks - {id})];
      promises := Settle(promises, p, Rejected(ChannelError(code, true, false)));
    }

    method AcceptAcknowledgement(k: ConnectionId, ack: Ack) returns (r: Result<(), ChannelError>)
      requires Valid()
      modifies this
      ensures Valid()
      ensures State() == R.OrSame(old(State()), ReceiveAck(old(State()), k, ack))
      ensures r == match ReceiveAck(old(State()), k, ack) case Ok(_) => Ok(()) case Err(e) => Err(e)
      ensures SettledStay(old(promises), promises)
    {
      hide ControlChannel.Valid, SettledStay, Settle, Live;
      ghost var before := State();
      R.StaysRefl(promises);
      if ReceiveAck(before, k, ack).Ok? {
        R.ReceiveAckValid(before, k, ack, maxPendingCommands);
      }
      LiveKnown(before, k);
      if !Live(Snapshot(), k) {
        return Err(ChannelError(StaleConnection, false, true));
      }
      var c := connections[k];
      var id := ack.identity.command;
      if id !in c.acks {
        return Err(ChannelError(UnexpectedAck, false, false));
      }
      var pending := c.acks[id];
      if pending.command.identity != ack.identity {
        return Err(ChannelError(AckMismatch, false, false));
      }
      c := c.(acks := c.acks - {id});
      if !ack.rejected {
        c := c.(prepared := c.prepared[id := Prepared(pending.command, ack)]);
      }
      connections := connections[k := c];
      promises := Settle(promises, pending.promise, Acked(ack));
      return Ok(());
    }

    // ---------------------------------------------------------------- commit and release

    method CheckCommit(sandbox: SandboxId, command: Command, ack: Ack, commit: Disposition)
      returns (r: Result<ConnectionId, ChannelError>)
      ensures r == CommitCheck(State(), sandbox, command, ack, commit)
    {
      hide Disposes;
      if ack.rejected {
        return Err(ChannelError(InvalidAck, false, false));
      }
      var current := CurrentConnection(Snapshot(), sandbox, true);
      if current.Err? {
        return current;
      }
      var c := connections[current.value];
      var id := command.identity.command;
      if id !in c.prepared || !Disposes(c.prepared[id], command, ack, commit) {
        return Err(ChannelError(CommitMismatch, false, true));
      }
      if id in c.results {
        return Err(ChannelError(ExchangeConflict, false, true));
      }
      return current;
    }

    /** Everything commit does before it awaits the send; `p` is the promise it returns. */
    method Commit(sandbox: SandboxId, command: Command, ack: Ack, commit: Disposition, p: PromiseId)
      returns (r: Result<ConnectionId, ChannelError>)
      requires Valid() && p !in promises
      modifies this`connections, this`promises
      ensures Valid()
      ensures State() == R.OrSame(old(State()), ControlChannel.Commit(old(State()), sandbox, command, ack, commit, p))
      ensures r == CommitCheck(old(State()), sandbox, command, ack, commit)
      ensures r.Ok? ==> ResultPending(State(), r.value, command.identity.command, p)
      ensures SettledStay(old(promises), promises)
    {
      hide ControlChannel.Valid, SettledStay, CommitCheck;
      ghost var before := State();
      R.StaysRefl(promises);
      r := CheckCommit(sandbox, command, ack, commit);
      if r.Err? {
        return;
      }
      CheckedCommit(before, sandbox, command, ack, commit);
      R.CommitValid(before, sandbox, command, ack, commit, p, maxPendingCommands);
      var k := r.value;
      var c := connections[k];
      var id := command.identity.command;
      promises := promises[p := Promise(k, command, Some(commit.message), Waiting)];
      connections := connections[k := c.(prepared := c.prepared - {id}, results := c.results[id := PendingResult(command, ack, commit, p)])];
    }

    /** The send of a commit failed, or its result did not come in time. */
    method GiveUpCommit(k: ConnectionId, id: CommandId, p: PromiseId, code: Code)
      requires Valid()
      modifies this
      ensures Valid()
      ensures State() == GiveUpResult(old(State()), k, id, p, code)
      ensures SettledStay(old(promises), promises)
    {
      hide ControlChannel.Valid, SettledStay, Settle;
      R.GiveUpResultValid(State(), k, id, p, code, maxPendingCommands);
      if k !in connections || id !in connections[k].results || connections[k].results[id].promise != p {
        return;
      }
      connections := connections[k := connections[k].(results := connections[k].results - {id})];
      promises := Settle(promises, p, Rejected(ChannelError(code, false, true)));
    }

    method AcceptResult(k: ConnectionId, result: CommandResult) returns (r: Result<(), ChannelError>)
      requires Valid()
      modifies this
      ensures Valid()
      ensures State() == R.OrSame(old(State()), ReceiveResult(old(State()), k, result))
      ensures r == match ReceiveResult(old(State()), k, result) case Ok(_) => Ok(()) case Err(e) => Err(e)
      ensures SettledStay(old(promises), promises)
    {
      hide ControlChannel.Valid, SettledStay, Settle, Live;
      ghost var before := State();
      R.StaysRefl(promises);
      if ReceiveResult(before, k, result).Ok? {
        R.ReceiveResultValid(before, k, result, maxPendingCommands);
      }
      LiveKnown(before, k);
      if !Live(Snapshot(), k) {
        return Err(ChannelError(StaleConnection, false, true));
      }
      var c := connections[k];
      var id := result.identity.command;
      if id !in c.results {
        return Err(ChannelError(UnexpectedResult, false, true));
      }
      var pending := c.results[id];
      if pending.command.identity != result.identity || result.commit != pending.commit.message || !result.steer {
        return Err(ChannelError(ResultMismatch, false, true));
      }
      connections := connections[k := c.(results := c.results - {id})];
      promises := Settle(promises, pending.promise, Resulted(result));
      return Ok(());
    }

    /** The checks of release; its send is awaited next, and nothing is forgotten until then. */
    method Release(sandbox: SandboxId, command: Command, ack: Ack, release: Disposition)
      returns (r: Result<ConnectionId, ChannelError>)
      ensures r == ReleaseCheck(State(), sandbox, command, ack, release)
      ensures r.Ok? ==> r.value in connections && command.identity.command in connections[r.value].prepared
    {
      if ack.rejected {
        return Err(ChannelError(InvalidAck, false, false));
      }
      var current := CurrentConnection(Snapshot(), sandbox, false);
      if current.Err? {
        return current;
      }
      var k := current.value;
      var id := command.identity.command;
      if id !in connections[k].prepared || !Disposes(connections[k].prepared[id], command, ack, release) {
        return Err(ChannelError(ReleaseMismatch, false, false));
      }
      return Ok(k);
    }

    method ForgetReleased(k: ConnectionId, id: CommandId)
      requires Valid()
      modifies this`connections
      ensures Valid()
      ensures State() == ReleaseSent(old(State()), k, id)
    {
      R.ReleaseSentValid(State(), k, id, maxPendingCommands);
      hide ControlChannel.Valid;
      if k in connections {
        connections := connections[k := connections[k].(prepared := connections[k].prepared - {id})];
      }
    }

    // ---------------------------------------------------------------- what others do meanwhile

    /** One turn of the event loop that somebody else had. */
    method Perform(step: R.Step)
      requires Valid()
      modifies this
      ensures Valid()
      ensures State() == R.Do(old(State()), step, maxPendingCommands)
    {
      hide ControlChannel.Valid, SettledStay, ControlChannel.Attach, ControlChannel.Prepare, ControlChannel.Commit,
        GiveUpAck, ReceiveAck, GiveUpResult, ReceiveResult, ReleaseSent, PrepareCheck, CommitCheck;
      match step {
        case AttachStep(k, sandbox, steers, twoPhase) => var _ := Attach(k, sandbox, steers, twoPhase);
        case DetachStep(k) => Detach(k);
        case PrepareStep(sandbox, command, p) =>
          if p !in promises { var _ := Prepare(sandbox, command, p); }
        case PrepareSendFails(k, id, p) => GiveUpAcknowledgement(k, id, p, SendFailed);
        case AckTimesOut(k, id, p) => GiveUpAcknowledgement(k, id, p, AckTimeout);
        case AckArrives(k, ack) => var _ := AcceptAcknowledgement(k, ack);
        case CommitStep(sandbox, command, ack, commit, p) =>
          if p !in promises { var _ := Commit(sandbox, command, ack, commit, p); }
        case CommitSendFails(k, id, p) => GiveUpCommit(k, id, p, CommitSendFailed);
        case ResultTimesOut(k, id, p) => GiveUpCommit(k, id, p, ResultTimeout);
        case ResultArrives(k, result) => var _ := AcceptResult(k, result);
        case ReleaseWasSent(k, id) => ForgetReleased(k, id);
      }
    }

    /** Everything that happens on the channel while a caller is waiting. */
    method Interleave(steps: seq<R.Step>)
      requires Valid()
      modifies this
      ensures Valid()
      ensures State() == R.Continue(old(State()), steps, maxPendingCommands)
    {
      hide ControlChannel.Valid, R.Do;
      var i := 0;
      while i < |steps|
        invariant 0 <= i <= |steps|
        invariant Valid()
        invariant State() == R.Continue(old(State()), steps[..i], maxPendingCommands)
      {
        Perform(steps[i]);
        assert steps[..i + 1][..i] == steps[..i];
        i := i + 1;
      }
      assert steps[..i] == steps;
    }
  }

  // ------------------------------------------------------------------ for the detach loops

  /** The pending results of a connection have their promises. */
  ghost predicate EntriesKnown(promises: map<PromiseId, Promise>, c: Connection, k: ConnectionId) {
    forall id :: id in c.results ==> ResultPromised(promises, k, id, c.results[id])
  }

  /** And so have the pending acknowledgements. */
  ghost predicate AcksPromised(promises: map<PromiseId, Promise>, c: Connection, k: ConnectionId) {
    forall id :: id in c.acks ==> AckPromised(promises, k, id, c.acks[id])
  }

  lemma BothPromised(r: Router, k: ConnectionId)
    requires k in r.connections && EntriesPromised(r)
    ensures AcksPromised(r.promises, r.connections[k], k) && EntriesKnown(r.promises, r.connections[k], k)
  {
  }

  lemma RejectNone(promises: map<PromiseId, Promise>, c: Connection, k: ConnectionId, code: Code)
    ensures RejectSome(promises, c, k, code, {}, {}) == promises
  {
    hide PendsOn;
  }

  lemma RejectKeepsKnown(promises: map<PromiseId, Promise>, c: Connection, k: ConnectionId, code: Code)
    requires EntriesKnown(promises, c, k)
    ensures EntriesKnown(RejectSome(promises, c, k, code, c.acks.Keys, {}), c, k)
  {
    hide PendsOn;
  }

  lemma RejectBoth(promises: map<PromiseId, Promise>, c: Connection, k: ConnectionId, code: Code)
    ensures RejectSome(RejectSome(promises, c, k, code, c.acks.Keys, {}), c, k, code, {}, c.results.Keys) ==
            RejectPending(promises, c, k, code)
  {
  }

  lemma RejectOneAck(promises: map<PromiseId, Promise>, c: Connection, k: ConnectionId, code: Code,
                     done: set<CommandId>, id: CommandId)
    requires id in c.acks && id !in done && AcksPromised(promises, c, k)
    ensures Settle(RejectSome(promises, c, k, code, done, {}), c.acks[id].promise, Rejected(DetachError(code, false))) ==
            RejectSome(promises, c, k, code, done + {id}, {})
  {
  }

  lemma RejectOneResult(promises: map<PromiseId, Promise>, c: Connection, k: ConnectionId, code: Code,
                        done: set<CommandId>, id: CommandId)
    requires id in c.results && id !in done && EntriesKnown(promises, c, k)
    ensures Settle(RejectSome(promises, c, k, code, {}, done), c.results[id].promise, Rejected(DetachError(code, true))) ==
            RejectSome(promises, c, k, code, {}, done + {id})
  {
  }

  lemma CheckedPrepare(r: Router, sandbox: SandboxId, command: Command, max: nat)
    requires PrepareCheck(r, sandbox, command, max).Ok?
    ensures PrepareCheck(r, sandbox, command, max).value in r.connections
  {
  }

  lemma CheckedCommit(r: Router, sandbox: SandboxId, command: Command, ack: Ack, commit: Disposition)
    requires CommitCheck(r, sandbox, command, ack, commit).Ok?
    ensures CommitCheck(r, sandbox, command, ack, commit).value in r.connections
  {
  }

  lemma LiveKnown(r: Router, k: ConnectionId)
    ensures Live(r, k) ==> k in r.connections
  {
  }
}
