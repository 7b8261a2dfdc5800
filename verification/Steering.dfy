/**
 One delivery of a steer as part of a run of the control channel: it prepares, waits while others
 act on the channel, commits, waits again; and what its ending lets the service record.
 */
module Steering {
  import opened Common
  import opened ControlChannel
  import R = ControlChannelRuns
  import W = WorkerControlChannel
  import SM = StateMachines

  /** Why a message could not be parsed: it broke the wire protocol, or something else went wrong. */
  datatype ParseError = Malformed | Unforeseen

  /** What can go wrong in building the command or a disposition of it, or in finding its lease. */
  datatype EarlyError = Refused(retryable: bool) | LeaseLost(retryable: bool) | Unreadable(error: ParseError)

  /** What can be thrown while a steer is under way. */
  datatype Thrown =
    | Backend(retryable: bool, ambiguous: bool)
    | Lease(retryable: bool)
    | Channel(error: ChannelError)
    | ProtocolViolation
    | Unexpected

  datatype BackendError = BackendError(retryable: bool, ambiguous: bool)

  function FromParse(e: ParseError): Thrown {
    match e
    case Malformed => ProtocolViolation
    case Unforeseen => Unexpected
  }

  function FromEarly(e: EarlyError): Thrown {
    match e
    case Refused(retryable) => Backend(retryable, false)
    case LeaseLost(retryable) => Lease(retryable)
    case Unreadable(error) => FromParse(error)
  }

  /** The error a caller of steer sees, given whether the commit had been begun. */
  function NormalizeSteerError(e: Thrown, committed: bool): BackendError {
    match e
    case Backend(retryable, ambiguous) => BackendError(retryable, ambiguous)
    case Lease(retryable) => BackendError(retryable, false)
    case Channel(error) => BackendError(!committed && error.retryable, committed && error.ambiguous)
    case ProtocolViolation => BackendError(false, committed)
    case Unexpected => BackendError(!committed, committed)
  }

  /**
   What one delivery meets that the channel does not decide: whether its lease, its command and its
   dispositions could be had, what else happens on the channel while it waits, and whether the
   answers it is given can be parsed.
   */
  datatype Script = Script(
    sandbox: SandboxId,
    early: Option<EarlyError>,
    command: Command,
    prepare: PromiseId,
    untilAck: seq<R.Step>,
    ackUnread: Option<ParseError>,
    disposition: Result<MessageId, EarlyError>,
    commit: PromiseId,
    untilResult: seq<R.Step>,
    resultUnread: Option<ParseError>,
    release: Option<MessageId>,
    untilSent: seq<R.Step>,
    sent: bool)

  /**
   How a delivery ended. `Escaped`: the release could not be built, and that error left unchanged.
   `Unsettled`: the promise it waits on is still unsettled.
   */
  datatype Ending = Delivered | Threw(error: BackendError) | Escaped | Unsettled

  /** A delivery's ending, whether its commit was begun, and whether a release was attempted. */
  datatype Delivery = Delivery(ending: Ending, attempted: bool, released: bool)

  // ------------------------------------------------------------------ up to the commit

  /** Where a delivery stands when its commit would come. */
  datatype Handshake =
    | Accepted(ack: Ack, commit: Disposition)
    | Undisposed(ack: Ack, error: EarlyError)
    | Stopped(thrown: Thrown)
    | Hanging

  function Answer(promises: map<PromiseId, Promise>, p: PromiseId): Outcome {
    if p in promises then promises[p].outcome else Waiting
  }

  function Dispose(x: Script, m: MessageId, ack: Ack): Disposition {
    Disposition(m, x.command.identity, ack.message)
  }

  function ReadAck(x: Script, outcome: Outcome): Handshake {
    match outcome
    case Waiting => Hanging
    case Rejected(e) => Stopped(Channel(e))
    case Resulted(_) => Stopped(if x.ackUnread.Some? then FromParse(x.ackUnread.value) else Backend(false, false))
    case Acked(ack) =>
      if x.ackUnread.Some? then Stopped(FromParse(x.ackUnread.value))
      else if ack.identity != x.command.identity then Stopped(Backend(false, false))
      else if ack.rejected then Stopped(Backend(ack.retryable, false))
      else
        match x.disposition
        case Err(e) => Undisposed(ack, e)
        case Ok(m) => Accepted(ack, Dispose(x, m, ack))
  }

  /** The channel once the delivery stops waiting for its acknowledgement, if it got that far. */
  function AtAck(r: Router, x: Script, max: nat): Router {
    if x.early.Some? || PrepareCheck(r, x.sandbox, x.command, max).Err? then r
    else R.Continue(R.Do(r, R.PrepareStep(x.sandbox, x.command, x.prepare), max), x.untilAck, max)
  }

  function Shake(r: Router, x: Script, max: nat): Handshake {
    if x.early.Some? then Stopped(FromEarly(x.early.value))
    else
      match PrepareCheck(r, x.sandbox, x.command, max)
      case Err(e) => Stopped(Channel(e))
      case Ok(_) => ReadAck(x, Answer(AtAck(r, x, max).promises, x.prepare))
  }

  // ------------------------------------------------------------------ from the commit on

  datatype Conclusion = Succeeded | Broke(thrown: Thrown) | NoWord

  function ReadResult(x: Script, commit: Disposition, outcome: Outcome): Conclusion {
    match outcome
    case Waiting => NoWord
    case Rejected(e) => Broke(Channel(e))
    case Acked(_) => Broke(if x.resultUnread.Some? then FromParse(x.resultUnread.value) else Backend(false, true))
    case Resulted(result) =>
      if x.resultUnread.Some? then Broke(FromParse(x.resultUnread.value))
      else if result.identity != x.command.identity || result.commit != commit.message || !result.steer
      then Broke(Backend(false, true))
      else if result.status.Failed? then Broke(Backend(result.retryable, false))
      else if !result.status.Completed? then Broke(Backend(false, true))
      else Succeeded
  }

  /** The channel once the delivery stops waiting for its result; `r` is the channel before the commit. */
  function AtResult(r: Router, x: Script, ack: Ack, commit: Disposition, max: nat): Router {
    if CommitCheck(r, x.sandbox, x.command, ack, commit).Err? then r
    else R.Continue(R.Do(r, R.CommitStep(x.sandbox, x.command, ack, commit, x.commit), max), x.untilResult, max)
  }

  function Conclude(r: Router, x: Script, ack: Ack, commit: Disposition, max: nat): Conclusion {
    match CommitCheck(r, x.sandbox, x.command, ack, commit)
    case Err(e) => Broke(Channel(e))
    case Ok(_) => ReadResult(x, commit, Answer(AtResult(r, x, ack, commit, max).promises, x.commit))
  }

  /** The channel after the attempt to release an accepted command; a refusal of it is swallowed. */
  function AtRelease(r: Router, x: Script, ack: Ack, max: nat): Router {
    if x.release.None? then r
    else
      match ReleaseCheck(r, x.sandbox, x.command, ack, Dispose(x, x.release.value, ack))
      case Err(_) => r
      case Ok(k) =>
        var r' := R.Continue(r, x.untilSent, max);
        if x.sent then R.Do(r', R.ReleaseWasSent(k, x.command.identity.command), max) else r'
  }

  /** A whole delivery that starts when the channel is `r`. */
  function Steer(r: Router, x: Script, max: nat): Delivery {
    match Shake(r, x, max)
    case Hanging => Delivery(Unsettled, false, false)
    case Stopped(e) => Delivery(Threw(NormalizeSteerError(e, false)), false, false)
    case Undisposed(_, e) =>
      if x.release.None? then Delivery(Escaped, false, false)
      else Delivery(Threw(NormalizeSteerError(FromEarly(e), false)), false, true)
    case Accepted(ack, commit) =>
      match Conclude(AtAck(r, x, max), x, ack, commit, max)
      case NoWord => Delivery(Unsettled, true, false)
      case Broke(e) => Delivery(Threw(NormalizeSteerError(e, true)), true, false)
      case Succeeded => Delivery(Delivered, true, false)
  }

  /** The channel when the delivery is over. */
  function Steered(r: Router, x: Script, max: nat): Router {
    match Shake(r, x, max)
    case Undisposed(ack, _) => AtRelease(AtAck(r, x, max), x, ack, max)
    case Accepted(ack, commit) => AtResult(AtAck(r, x, max), x, ack, commit, max)
    case _ => AtAck(r, x, max)
  }

  /** The promises of the delivery are its own. */
  ghost predicate Fresh(r: Router, x: Script, max: nat) {
    x.prepare !in r.promises && x.commit !in AtAck(r, x, max).promises
  }

  /** The steer itself, on the router, with its mutable acknowledgement and committed flag. */
  method RunSteer(router: W.WorkerControlChannelRouter, x: Script) returns (d: Delivery)
    requires router.Valid() && Fresh(router.State(), x, router.maxPendingCommands)
    modifies router
    ensures router.Valid()
    ensures d == Steer(old(router.State()), x, router.maxPendingCommands)
    ensures router.State() == Steered(old(router.State()), x, router.maxPendingCommands)
  {
    hide Valid, R.Continue, PrepareCheck, CommitCheck, ReleaseCheck, SettledStay;
    if x.early.Some? {
      return Delivery(Threw(NormalizeSteerError(FromEarly(x.early.value), false)), false, false);
    }
    var prepared := router.Prepare(x.sandbox, x.command, x.prepare);
    if prepared.Err? {
      return Delivery(Threw(NormalizeSteerError(Channel(prepared.error), false)), false, false);
    }
    router.Interleave(x.untilAck);
    var handshake := ReadAck(x, Answer(router.promises, x.prepare));
    var thrown: Option<Thrown> := None;
    var acknowledgement: Option<Ack> := None;
    var committed := false;
    match handshake {
      case Hanging => return Delivery(Unsettled, false, false);
      case Stopped(e) => thrown := Some(e);
      case Undisposed(ack, e) =>
        acknowledgement := Some(ack);
        thrown := Some(FromEarly(e));
      case Accepted(ack, commit) =>
        acknowledgement := Some(ack);
        committed := true;
        var sent := router.Commit(x.sandbox, x.command, ack, commit, x.commit);
        if sent.Err? {
          thrown := Some(Channel(sent.error));
        } else {
          router.Interleave(x.untilResult);
          match ReadResult(x, commit, Answer(router.promises, x.commit)) {
            case NoWord => return Delivery(Unsettled, true, false);
            case Broke(e) => thrown := Some(e);
            case Succeeded =>
          }
        }
    }
    if thrown.None? {
      return Delivery(Delivered, committed, false);
    }
    if !committed && acknowledgement.Some? {
      if x.release.None? {
        return Delivery(Escaped, committed, false);
      }
      ReleaseQuietly(router, x, acknowledgement.value);
      return Delivery(Threw(NormalizeSteerError(thrown.value, committed)), committed, true);
    }
    return Delivery(Threw(NormalizeSteerError(thrown.value, committed)), committed, false);
  }

  method ReleaseQuietly(router: W.WorkerControlChannelRouter, x: Script, ack: Ack)
    requires router.Valid() && x.release.Some?
    modifies router
    ensures router.Valid()
    ensures router.State() == AtRelease(old(router.State()), x, ack, router.maxPendingCommands)
  {
    hide Valid, R.Continue, ReleaseCheck, ReleaseSent;
    var released := router.Release(x.sandbox, x.command, ack, Dispose(x, x.release.value, ack));
    if released.Ok? {
      router.Interleave(x.untilSent);
      if x.sent {
        router.ForgetReleased(released.value, x.command.identity.command);
      }
    }
  }

  // ------------------------------------------------------------------ what the service records

  predicate Open(s: SM.CommandState) {
    s.Pending? || s.Dispatched? || s.Acknowledged?
  }

  /** What is written after a delivery: completed, failed, or nothing when the outcome is unknown. */
  function Record(s: SM.CommandState, d: Delivery): SM.CommandState {
    if !Open(s) then s
    else
      match d.ending
      case Delivered => SM.CommandState.Completed
      case Threw(e) => if e.ambiguous then s else SM.CommandState.Failed
      case Escaped => SM.CommandState.Failed
      case Unsettled => s
  }

  class TurnSteeringService {
    var commands: map<CommandId, SM.CommandState>
    /** Whether an update that matches no row throws. */
    const strict: bool

    /** Mark a command dispatched that was pending when it was read. */
    method MarkDispatched(id: CommandId, stored: SM.CommandState) returns (ok: bool)
      requires id in commands
      modifies this
      ensures ok <==> !stored.Pending? || old(commands)[id].Pending? || !strict
      ensures commands == if stored.Pending? && old(commands)[id].Pending?
                          then old(commands)[id := SM.CommandState.Dispatched] else old(commands)
    {
      if !stored.Pending? {
        return true;
      }
      if commands[id].Pending? {
        commands := commands[id := SM.CommandState.Dispatched];
        return true;
      }
      assert commands[id := commands[id]] == commands;
      return !strict;
    }

    method MarkFailed(id: CommandId)
      requires id in commands
      modifies this
      ensures commands == old(commands)[id := if SM.TerminalCommand(old(commands)[id]) then old(commands)[id] else SM.CommandState.Failed]
    {
      if Open(commands[id]) {
        commands := commands[id := SM.CommandState.Failed];
      } else {
        assert commands[id := commands[id]] == commands;
      }
    }

    /**
     Dispatch, deliver, and record what the delivery proved. `stored` is the command's state as it was
     read before; `meanwhile` holds what others write into the table while the steer is under way.
     */
    method DeliverStored(id: CommandId, stored: SM.CommandState, router: W.WorkerControlChannelRouter, x: Script,
                         meanwhile: map<CommandId, SM.CommandState>) returns (delivered: bool)
      requires id in commands
      requires router.Valid() && Fresh(router.State(), x, router.maxPendingCommands)
      modifies this, router
      ensures router.Valid()
      ensures var d := Steer(old(router.State()), x, router.maxPendingCommands);
              var row := old(commands)[id];
              if stored.Pending? && !row.Pending? && strict
              then !delivered && commands == old(commands) && router.State() == old(router.State())
              else
                var found := (if stored.Pending? && row.Pending? then old(commands)[id := SM.CommandState.Dispatched] else old(commands)) + meanwhile;
                && router.State() == Steered(old(router.State()), x, router.maxPendingCommands)
                && commands == found[id := Record(found[id], d)]
                && (delivered <==> d.ending.Delivered? && (!SM.TerminalCommand(found[id]) || !strict))
    {
      hide Steer, Steered, Valid, Fresh;
      var marked := MarkDispatched(id, stored);
      if !marked {
        assert commands == old(commands);
        return false;
      }
      var d := RunSteer(router, x);
      commands := commands + meanwhile;
      var open := Open(commands[id]);
      assert commands[id := commands[id]] == commands;
      match d.ending {
        case Delivered =>
          if open {
            commands := commands[id := SM.CommandState.Completed];
          }
          return open || !strict;
        case Threw(e) =>
          if !e.ambiguous {
            MarkFailed(id);
          }
          return false;
        case Escaped =>
          MarkFailed(id);
          return false;
        case Unsettled =>
          return false;
      }
    }
  }

  // ------------------------------------------------------------------ a delivery is part of the run

  /** The steps of the channel from the first of the delivery's own to its last. */
  function Moves(r: Router, x: Script, max: nat): seq<R.Step> {
    if x.early.Some? || PrepareCheck(r, x.sandbox, x.command, max).Err? then []
    else
      var first := [R.PrepareStep(x.sandbox, x.command, x.prepare)] + x.untilAck;
      match Shake(r, x, max)
      case Accepted(ack, commit) =>
        if CommitCheck(AtAck(r, x, max), x.sandbox, x.command, ack, commit).Err? then first
        else first + ([R.CommitStep(x.sandbox, x.command, ack, commit, x.commit)] + x.untilResult)
      case Undisposed(ack, _) =>
        if x.release.None? then first
        else
          (match ReleaseCheck(AtAck(r, x, max), x.sandbox, x.command, ack, Dispose(x, x.release.value, ack))
           case Err(_) => first
           case Ok(k) => first + (x.untilSent + if x.sent then [R.ReleaseWasSent(k, x.command.identity.command)] else []))
      case _ => first
  }

  lemma OneThenMore(r: Router, step: R.Step, steps: seq<R.Step>, max: nat)
    ensures R.Continue(r, [step] + steps, max) == R.Continue(R.Do(r, step, max), steps, max)
  {
    hide R.Do;
    R.ContinueOn(r, [step], steps, max);
    R.ContinueOne(r, step, max);
    hide R.Continue;
  }

  lemma ReleaseIsARun(r: Router, x: Script, k: ConnectionId, max: nat)
    ensures var last := R.ReleaseWasSent(k, x.command.identity.command);
            var r' := R.Continue(r, x.untilSent, max);
            R.Continue(r, x.untilSent + (if x.sent then [last] else []), max) == if x.sent then R.Do(r', last, max) else r'
  {
    hide R.Do;
    var last := R.ReleaseWasSent(k, x.command.identity.command);
    if x.sent {
      R.ContinueOn(r, x.untilSent, [last], max);
      R.ContinueOne(R.Continue(r, x.untilSent, max), last, max);
    } else {
      assert x.untilSent + [] == x.untilSent;
    }
  }

  /** A delivery begun after `before` leaves the channel as a run that goes on with the delivery's moves. */
  lemma SteerIsARun(before: seq<R.Step>, x: Script, max: nat)
    ensures Steered(R.After(before, max), x, max) == R.After(before + Moves(R.After(before, max), x, max), max)
  {
    hide R.Do, PrepareCheck, CommitCheck, ReleaseCheck, Answer, R.After, ReadAck;
    var r := R.After(before, max);
    var moves := Moves(r, x, max);
    AfterThen(before, moves, max);
    var first := [R.PrepareStep(x.sandbox, x.command, x.prepare)] + x.untilAck;
    OneThenMore(r, R.PrepareStep(x.sandbox, x.command, x.prepare), x.untilAck, max);
    hide R.Continue;
    NoMoves(r, max);
    match Shake(r, x, max)
    case Accepted(ack, commit) =>
      var step := R.CommitStep(x.sandbox, x.command, ack, commit, x.commit);
      OneThenMore(AtAck(r, x, max), step, x.untilResult, max);
      R.ContinueOn(r, first, [step] + x.untilResult, max);
    case Undisposed(ack, _) =>
      if x.release.Some? {
        var check := ReleaseCheck(AtAck(r, x, max), x.sandbox, x.command, ack, Dispose(x, x.release.value, ack));
        if check.Ok? {
          var last := R.ReleaseWasSent(check.value, x.command.identity.command);
          ReleaseIsARun(AtAck(r, x, max), x, check.value, max);
          R.ContinueOn(r, first, x.untilSent + (if x.sent then [last] else []), max);
        }
      }
    case _ =>
  }

  lemma AfterThen(before: seq<R.Step>, moves: seq<R.Step>, max: nat)
    ensures R.After(before + moves, max) == R.Continue(R.After(before, max), moves, max)
  {
    hide R.Do;
    R.ContinueOn(EMPTY_ROUTER, before, moves, max);
    hide R.Continue;
  }

  lemma NoMoves(r: Router, max: nat)
    ensures R.Continue(r, [], max) == r
  {
  }
}
