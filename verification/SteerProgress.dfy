/**
 What the channel lets through: a live connection takes a prepare, its acceptance can be committed
 or released, and a steer whose worker answers ends with that answer, whatever others do meanwhile.
 */
module SteerProgress {
  import opened Common
  import opened ControlChannel
  import opened Steering
  import H = SteerHonesty
  import R = ControlChannelRuns
  import SM = StateMachines

  // ------------------------------------------------------------------ who gets in

  /** Connection `k` is the sandbox's, is attached, and can take command `id`. */
  ghost predicate Takes(r: Router, k: ConnectionId, sandbox: SandboxId, id: CommandId, max: nat) {
    && k in r.connections && !r.connections[k].detached && r.connections[k].sandbox == sandbox
    && r.connections[k].twoPhase && r.connections[k].steers
    && id !in r.connections[k].acks && id !in r.connections[k].prepared && id !in r.connections[k].results
    && |r.connections[k].acks| + |r.connections[k].prepared| + |r.connections[k].results| < max
  }

  /**
   A prepare is taken if and only if the sandbox has an attached connection with both capabilities,
   no exchange of the command and room.
   */
  lemma PreparesIff(r: Router, sandbox: SandboxId, command: Command, max: nat, k: ConnectionId)
    requires Valid(r, max)
    ensures PrepareCheck(r, sandbox, command, max) == Ok(k) <==> Takes(r, k, sandbox, command.identity.command, max)
  {
    hide AllOk, PromisesExact, EntriesPromised, OutcomesHonest;
  }

  /** A connection just attached with both capabilities takes any command. */
  lemma AttachedTakes(r: Router, k: ConnectionId, sandbox: SandboxId, command: Command, max: nat)
    requires Valid(r, max) && k !in r.connections && max > 0
    ensures PrepareCheck(R.Do(r, R.AttachStep(k, sandbox, true, true), max), sandbox, command, max) == Ok(k)
  {
    hide Valid, RejectPending;
  }

  // ------------------------------------------------------------------ steps that leave an exchange alone

  /** The step attaches to the sandbox, detaches `k`, or is about command `id` there. */
  predicate Disturbs(step: R.Step, k: ConnectionId, sandbox: SandboxId, id: CommandId) {
    match step
    case AttachStep(_, s, _, _) => s == sandbox
    case DetachStep(c) => c == k
    case PrepareStep(s, command, _) => s == sandbox && command.identity.command == id
    case PrepareSendFails(c, d, _) => c == k && d == id
    case AckTimesOut(c, d, _) => c == k && d == id
    case AckArrives(c, ack) => c == k && ack.identity.command == id
    case CommitStep(s, command, _, _, _) => s == sandbox && command.identity.command == id
    case CommitSendFails(c, d, _) => c == k && d == id
    case ResultTimesOut(c, d, _) => c == k && d == id
    case ResultArrives(c, result) => c == k && result.identity.command == id
    case ReleaseWasSent(c, d) => c == k && d == id
  }

  ghost predicate Quiet(steps: seq<R.Step>, k: ConnectionId, sandbox: SandboxId, id: CommandId) {
    forall step :: step in steps ==> !Disturbs(step, k, sandbox, id)
  }

  /** The exchange of `id` on `k` is where it was, and `k` is still the sandbox's connection. */
  ghost predicate Untouched(r: Router, r': Router, k: ConnectionId, id: CommandId) {
    && Live(r', k) && k in r.connections && SameExchange(r.connections[k], r'.connections[k], id)
  }

  predicate SameExchange(c: Connection, c': Connection, id: CommandId) {
    && c'.sandbox == c.sandbox && c'.twoPhase == c.twoPhase && c'.steers == c.steers
    && (id in c.acks <==> id in c'.acks) && (id in c.acks ==> c'.acks[id] == c.acks[id])
    && (id in c.prepared <==> id in c'.prepared) && (id in c.prepared ==> c'.prepared[id] == c.prepared[id])
    && (id in c.results <==> id in c'.results) && (id in c.results ==> c'.results[id] == c.results[id])
  }

  lemma IndexParts(r: Router, max: nat)
    requires Valid(r, max)
    ensures Indexed(r)
  {
    hide AllOk, Indexed, PromisesExact, EntriesPromised, OutcomesHonest;
  }

  lemma AttachLeaves(r: Router, on: ConnectionId, s: SandboxId, steers: bool, twoPhase: bool, k: ConnectionId,
                     id: CommandId)
    requires Indexed(r) && Live(r, k) && s != r.connections[k].sandbox && Attach(r, on, s, steers, twoPhase).Ok?
    ensures Untouched(r, Attach(r, on, s, steers, twoPhase).value, k, id)
  {
    hide RejectPending;
  }

  lemma DetachLeaves(r: Router, on: ConnectionId, k: ConnectionId, id: CommandId)
    requires Indexed(r) && Live(r, k) && on != k
    ensures Untouched(r, Detach(r, on), k, id)
  {
    hide RejectPending;
  }

  lemma PrepareLeaves(r: Router, s: SandboxId, command: Command, max: nat, p: PromiseId, k: ConnectionId, id: CommandId)
    requires Indexed(r) && Live(r, k) && Prepare(r, s, command, max, p).Ok?
    requires s != r.connections[k].sandbox || command.identity.command != id
    ensures Untouched(r, Prepare(r, s, command, max, p).value, k, id)
  {
  }

  lemma CommitLeaves(r: Router, s: SandboxId, command: Command, ack: Ack, commit: Disposition, p: PromiseId,
                     k: ConnectionId,
                     id: CommandId)
    requires Indexed(r) && Live(r, k) && Commit(r, s, command, ack, commit, p).Ok?
    requires s != r.connections[k].sandbox || command.identity.command != id
    ensures Untouched(r, Commit(r, s, command, ack, commit, p).value, k, id)
  {
    hide Disposes;
  }

  lemma EndsLeave(r: Router, on: ConnectionId, d: CommandId, p: PromiseId, code: Code, k: ConnectionId, id: CommandId)
    requires Live(r, k) && (on != k || d != id)
    ensures Untouched(r, GiveUpAck(r, on, d, p, code), k, id)
    ensures Untouched(r, GiveUpResult(r, on, d, p, code), k, id)
    ensures Untouched(r, ReleaseSent(r, on, d), k, id)
  {
    hide Settle;
  }

  lemma ArrivalsLeave(r: Router, on: ConnectionId, ack: Ack, result: CommandResult, k: ConnectionId, id: CommandId)
    requires Live(r, k)
    ensures (on != k || ack.identity.command != id) && ReceiveAck(r, on, ack).Ok? ==> Untouched(r, ReceiveAck(r, on, ack).value, k, id)
    ensures (on != k || result.identity.command != id) && ReceiveResult(r, on, result).Ok? ==>
              Untouched(r, ReceiveResult(r, on, result).value, k, id)
  {
    hide Settle, Answers;
  }

  lemma SameUntouched(r: Router, k: ConnectionId, id: CommandId)
    requires Live(r, k)
    ensures Untouched(r, r, k, id)
  {
  }

  lemma StepLeaves(r: Router, step: R.Step, max: nat, k: ConnectionId, id: CommandId)
    requires Valid(r, max) && Live(r, k) && !Disturbs(step, k, r.connections[k].sandbox, id)
    ensures Untouched(r, R.Do(r, step, max), k, id)
  {
    hide Valid, Untouched, Attach, Detach, Prepare, Commit, GiveUpAck, GiveUpResult, ReleaseSent, ReceiveAck,
      ReceiveResult,
      Indexed;
    IndexParts(r, max);
    SameUntouched(r, k, id);
    var anyAck := Ack(0, Identity(0, 0, 0, 0, 0), false, false);
    var anyResult := CommandResult(Identity(0, 0, 0, 0, 0), 0, false, OtherStatus, false);
    match step {
      case AttachStep(on, s, steers, twoPhase) =>
        if Attach(r, on, s, steers, twoPhase).Ok? { AttachLeaves(r, on, s, steers, twoPhase, k, id); }
      case DetachStep(on) => DetachLeaves(r, on, k, id);
      case PrepareStep(s, command, p) =>
        if Prepare(r, s, command, max, p).Ok? { PrepareLeaves(r, s, command, max, p, k, id); }
      case PrepareSendFails(on, d, p) => EndsLeave(r, on, d, p, SendFailed, k, id);
      case AckTimesOut(on, d, p) => EndsLeave(r, on, d, p, AckTimeout, k, id);
      case AckArrives(on, ack) => ArrivalsLeave(r, on, ack, anyResult, k, id);
      case CommitStep(s, command, ack, commit, p) =>
        if Commit(r, s, command, ack, commit, p).Ok? { CommitLeaves(r, s, command, ack, commit, p, k, id); }
      case CommitSendFails(on, d, p) => EndsLeave(r, on, d, p, CommitSendFailed, k, id);
      case ResultTimesOut(on, d, p) => EndsLeave(r, on, d, p, ResultTimeout, k, id);
      case ResultArrives(on, result) => ArrivalsLeave(r, on, anyAck, result, k, id);
      case ReleaseWasSent(on, d) => EndsLeave(r, on, d, 0, SendFailed, k, id);
    }
  }

  lemma UntouchedOn(r: Router, r': Router, r'': Router, k: ConnectionId, id: CommandId)
    requires Untouched(r, r', k, id) && Untouched(r', r'', k, id)
    ensures Untouched(r, r'', k, id)
  {
  }

  lemma UntouchedIs(r: Router, r': Router, k: ConnectionId, id: CommandId)
    requires Untouched(r, r', k, id)
    ensures Live(r', k) && k in r.connections && k in r'.connections
    ensures SameExchange(r.connections[k], r'.connections[k], id)
  {
  }

  lemma {:induction false} QuietLeaves(r: Router, steps: seq<R.Step>, max: nat, k: ConnectionId, id: CommandId)
    requires Valid(r, max) && Live(r, k) && Quiet(steps, k, r.connections[k].sandbox, id)
    ensures Untouched(r, R.Continue(r, steps, max), k, id)
  {
    hide Valid, R.Do, SettledStay, Untouched, Live, Disturbs, SameExchange;
    LiveIs(r, k);
    if steps == [] {
      SameUntouched(r, k, id);
    } else {
      var before := steps[..|steps| - 1];
      var mid := R.Continue(r, before, max);
      QuietLeaves(r, before, max, k, id);
      R.ContinueValid(r, before, max);
      UntouchedIs(r, mid, k, id);
      SamePlace(r.connections[k], mid.connections[k], id);
      StepLeaves(mid, steps[|steps| - 1], max, k, id);
      UntouchedOn(r, mid, R.Continue(r, steps, max), k, id);
    }
  }

  lemma LiveIs(r: Router, k: ConnectionId)
    requires Live(r, k)
    ensures k in r.connections
  {
  }

  lemma SamePlace(c: Connection, c': Connection, id: CommandId)
    requires SameExchange(c, c', id)
    ensures c'.sandbox == c.sandbox
  {
  }

  // ------------------------------------------------------------------ the two answers

  /**
   An acceptance that arrives settles its prepare, and makes the command ready to be committed or
   released with it.
   */
  lemma AcceptanceReadies(r: Router, k: ConnectionId, ack: Ack, max: nat)
    requires Valid(r, max) && ReceiveAck(r, k, ack).Ok? && r.connections[k].twoPhase
    ensures k in r.connections && ack.identity.command in r.connections[k].acks
    ensures var pending := r.connections[k].acks[ack.identity.command];
            var r' := ReceiveAck(r, k, ack).value;
            && pending.promise in r'.promises && r'.promises[pending.promise].outcome == Acked(ack)
            && (!ack.rejected ==> forall m: MessageId ::
                  var d := Disposition(m, pending.command.identity, ack.message);
                  && CommitCheck(r', r.connections[k].sandbox, pending.command, ack, d) == Ok(k)
                  && ReleaseCheck(r', r.connections[k].sandbox, pending.command, ack, d) == Ok(k))
  {
    var id := ack.identity.command;
    R.AckEntry(r, k, id, max);
    PendingWaits(r, k, id, max);
    hide Valid, AckPromised;
    assert id !in r.connections[k].results;
  }

  lemma PendingWaits(r: Router, k: ConnectionId, id: CommandId, max: nat)
    requires Valid(r, max) && k in r.connections
    ensures id in r.connections[k].acks ==>
              var p := r.connections[k].acks[id].promise;
              p in r.promises && r.promises[p].outcome.Waiting? && id !in r.connections[k].results
    ensures id in r.connections[k].results ==>
              var p := r.connections[k].results[id].promise; p in r.promises && r.promises[p].outcome.Waiting?
  {
    R.EntryConnection(r, k, id, max);
    R.ConnectionFits(r, k, max);
    hide AllOk, Indexed, EntriesPromised, OutcomesHonest;
  }

  /** Where an exchange stands is all that the checks of commit look at. */
  lemma CommitStays(r: Router, r': Router, k: ConnectionId, command: Command, ack: Ack, d: Disposition)
    requires Live(r, k) && Untouched(r, r', k, command.identity.command)
    requires CommitCheck(r, r.connections[k].sandbox, command, ack, d) == Ok(k)
    ensures CommitCheck(r', r.connections[k].sandbox, command, ack, d) == Ok(k)
  {
    hide Disposes;
  }

  ghost predicate AckAnswered(r: Router, k: ConnectionId, p: PromiseId, ack: Ack) {
    p in r.promises && r.promises[p].outcome == Acked(ack)
  }

  lemma AckTaken(r: Router, k: ConnectionId, command: Command, p: PromiseId, ack: Ack, max: nat)
    requires Valid(r, max) && Live(r, k) && r.connections[k].twoPhase
    requires command.identity.command in r.connections[k].acks
    requires r.connections[k].acks[command.identity.command] == PendingAck(command, p)
    requires ack.identity == command.identity
    ensures var r' := R.Do(r, R.AckArrives(k, ack), max);
            && Live(r', k) && r'.connections[k].sandbox == r.connections[k].sandbox && r'.connections[k].twoPhase
            && AckAnswered(r', k, p, ack)
            && (!ack.rejected ==> forall m: MessageId ::
                  CommitCheck(r', r.connections[k].sandbox, command, ack, Disposition(m, command.identity, ack.message)) == Ok(k))
  {
    hide Valid, CommitCheck, ReleaseCheck;
    assert ReceiveAck(r, k, ack).Ok?;
    AcceptanceReadies(r, k, ack, max);
    hide Settle;
  }

  /**
   A worker's acknowledgement that arrives among steps which leave the exchange alone is what the
   waiting caller gets; if it accepts, the commit is taken.
   */
  lemma AcknowledgementReaches(r: Router, k: ConnectionId, command: Command, p: PromiseId, before: seq<R.Step>,
                               ack: Ack,
                               after: seq<R.Step>, max: nat)
    requires Valid(r, max) && Live(r, k) && r.connections[k].twoPhase
    requires command.identity.command in r.connections[k].acks
    requires r.connections[k].acks[command.identity.command] == PendingAck(command, p)
    requires ack.identity == command.identity
    requires Quiet(before, k, r.connections[k].sandbox, command.identity.command)
    requires Quiet(after, k, r.connections[k].sandbox, command.identity.command)
    ensures var r' := R.Continue(r, before + ([R.AckArrives(k, ack)] + after), max);
            && Live(r', k) && r'.connections[k].sandbox == r.connections[k].sandbox
            && AckAnswered(r', k, p, ack)
            && (!ack.rejected ==> forall m: MessageId ::
                  CommitCheck(r', r.connections[k].sandbox, command, ack, Disposition(m, command.identity, ack.message)) == Ok(k))
  {
    hide Valid, R.Do, R.Continue, SettledStay, CommitCheck, Untouched, Live, Disturbs, AckAnswered, Quiet;
    var id := command.identity.command;
    LiveIs(r, k);
    var r1 := R.Continue(r, before, max);
    QuietLeaves(r, before, max, k, id);
    R.ContinueValid(r, before, max);
    UntouchedIs(r, r1, k, id);
    var r2 := R.Do(r1, R.AckArrives(k, ack), max);
    AckTaken(r1, k, command, p, ack, max);
    R.DoValid(r1, R.AckArrives(k, ack), max);
    LiveIs(r2, k);
    var r3 := R.Continue(r2, after, max);
    QuietLeaves(r2, after, max, k, id);
    R.ContinueValid(r2, after, max);
    UntouchedIs(r2, r3, k, id);
    AnsweredStays(r2, r3, k, p, ack);
    if !ack.rejected {
      forall m: MessageId
        ensures CommitCheck(r3, r.connections[k].sandbox, command, ack, Disposition(m, command.identity, ack.message)) == Ok(k)
      {
        CommitStays(r2, r3, k, command, ack, Disposition(m, command.identity, ack.message));
      }
    }
    R.ContinueOn(r, before, [R.AckArrives(k, ack)] + after, max);
    OneThenMore(r1, R.AckArrives(k, ack), after, max);
  }

  lemma AnsweredStays(r: Router, r': Router, k: ConnectionId, p: PromiseId, ack: Ack)
    requires AckAnswered(r, k, p, ack) && SettledStay(r.promises, r'.promises)
    ensures AckAnswered(r', k, p, ack)
  {
  }

  ghost predicate ResultAnswered(r: Router, p: PromiseId, result: CommandResult) {
    p in r.promises && r.promises[p].outcome == Resulted(result)
  }

  lemma ResultTaken(r: Router, k: ConnectionId, pending: PendingResult, result: CommandResult, max: nat)
    requires Valid(r, max) && Live(r, k)
    requires pending.command.identity.command in r.connections[k].results
    requires r.connections[k].results[pending.command.identity.command] == pending && Answers(pending, result)
    ensures ResultAnswered(R.Do(r, R.ResultArrives(k, result), max), pending.promise, result)
  {
    PendingWaits(r, k, pending.command.identity.command, max);
    hide Valid;
  }

  /** And the worker's result, likewise, is what the caller that waits for it gets. */
  lemma ResultReaches(r: Router, k: ConnectionId, pending: PendingResult, before: seq<R.Step>, result: CommandResult,
                      after: seq<R.Step>, max: nat)
    requires Valid(r, max) && Live(r, k)
    requires pending.command.identity.command in r.connections[k].results
    requires r.connections[k].results[pending.command.identity.command] == pending && Answers(pending, result)
    requires Quiet(before, k, r.connections[k].sandbox, pending.command.identity.command)
    ensures ResultAnswered(R.Continue(r, before + ([R.ResultArrives(k, result)] + after), max), pending.promise, result)
  {
    hide Valid, R.Do, R.Continue, SettledStay, Untouched, Live, Disturbs, Quiet, Answers, ResultAnswered;
    var id := pending.command.identity.command;
    LiveIs(r, k);
    var r1 := R.Continue(r, before, max);
    QuietLeaves(r, before, max, k, id);
    R.ContinueValid(r, before, max);
    UntouchedIs(r, r1, k, id);
    var r2 := R.Do(r1, R.ResultArrives(k, result), max);
    ResultTaken(r1, k, pending, result, max);
    R.DoValid(r1, R.ResultArrives(k, result), max);
    R.ContinueValid(r2, after, max);
    ResultStays(r2, R.Continue(r2, after, max), pending.promise, result);
    R.ContinueOn(r, before, [R.ResultArrives(k, result)] + after, max);
    OneThenMore(r1, R.ResultArrives(k, result), after, max);
  }

  lemma ResultStays(r: Router, r': Router, p: PromiseId, result: CommandResult)
    requires ResultAnswered(r, p, result) && SettledStay(r.promises, r'.promises)
    ensures ResultAnswered(r', p, result)
  {
  }

  // ------------------------------------------------------------------ a whole steer

  /**
   The delivery gets through to the worker, who acknowledges it with `ack` while nothing else
   touches the exchange.
   */
  ghost predicate Acknowledged(r: Router, x: Script, max: nat, k: ConnectionId, before: seq<R.Step>, ack: Ack,
                               after: seq<R.Step>) {
    && x.early.None? && x.ackUnread.None? && Takes(r, k, x.sandbox, x.command.identity.command, max)
    && ack.identity == x.command.identity && x.untilAck == before + ([R.AckArrives(k, ack)] + after)
    && Quiet(before, k, x.sandbox, x.command.identity.command) && Quiet(after, k, x.sandbox, x.command.identity.command)
  }

  lemma PrepareOpens(r: Router, x: Script, max: nat, k: ConnectionId)
    requires Valid(r, max) && x.prepare !in r.promises && PrepareCheck(r, x.sandbox, x.command, max) == Ok(k)
    ensures var r' := R.Do(r, R.PrepareStep(x.sandbox, x.command, x.prepare), max);
            && Live(r', k) && r'.connections[k].sandbox == x.sandbox && r'.connections[k].twoPhase
            && x.command.identity.command in r'.connections[k].acks
            && r'.connections[k].acks[x.command.identity.command] == PendingAck(x.command, x.prepare)
  {
    IndexParts(r, max);
    hide Valid;
  }

  /**
   What the delivery makes of the acknowledgement: the worker's refusal ends it, its acceptance
   leads to a commit that is taken.
   */
  lemma HandshakeIs(r: Router, x: Script, max: nat, k: ConnectionId, before: seq<R.Step>, ack: Ack, after: seq<R.Step>)
    requires Valid(r, max) && Fresh(r, x, max) && Acknowledged(r, x, max, k, before, ack, after)
    ensures ack.rejected ==> Shake(r, x, max) == Stopped(Backend(ack.retryable, false))
    ensures !ack.rejected && x.disposition.Ok? ==>
              var commit := Disposition(x.disposition.value, x.command.identity, ack.message);
              && Shake(r, x, max) == Accepted(ack, commit)
              && CommitCheck(AtAck(r, x, max), x.sandbox, x.command, ack, commit) == Ok(k)
              && Valid(AtAck(r, x, max), max)
  {
    hide Valid, R.Do, R.Continue, SettledStay, CommitCheck, PrepareCheck, Live, Quiet, AckAnswered, Takes;
    PreparesIff(r, x.sandbox, x.command, max, k);
    var step := R.PrepareStep(x.sandbox, x.command, x.prepare);
    PrepareOpens(r, x, max, k);
    R.DoValid(r, step, max);
    LiveIs(R.Do(r, step, max), k);
    AcknowledgementReaches(R.Do(r, step, max), k, x.command, x.prepare, before, ack, after, max);
    H.AtAckValid(r, x, max);
    AnswerIs(AtAck(r, x, max), k, x.prepare, ack);
  }

  lemma AnswerIs(r: Router, k: ConnectionId, p: PromiseId, ack: Ack)
    requires AckAnswered(r, k, p, ack)
    ensures Answer(r.promises, p) == Acked(ack)
  {
  }

  lemma CommitOpens(r: Router, x: Script, max: nat, k: ConnectionId, ack: Ack, commit: Disposition)
    requires Valid(r, max) && x.commit !in r.promises && CommitCheck(r, x.sandbox, x.command, ack, commit) == Ok(k)
    ensures var r' := R.Do(r, R.CommitStep(x.sandbox, x.command, ack, commit, x.commit), max);
            && Live(r', k) && r'.connections[k].sandbox == x.sandbox
            && x.command.identity.command in r'.connections[k].results
            && r'.connections[k].results[x.command.identity.command] == PendingResult(x.command, ack, commit, x.commit)
  {
    IndexParts(r, max);
    hide Valid, Disposes;
  }

  /** The worker ends the committed command with `result` while nothing else touches the exchange before. */
  ghost predicate Ended(x: Script, k: ConnectionId, before: seq<R.Step>, result: CommandResult, after: seq<R.Step>) {
    && x.resultUnread.None? && x.disposition == Ok(result.commit)
    && result.identity == x.command.identity && result.steer && x.untilResult == before + ([R.ResultArrives(k, result)] + after)
    && Quiet(before, k, x.sandbox, x.command.identity.command)
  }

  lemma ConclusionIs(r: Router, x: Script, max: nat, k: ConnectionId, ack: Ack, before: seq<R.Step>,
                     result: CommandResult,
                     after: seq<R.Step>)
    requires var commit := Disposition(result.commit, x.command.identity, ack.message);
             && Valid(r, max) && x.commit !in r.promises && CommitCheck(r, x.sandbox, x.command, ack, commit) == Ok(k)
    requires Ended(x, k, before, result, after)
    ensures var commit := Disposition(result.commit, x.command.identity, ack.message);
            Conclude(r, x, ack, commit, max) == ReadResult(x, commit, Resulted(result))
  {
    hide Valid, R.Do, R.Continue, SettledStay, CommitCheck, Live, Quiet, ReadResult, ResultAnswered;
    var commit := Disposition(result.commit, x.command.identity, ack.message);
    var step := R.CommitStep(x.sandbox, x.command, ack, commit, x.commit);
    CommitOpens(r, x, max, k, ack, commit);
    R.DoValid(r, step, max);
    LiveIs(R.Do(r, step, max), k);
    ResultReaches(R.Do(r, step, max), k, PendingResult(x.command, ack, commit, x.commit), before, result, after, max);
    ResultIs(AtResult(r, x, ack, commit, max), x.commit, result);
  }

  lemma ResultIs(r: Router, p: PromiseId, result: CommandResult)
    requires ResultAnswered(r, p, result)
    ensures Answer(r.promises, p) == Resulted(result)
  {
  }

  /**
   A steer that finds a connection to take it, whose worker accepts it and ends it, ends as the
   worker says: completed is recorded as completed, failed as failed with the worker's own verdict
   on retrying, and anything else leaves the command in doubt; whatever else happens on the channel,
   as long as it leaves this exchange alone.
   */
  lemma WorkersWordReaches(r: Router, x: Script, max: nat, k: ConnectionId, b1: seq<R.Step>, ack: Ack, a1: seq<R.Step>,
                           b2: seq<R.Step>, result: CommandResult, a2: seq<R.Step>, s: SM.CommandState)
    requires Valid(r, max) && Fresh(r, x, max) && !SM.TerminalCommand(s)
    requires Acknowledged(r, x, max, k, b1, ack, a1) && !ack.rejected && Ended(x, k, b2, result, a2)
    ensures var d := Steer(r, x, max);
            match result.status
            case Completed => d == Delivery(Delivered, true, false) && Record(s, d) == SM.CommandState.Completed
            case Failed => d == Delivery(Threw(BackendError(result.retryable, false)), true, false) && Record(s, d) == SM.CommandState.Failed
            case OtherStatus => d == Delivery(Threw(BackendError(false, true)), true, false) && Record(s, d) == s
  {
    hide Valid, AtAck, Shake, CommitCheck, Conclude, Acknowledged;
    HandshakeIs(r, x, max, k, b1, ack, a1);
    ConclusionIs(AtAck(r, x, max), x, max, k, ack, b2, result, a2);
    hide Quiet;
  }

  /** A steer that its worker turns down ends with the worker's verdict, and nothing was committed. */
  lemma WorkersRefusalReaches(r: Router, x: Script, max: nat, k: ConnectionId, before: seq<R.Step>, ack: Ack,
                              after: seq<R.Step>, s: SM.CommandState)
    requires Valid(r, max) && Fresh(r, x, max) && !SM.TerminalCommand(s)
    requires Acknowledged(r, x, max, k, before, ack, after) && ack.rejected
    ensures var d := Steer(r, x, max);
            d == Delivery(Threw(BackendError(ack.retryable, false)), false, false) && Record(s, d) == SM.CommandState.Failed
  {
    hide Valid, AtAck, Shake, CommitCheck, Conclude, Acknowledged;
    HandshakeIs(r, x, max, k, before, ack, after);
  }

  // ------------------------------------------------------------------ what may be tried again

  /**
   A prepare that is refused may be tried again exactly if the sandbox has no attached connection,
   or one that is full.
   */
  lemma RefusedRetryable(r: Router, sandbox: SandboxId, command: Command, max: nat)
    requires Valid(r, max) && PrepareCheck(r, sandbox, command, max).Err?
    ensures var e := PrepareCheck(r, sandbox, command, max).error;
            && !e.ambiguous
            && (e.retryable <==>
                  sandbox !in r.bySandbox || Full(r, r.bySandbox[sandbox], command.identity.command, max))
  {
    hide AllOk, PromisesExact, EntriesPromised, OutcomesHonest;
  }

  /** The connection would take the command if it had room. */
  ghost predicate Full(r: Router, k: ConnectionId, id: CommandId, max: nat) {
    && k in r.connections && r.connections[k].twoPhase && r.connections[k].steers
    && id !in r.connections[k].acks && id !in r.connections[k].prepared && id !in r.connections[k].results
    && |r.connections[k].acks| + |r.connections[k].prepared| + |r.connections[k].results| >= max
  }

  /**
   Before the commit the caller is told of retrying what the cause says: a refusal and a lost lease
   their own verdict, the channel its own, a broken message no, and anything unforeseen yes.
   */
  lemma VerdictsKept(r: Router, x: Script, max: nat)
    ensures x.early.Some? ==> Steer(r, x, max) == Delivery(Threw(BackendError(Verdict(x.early.value), false)), false, false)
    ensures x.early.None? && PrepareCheck(r, x.sandbox, x.command, max).Err? ==>
              Steer(r, x, max) ==
              Delivery(Threw(BackendError(PrepareCheck(r, x.sandbox, x.command, max).error.retryable, false)), false, false)
    ensures Shake(r, x, max).Undisposed? && x.release.Some? && x.disposition.Err? ==>
              Steer(r, x, max) == Delivery(Threw(BackendError(Verdict(x.disposition.error), false)), false, true)
  {
    hide PrepareCheck, AtAck;
  }

  function Verdict(e: EarlyError): bool {
    match e
    case Refused(retryable) => retryable
    case LeaseLost(retryable) => retryable
    case Unreadable(cause) => cause.Unforeseen?
  }

  /** Whatever a delivery ends with, a command that has ended stays as it is. */
  lemma EndedStays(d: Delivery, s: SM.CommandState)
    requires SM.TerminalCommand(s)
    ensures Record(s, d) == s
  {
  }

  // ------------------------------------------------------------------ what gives an exchange up, and who is heard

  lemma AckGivenUp(r: Router, k: ConnectionId, id: CommandId, p: PromiseId, code: Code)
    requires AckPending(r, k, id, p) && p in r.promises && r.promises[p].outcome.Waiting?
    ensures AckEnds(r, GiveUpAck(r, k, id, p, code), k, id, p, ChannelError(code, true, false))
  {
  }

  lemma ResultGivenUp(r: Router, k: ConnectionId, id: CommandId, p: PromiseId, code: Code)
    requires ResultPending(r, k, id, p) && p in r.promises && r.promises[p].outcome.Waiting?
    ensures ResultEnds(r, GiveUpResult(r, k, id, p, code), k, id, p, ChannelError(code, false, true))
  {
  }

  lemma NotPending(r: Router, k: ConnectionId, id: CommandId, p: PromiseId, code: Code)
    ensures !AckPending(r, k, id, p) ==> GiveUpAck(r, k, id, p, code) == r
    ensures !ResultPending(r, k, id, p) ==> GiveUpResult(r, k, id, p, code) == r
  {
  }

  lemma PendingIs(r: Router, k: ConnectionId, id: CommandId, p: PromiseId, max: nat)
    requires Valid(r, max) && (AckPending(r, k, id, p) || ResultPending(r, k, id, p))
    ensures p in r.promises && r.promises[p].outcome.Waiting?
  {
    PendingWaits(r, k, id, max);
    hide Valid;
  }

  /**
   A failed send or a timeout ends exactly its own pending exchange, with its own error; a late one
   changes nothing.
   */
  lemma GivingUpEnds(r: Router, k: ConnectionId, id: CommandId, p: PromiseId, max: nat)
    requires Valid(r, max)
    ensures AckPending(r, k, id, p) ==>
              && AckEnds(r, R.Do(r, R.PrepareSendFails(k, id, p), max), k, id, p, ChannelError(SendFailed, true, false))
              && AckEnds(r, R.Do(r, R.AckTimesOut(k, id, p), max), k, id, p, ChannelError(AckTimeout, true, false))
    ensures !AckPending(r, k, id, p) ==>
              R.Do(r, R.PrepareSendFails(k, id, p), max) == r && R.Do(r, R.AckTimesOut(k, id, p), max) == r
    ensures ResultPending(r, k, id, p) ==>
              && ResultEnds(r, R.Do(r, R.CommitSendFails(k, id, p), max), k, id, p, ChannelError(CommitSendFailed, false, true))
              && ResultEnds(r, R.Do(r, R.ResultTimesOut(k, id, p), max), k, id, p, ChannelError(ResultTimeout, false, true))
    ensures !ResultPending(r, k, id, p) ==>
              R.Do(r, R.CommitSendFails(k, id, p), max) == r && R.Do(r, R.ResultTimesOut(k, id, p), max) == r
  {
    hide Valid, AckEnds, ResultEnds, GiveUpAck, GiveUpResult, AckPending, ResultPending;
    NotPending(r, k, id, p, SendFailed);
    NotPending(r, k, id, p, AckTimeout);
    NotPending(r, k, id, p, CommitSendFailed);
    NotPending(r, k, id, p, ResultTimeout);
    if AckPending(r, k, id, p) {
      PendingIs(r, k, id, p, max);
      AckGivenUp(r, k, id, p, SendFailed);
      AckGivenUp(r, k, id, p, AckTimeout);
    }
    if ResultPending(r, k, id, p) {
      PendingIs(r, k, id, p, max);
      ResultGivenUp(r, k, id, p, CommitSendFailed);
      ResultGivenUp(r, k, id, p, ResultTimeout);
    }
  }

  ghost predicate AckEnds(r: Router, r': Router, k: ConnectionId, id: CommandId, p: PromiseId, e: ChannelError) {
    && k in r.connections && p in r.promises && r'.bySandbox == r.bySandbox
    && r'.connections == r.connections[k := r.connections[k].(acks := r.connections[k].acks - {id})]
    && r'.promises == r.promises[p := r.promises[p].(outcome := Rejected(e))]
  }

  ghost predicate ResultEnds(r: Router, r': Router, k: ConnectionId, id: CommandId, p: PromiseId, e: ChannelError) {
    && k in r.connections && p in r.promises && r'.bySandbox == r.bySandbox
    && r'.connections == r.connections[k := r.connections[k].(results := r.connections[k].results - {id})]
    && r'.promises == r.promises[p := r.promises[p].(outcome := Rejected(e))]
  }

  /** A message over a connection that is detached, or no longer its sandbox's, is refused as stale. */
  lemma StaleUnheard(r: Router, k: ConnectionId, ack: Ack, result: CommandResult)
    requires !(k in r.connections && !r.connections[k].detached && r.connections[k].sandbox in r.bySandbox &&
               r.bySandbox[r.connections[k].sandbox] == k)
    ensures ReceiveAck(r, k, ack) == Err(ChannelError(StaleConnection, false, true))
    ensures ReceiveResult(r, k, result) == Err(ChannelError(StaleConnection, false, true))
  {
  }

  // ------------------------------------------------------------------ only what was accepted is committed

  /** Entry `id` of connection `k` was prepared by the acknowledgement `ack` of the command sent as `cmd`. */
  ghost predicate PreparedAs(r: Router, k: ConnectionId, id: CommandId, cmd: Command, ack: Ack) {
    k in r.connections && id in r.connections[k].prepared && r.connections[k].prepared[id] == Prepared(cmd, ack)
  }

  lemma PreparedByWorker(r: Router, step: R.Step, max: nat, k: ConnectionId, id: CommandId, cmd: Command, ack: Ack)
    requires PreparedAs(R.Do(r, step, max), k, id, cmd, ack) && !PreparedAs(r, k, id, cmd, ack)
    ensures step == R.AckArrives(k, ack) && !ack.rejected && cmd.identity == ack.identity
    ensures k in r.connections && id in r.connections[k].acks && r.connections[k].acks[id].command == cmd
  {
    hide PendsOn, RejectPending, Settle, Disposes, PrepareCheck, CommitCheck;
  }

  lemma {:induction false} PreparedWasAccepted(steps: seq<R.Step>, max: nat, k: ConnectionId, id: CommandId,
                                               cmd: Command, ack: Ack)
    requires PreparedAs(R.After(steps, max), k, id, cmd, ack)
    ensures R.AckArrives(k, ack) in steps && !ack.rejected && cmd.identity == ack.identity
  {
    hide R.Do, PreparedAs;
    if steps == [] {
      NothingPrepared(k, id, cmd, ack);
    } else {
      var before := steps[..|steps| - 1];
      if PreparedAs(R.After(before, max), k, id, cmd, ack) {
        PreparedWasAccepted(before, max, k, id, cmd, ack);
      } else {
        PreparedByWorker(R.After(before, max), steps[|steps| - 1], max, k, id, cmd, ack);
      }
    }
  }

  lemma NothingPrepared(k: ConnectionId, id: CommandId, cmd: Command, ack: Ack)
    ensures !PreparedAs(EMPTY_ROUTER, k, id, cmd, ack)
  {
  }

  lemma CommitNeeds(r: Router, sandbox: SandboxId, command: Command, ack: Ack, d: Disposition)
    requires CommitCheck(r, sandbox, command, ack, d).Ok? || ReleaseCheck(r, sandbox, command, ack, d).Ok?
    ensures sandbox in r.bySandbox && !ack.rejected
    ensures command.identity == ack.identity == d.identity && d.acknowledged == ack.message
    ensures var k, id := r.bySandbox[sandbox], command.identity.command;
            && k in r.connections && id in r.connections[k].prepared
            && r.connections[k].prepared[id].command.message == command.message
            && r.connections[k].prepared[id].ack.message == ack.message
            && (CommitCheck(r, sandbox, command, ack, d).Ok? ==> CommitCheck(r, sandbox, command, ack, d) == Ok(k))
            && (ReleaseCheck(r, sandbox, command, ack, d).Ok? ==> ReleaseCheck(r, sandbox, command, ack, d) == Ok(k))
  {
  }

  /**
   Over every run: a commit or a release is taken only for a command whose acceptance, under the
   message it shows, arrived from the worker on the very connection that takes it, and only if
   command, acknowledgement and disposition all say the same.
   */
  lemma OnlyAcceptedIsDisposed(steps: seq<R.Step>, max: nat, sandbox: SandboxId, command: Command, ack: Ack,
                               d: Disposition,
                               k: ConnectionId)
    requires var r := R.After(steps, max);
             CommitCheck(r, sandbox, command, ack, d) == Ok(k) || ReleaseCheck(r, sandbox, command, ack, d) == Ok(k)
    ensures command.identity == ack.identity == d.identity && d.acknowledged == ack.message
    ensures exists arrived: Ack, sent: Command ::
              && R.AckArrives(k, arrived) in steps && !arrived.rejected && arrived.message == ack.message
              && PreparedAs(R.After(steps, max), k, command.identity.command, sent, arrived)
              && sent.message == command.message && sent.identity == arrived.identity
  {
    hide R.Do, R.Continue, CommitCheck, ReleaseCheck;
    var r := R.After(steps, max);
    CommitNeeds(r, sandbox, command, ack, d);
    var entry := r.connections[k].prepared[command.identity.command];
    assert PreparedAs(r, k, command.identity.command, entry.command, entry.ack);
    hide PreparedAs, R.After;
    PreparedWasAccepted(steps, max, k, command.identity.command, entry.command, entry.ack);
  }
}
