/**
 What a steer records is what the worker did: over every valid channel a delivery may start on, and
 everything that may happen on the channel while it waits.
 */
module SteerHonesty {
  import opened Common
  import opened ControlChannel
  import opened Steering
  import R = ControlChannelRuns
  import SM = StateMachines

  // ------------------------------------------------------------------ the promises of a delivery

  lemma AtAckValid(r: Router, x: Script, max: nat)
    requires Valid(r, max)
    ensures Valid(AtAck(r, x, max), max) && SettledStay(r.promises, AtAck(r, x, max).promises)
  {
    hide Valid, R.Continue, R.Do, SettledStay, PrepareCheck;
    var mid := R.Do(r, R.PrepareStep(x.sandbox, x.command, x.prepare), max);
    R.StaysRefl(r.promises);
    R.DoValid(r, R.PrepareStep(x.sandbox, x.command, x.prepare), max);
    R.ContinueValid(mid, x.untilAck, max);
    R.StaysOn(r.promises, mid.promises, R.Continue(mid, x.untilAck, max).promises);
  }

  lemma AtResultValid(r: Router, x: Script, ack: Ack, commit: Disposition, max: nat)
    requires Valid(r, max)
    ensures Valid(AtResult(r, x, ack, commit, max), max)
    ensures SettledStay(r.promises, AtResult(r, x, ack, commit, max).promises)
  {
    hide Valid, R.Continue, R.Do, SettledStay, CommitCheck;
    var step := R.CommitStep(x.sandbox, x.command, ack, commit, x.commit);
    var mid := R.Do(r, step, max);
    R.StaysRefl(r.promises);
    R.DoValid(r, step, max);
    R.ContinueValid(mid, x.untilResult, max);
    R.StaysOn(r.promises, mid.promises, R.Continue(mid, x.untilResult, max).promises);
  }

  /** The prepare's promise is about the command, on the connection that took it, and not settled yet. */
  lemma PreparePromised(r: Router, x: Script, max: nat)
    requires x.prepare !in r.promises && PrepareCheck(r, x.sandbox, x.command, max).Ok?
    ensures var k := PrepareCheck(r, x.sandbox, x.command, max).value;
            var promises := R.Do(r, R.PrepareStep(x.sandbox, x.command, x.prepare), max).promises;
            x.prepare in promises && promises[x.prepare] == Promise(k, x.command, None, Waiting)
  {
  }

  lemma CommitPromised(r: Router, x: Script, ack: Ack, commit: Disposition, max: nat)
    requires x.commit !in r.promises && CommitCheck(r, x.sandbox, x.command, ack, commit).Ok?
    ensures var k := CommitCheck(r, x.sandbox, x.command, ack, commit).value;
            var promises := R.Do(r, R.CommitStep(x.sandbox, x.command, ack, commit, x.commit), max).promises;
            x.commit in promises && promises[x.commit] == Promise(k, x.command, Some(commit.message), Waiting)
  {
    hide Disposes;
  }

  lemma StillThere(before: map<PromiseId, Promise>, after: map<PromiseId, Promise>, p: PromiseId)
    requires SettledStay(before, after) && p in before
    ensures p in after && after[p].connection == before[p].connection
    ensures after[p].sent == before[p].sent && after[p].commit == before[p].commit
  {
  }

  /** What a waiting caller can have been told: the worker's own word about its exchange, or a refusal. */
  ghost predicate FairAnswer(steps: seq<R.Step>, k: ConnectionId, promise: Promise) {
    match promise.outcome
    case Acked(ack) => R.AckArrives(k, ack) in steps && !promise.commits && ack.identity == promise.sent.identity
    case Resulted(result) =>
      && R.ResultArrives(k, result) in steps && promise.commit == Some(result.commit)
      && result.identity == promise.sent.identity && result.steer
    case Rejected(e) => if promise.commits then !e.retryable && e.ambiguous else e.retryable && !e.ambiguous
    case Waiting => true
  }

  lemma WaitedFairly(r: Router, steps: seq<R.Step>, max: nat, p: PromiseId)
    requires Valid(r, max) && p in r.promises && r.promises[p].outcome.Waiting?
    ensures var after := R.Continue(r, steps, max).promises;
            p in after && after[p].sent == r.promises[p].sent && after[p].commit == r.promises[p].commit &&
            FairAnswer(steps, r.promises[p].connection, after[p])
  {
    hide Valid, SettledStay, R.Continue;
    var r' := R.Continue(r, steps, max);
    R.ContinueValid(r, steps, max);
    StillThere(r.promises, r'.promises, p);
    R.PromiseHonest(r', p, max);
    match r'.promises[p].outcome
    case Acked(ack) => R.AcknowledgedByWorker(r, steps, max, p, r.promises[p].connection, ack);
    case Resulted(result) => R.ResultedByWorker(r, steps, max, p, r.promises[p].connection, result);
    case _ =>
  }

  lemma AckAnswer(r: Router, x: Script, max: nat)
    requires Valid(r, max) && x.prepare !in r.promises && x.early.None?
    requires PrepareCheck(r, x.sandbox, x.command, max).Ok?
    ensures var k := PrepareCheck(r, x.sandbox, x.command, max).value;
            FairAnswer(x.untilAck, k, Promise(k, x.command, None, Answer(AtAck(r, x, max).promises, x.prepare)))
  {
    hide Valid, R.Continue, R.Do, SettledStay, PrepareCheck;
    var step := R.PrepareStep(x.sandbox, x.command, x.prepare);
    R.DoValid(r, step, max);
    PreparePromised(r, x, max);
    WaitedFairly(R.Do(r, step, max), x.untilAck, max, x.prepare);
  }

  lemma ResultAnswer(r: Router, x: Script, ack: Ack, commit: Disposition, max: nat)
    requires Valid(r, max) && x.commit !in r.promises && CommitCheck(r, x.sandbox, x.command, ack, commit).Ok?
    ensures var k := CommitCheck(r, x.sandbox, x.command, ack, commit).value;
            FairAnswer(x.untilResult, k,
                       Promise(k, x.command, Some(commit.message), Answer(AtResult(r, x, ack, commit, max).promises, x.commit)))
  {
    hide Valid, R.Continue, R.Do, SettledStay, CommitCheck;
    var step := R.CommitStep(x.sandbox, x.command, ack, commit, x.commit);
    R.DoValid(r, step, max);
    CommitPromised(r, x, ack, commit, max);
    WaitedFairly(R.Do(r, step, max), x.untilResult, max, x.commit);
  }

  // ------------------------------------------------------------------ the worker's word

  /**
   The worker accepted the command, the commit was taken, and while the delivery waited for it the
   worker's readable answer to that very commit of that very command arrived, with `status`.
   */
  ghost predicate WorkerSaid(r: Router, x: Script, max: nat, status: ResultStatus) {
    match Shake(r, x, max)
    case Accepted(ack, commit) =>
      var check := CommitCheck(AtAck(r, x, max), x.sandbox, x.command, ack, commit);
      && check.Ok? && x.resultUnread.None?
      && WorkerResulted(x, check.value, commit, Answer(AtResult(AtAck(r, x, max), x, ack, commit, max).promises, x.commit), status)
    case _ => false
  }

  ghost predicate WorkerResulted(x: Script, k: ConnectionId, commit: Disposition, outcome: Outcome,
                                 status: ResultStatus) {
    && outcome.Resulted? && outcome.result.status == status && R.ResultArrives(k, outcome.result) in x.untilResult
    && outcome.result.identity == x.command.identity && outcome.result.commit == commit.message && outcome.result.steer
  }

  /** What the answer to the commit makes of the delivery. */
  lemma ReadExactly(x: Script, k: ConnectionId, commit: Disposition, outcome: Outcome)
    requires FairAnswer(x.untilResult, k, Promise(k, x.command, Some(commit.message), outcome))
    ensures var c := ReadResult(x, commit, outcome);
            && (c.Succeeded? <==> x.resultUnread.None? && WorkerResulted(x, k, commit, outcome, ResultStatus.Completed))
            && (c.Broke? && !NormalizeSteerError(c.thrown, true).ambiguous <==>
                  x.resultUnread.None? && WorkerResulted(x, k, commit, outcome, ResultStatus.Failed))
            && (c.Broke? && NormalizeSteerError(c.thrown, true).ambiguous ==> !NormalizeSteerError(c.thrown, true).retryable)
  {
  }

  /** The commit of an accepted command is refused only in a way that leaves its outcome in doubt. */
  lemma RefusedInDoubt(r: Router, x: Script, ack: Ack, commit: Disposition)
    requires !ack.rejected && CommitCheck(r, x.sandbox, x.command, ack, commit).Err?
    ensures NormalizeSteerError(Channel(CommitCheck(r, x.sandbox, x.command, ack, commit).error), true) == BackendError(false, true)
  {
    hide Disposes;
  }

  lemma ShakenAccepted(r: Router, x: Script, max: nat)
    requires Shake(r, x, max).Accepted?
    ensures x.early.None? && PrepareCheck(r, x.sandbox, x.command, max).Ok? && !Shake(r, x, max).ack.rejected
  {
    hide PrepareCheck, R.Continue, R.Do;
  }

  /** How an accepted command ends once its commit has been begun. */
  lemma CommittedEnding(r: Router, x: Script, max: nat)
    requires Valid(r, max) && Fresh(r, x, max) && Shake(r, x, max).Accepted?
    ensures var h := Shake(r, x, max);
            var c := Conclude(AtAck(r, x, max), x, h.ack, h.commit, max);
            && (c.Succeeded? <==> WorkerSaid(r, x, max, ResultStatus.Completed))
            && (c.Broke? && !NormalizeSteerError(c.thrown, true).ambiguous <==> WorkerSaid(r, x, max, ResultStatus.Failed))
            && (c.Broke? && NormalizeSteerError(c.thrown, true).ambiguous ==> !NormalizeSteerError(c.thrown, true).retryable)
  {
    hide Valid, AtAck, AtResult, CommitCheck, ReadResult, WorkerResulted, NormalizeSteerError, FairAnswer;
    ShakenAccepted(r, x, max);
    AtAckValid(r, x, max);
    var h := Shake(r, x, max);
    hide Shake;
    var r1 := AtAck(r, x, max);
    if CommitCheck(r1, x.sandbox, x.command, h.ack, h.commit).Err? {
      RefusedInDoubt(r1, x, h.ack, h.commit);
    } else {
      ResultAnswer(r1, x, h.ack, h.commit, max);
      ReadExactly(x, CommitCheck(r1, x.sandbox, x.command, h.ack, h.commit).value, h.commit,
                  Answer(AtResult(r1, x, h.ack, h.commit, max).promises, x.commit));
    }
  }

  /** Before the commit is begun nothing that is thrown leaves the outcome in doubt. */
  lemma StoppedClear(r: Router, x: Script, max: nat)
    ensures Shake(r, x, max).Stopped? ==> !NormalizeSteerError(Shake(r, x, max).thrown, false).ambiguous
    ensures Shake(r, x, max).Undisposed? ==> !NormalizeSteerError(FromEarly(Shake(r, x, max).error), false).ambiguous
  {
    hide PrepareCheck, AtAck, Answer;
  }

  /** The delivery is over, and its commit was never begun. */
  predicate EndedUncommitted(d: Delivery) {
    !d.attempted && !d.ending.Unsettled?
  }

  /**
   A delivery marks an open command completed if and only if the worker's completion of it arrived,
   and failed if and only if the worker's failure of it arrived or its commit was never begun;
   otherwise the command stays as it was.
   */
  lemma SteerOutcomeHonest(r: Router, x: Script, max: nat, s: SM.CommandState)
    requires Valid(r, max) && Fresh(r, x, max) && !SM.TerminalCommand(s)
    ensures var d := Steer(r, x, max);
            && (Record(s, d).Completed? <==> WorkerSaid(r, x, max, ResultStatus.Completed))
            && (Record(s, d).Failed? <==> WorkerSaid(r, x, max, ResultStatus.Failed) || EndedUncommitted(d))
            && (Record(s, d).Completed? || Record(s, d).Failed? || Record(s, d) == s)
  {
    hide Valid, Fresh, Shake, Conclude, NormalizeSteerError;
    StoppedClear(r, x, max);
    if Shake(r, x, max).Accepted? {
      CommittedEnding(r, x, max);
    }
    hide AtAck, AtResult, CommitCheck, WorkerResulted;
  }

  /**
   Once the commit has been begun, every ending but the worker's own word, whatever the channel
   does, is final and ambiguous, attempts no release, and leaves the command as it is; a delivery still waiting
   leaves it too.
   */
  lemma CommittedFailuresAmbiguous(r: Router, x: Script, max: nat, s: SM.CommandState)
    requires Valid(r, max) && Fresh(r, x, max) && Steer(r, x, max).attempted
    requires !WorkerSaid(r, x, max, ResultStatus.Completed) && !WorkerSaid(r, x, max, ResultStatus.Failed)
    ensures var d := Steer(r, x, max);
            d.ending in {Threw(BackendError(false, true)), Unsettled} && !d.released && Record(s, d) == s
  {
    hide Valid, Fresh, Shake, Conclude, WorkerSaid, NormalizeSteerError;
    CommittedEnding(r, x, max);
    hide AtAck;
  }

  /**
   A delivery that ends before its commit is begun is never in doubt; and it attempts a release if
   and only if the worker accepted the command, its commit could not be built and the release could.
   */
  lemma UncommittedFailuresClear(r: Router, x: Script, max: nat, s: SM.CommandState)
    requires Valid(r, max) && Fresh(r, x, max) && !SM.TerminalCommand(s) && EndedUncommitted(Steer(r, x, max))
    ensures var d := Steer(r, x, max);
            && Record(s, d).Failed? && (d.ending.Threw? ==> !d.ending.error.ambiguous)
            && (d.released <==> AcceptanceRead(r, x, max) && x.disposition.Err? && x.release.Some?)
            && (d.ending.Escaped? <==> AcceptanceRead(r, x, max) && x.disposition.Err? && x.release.None?)
  {
    hide Valid, NormalizeSteerError, AtAck, PrepareCheck, Shake, AcceptanceRead;
    StoppedClear(r, x, max);
    AcceptanceIs(r, x, max);
  }

  /** The worker's acceptance of the command arrived while the delivery waited, and could be read. */
  ghost predicate AcceptanceRead(r: Router, x: Script, max: nat) {
    && x.early.None? && x.ackUnread.None? && PrepareCheck(r, x.sandbox, x.command, max).Ok?
    && exists ack :: R.AckArrives(PrepareCheck(r, x.sandbox, x.command, max).value, ack) in x.untilAck && !ack.rejected &&
         ack.identity == x.command.identity && Answer(AtAck(r, x, max).promises, x.prepare) == Acked(ack)
  }

  lemma AcceptanceIs(r: Router, x: Script, max: nat)
    requires Valid(r, max) && x.prepare !in r.promises
    ensures AcceptanceRead(r, x, max) <==> Shake(r, x, max).Accepted? || Shake(r, x, max).Undisposed?
    ensures Shake(r, x, max).Undisposed? ==> x.disposition.Err?
    ensures Shake(r, x, max).Accepted? ==> x.disposition.Ok?
  {
    hide Valid, AtAck, PrepareCheck;
    if x.early.None? && PrepareCheck(r, x.sandbox, x.command, max).Ok? {
      AckAnswer(r, x, max);
    }
  }

  /** The answers of the worker that a delivery refuses as not meant for it never reach it. */
  lemma ForeignAnswersImpossible(r: Router, x: Script, max: nat)
    requires Valid(r, max) && Fresh(r, x, max) && x.early.None? && PrepareCheck(r, x.sandbox, x.command, max).Ok?
    ensures var answer := Answer(AtAck(r, x, max).promises, x.prepare);
            !answer.Resulted? && (answer.Acked? ==> answer.ack.identity == x.command.identity)
    ensures match Shake(r, x, max)
            case Accepted(ack, commit) =>
              CommitCheck(AtAck(r, x, max), x.sandbox, x.command, ack, commit).Ok? ==>
                var answer := Answer(AtResult(AtAck(r, x, max), x, ack, commit, max).promises, x.commit);
                && !answer.Acked?
                && (answer.Resulted? ==> answer.result.identity == x.command.identity && answer.result.commit == commit.message &&
                                         answer.result.steer)
            case _ => true
  {
    hide Valid, AtAck, AtResult, PrepareCheck, CommitCheck, ReadAck;
    AckAnswer(r, x, max);
    AtAckValid(r, x, max);
    match Shake(r, x, max)
    case Accepted(ack, commit) =>
      if CommitCheck(AtAck(r, x, max), x.sandbox, x.command, ack, commit).Ok? {
        ResultAnswer(AtAck(r, x, max), x, ack, commit, max);
      }
    case _ =>
  }

  // ------------------------------------------------------------------ failed without a commit

  /** A commit of the command sent as `m` has been taken by the channel. */
  ghost predicate CommitTaken(promises: map<PromiseId, Promise>, m: MessageId) {
    exists p :: p in promises && promises[p].commits && promises[p].sent.message == m
  }

  predicate CommitsMessage(step: R.Step, m: MessageId) {
    step.CommitStep? && step.command.message == m
  }

  lemma NewCommit(r: Router, step: R.Step, max: nat, p: PromiseId)
    requires p in R.Do(r, step, max).promises && p !in r.promises && R.Do(r, step, max).promises[p].commits
    ensures CommitsMessage(step, R.Do(r, step, max).promises[p].sent.message)
  {
    hide PendsOn, DetachError, Live, Disposes, PrepareCheck, CommitCheck, Answers;
  }

  lemma StepTakesNoCommit(r: Router, step: R.Step, max: nat, m: MessageId)
    requires Valid(r, max) && !CommitTaken(r.promises, m) && !CommitsMessage(step, m)
    ensures !CommitTaken(R.Do(r, step, max).promises, m)
  {
    hide Valid, R.Do, SettledStay, CommitsMessage;
    R.DoValid(r, step, max);
    var promises := R.Do(r, step, max).promises;
    forall p | p in promises && promises[p].commits
      ensures promises[p].sent.message != m
    {
      if p in r.promises {
        StillThere(r.promises, promises, p);
      } else {
        NewCommit(r, step, max, p);
      }
    }
  }

  lemma {:induction false} NoCommitTaken(r: Router, steps: seq<R.Step>, max: nat, m: MessageId)
    requires Valid(r, max) && !CommitTaken(r.promises, m)
    requires forall step :: step in steps ==> !CommitsMessage(step, m)
    ensures !CommitTaken(R.Continue(r, steps, max).promises, m)
  {
    hide Valid, R.Do, SettledStay, CommitsMessage, CommitTaken;
    if steps != [] {
      var before := steps[..|steps| - 1];
      NoCommitTaken(r, before, max, m);
      R.ContinueValid(r, before, max);
      StepTakesNoCommit(R.Continue(r, before, max), steps[|steps| - 1], max, m);
    }
  }

  /** Nobody else commits the message of this delivery. */
  ghost predicate OwnMessage(x: Script) {
    && (forall step :: step in x.untilAck ==> !CommitsMessage(step, x.command.message))
    && (forall step :: step in x.untilSent ==> !CommitsMessage(step, x.command.message))
  }

  lemma AtAckTakesNoCommit(r: Router, x: Script, max: nat)
    requires Valid(r, max) && OwnMessage(x) && !CommitTaken(r.promises, x.command.message)
    ensures !CommitTaken(AtAck(r, x, max).promises, x.command.message)
  {
    hide Valid, R.Do, R.Continue, CommitTaken, PrepareCheck, SettledStay;
    var step := R.PrepareStep(x.sandbox, x.command, x.prepare);
    R.DoValid(r, step, max);
    StepTakesNoCommit(r, step, max, x.command.message);
    NoCommitTaken(R.Do(r, step, max), x.untilAck, max, x.command.message);
  }

  lemma AtReleaseTakesNoCommit(r: Router, x: Script, ack: Ack, max: nat)
    requires Valid(r, max) && OwnMessage(x) && !CommitTaken(r.promises, x.command.message)
    ensures !CommitTaken(AtRelease(r, x, ack, max).promises, x.command.message)
  {
    hide Valid, R.Do, R.Continue, CommitTaken, ReleaseCheck, SettledStay;
    if x.release.Some? {
      var check := ReleaseCheck(r, x.sandbox, x.command, ack, Dispose(x, x.release.value, ack));
      if check.Ok? {
        NoCommitTaken(r, x.untilSent, max, x.command.message);
        R.ContinueValid(r, x.untilSent, max);
        StepTakesNoCommit(R.Continue(r, x.untilSent, max), R.ReleaseWasSent(check.value, x.command.identity.command), max,
                          x.command.message);
      }
    }
  }

  /**
   A command that is marked failed without the worker's word was never committed: no commit of its
   message is on the channel when the delivery ends.
   */
  lemma FailedWasNotCommitted(r: Router, x: Script, max: nat, s: SM.CommandState)
    requires Valid(r, max) && Fresh(r, x, max) && !SM.TerminalCommand(s) && OwnMessage(x)
    requires !CommitTaken(r.promises, x.command.message)
    requires Record(s, Steer(r, x, max)).Failed? && !WorkerSaid(r, x, max, ResultStatus.Failed)
    ensures !CommitTaken(Steered(r, x, max).promises, x.command.message)
  {
    hide Valid, Fresh, OwnMessage, CommitTaken, WorkerSaid, Record, AtAck, AtRelease, AtResult, Shake, Conclude;
    SteerOutcomeHonest(r, x, max, s);
    AtAckValid(r, x, max);
    AtAckTakesNoCommit(r, x, max);
    if Shake(r, x, max).Undisposed? {
      AtReleaseTakesNoCommit(AtAck(r, x, max), x, Shake(r, x, max).ack, max);
    }
  }

  // ------------------------------------------------------------------ what a delivery leaves behind

  lemma AtReleaseValid(r: Router, x: Script, ack: Ack, max: nat)
    requires Valid(r, max)
    ensures Valid(AtRelease(r, x, ack, max), max) && SettledStay(r.promises, AtRelease(r, x, ack, max).promises)
  {
    hide Valid, R.Do, R.Continue, ReleaseCheck, SettledStay;
    R.StaysRefl(r.promises);
    if x.release.Some? {
      var check := ReleaseCheck(r, x.sandbox, x.command, ack, Dispose(x, x.release.value, ack));
      if check.Ok? {
        var mid := R.Continue(r, x.untilSent, max);
        var last := R.ReleaseWasSent(check.value, x.command.identity.command);
        R.ContinueValid(r, x.untilSent, max);
        R.DoValid(mid, last, max);
        R.StaysOn(r.promises, mid.promises, R.Do(mid, last, max).promises);
      }
    }
  }

  /**
   A delivery ends on a valid channel, and changes no promise that was settled at its start or at
   its acknowledgement.
   */
  lemma SteeredValid(r: Router, x: Script, max: nat)
    requires Valid(r, max)
    ensures Valid(Steered(r, x, max), max)
    ensures SettledStay(r.promises, Steered(r, x, max).promises)
    ensures SettledStay(AtAck(r, x, max).promises, Steered(r, x, max).promises)
  {
    hide Valid, SettledStay, AtAck, AtRelease, AtResult, Shake;
    var r1 := AtAck(r, x, max);
    AtAckValid(r, x, max);
    R.StaysRefl(r1.promises);
    match Shake(r, x, max) {
      case Undisposed(ack, _) => AtReleaseValid(r1, x, ack, max);
      case Accepted(ack, commit) => AtResultValid(r1, x, ack, commit, max);
      case _ =>
    }
    R.StaysOn(r.promises, r1.promises, Steered(r, x, max).promises);
  }

  /** Nothing on the channel waits to settle promise `p`. */
  ghost predicate Unawaited(r: Router, p: PromiseId) {
    && (forall k, id :: k in r.connections && id in r.connections[k].acks ==> r.connections[k].acks[id].promise != p)
    && (forall k, id :: k in r.connections && id in r.connections[k].results ==> r.connections[k].results[id].promise != p)
  }

  lemma SettledUnawaited(r: Router, p: PromiseId, max: nat)
    requires Valid(r, max) && (p in r.promises ==> !r.promises[p].outcome.Waiting?)
    ensures Unawaited(r, p)
  {
    hide AllOk, Indexed, OutcomesHonest;
    forall k, id | k in r.connections && id in r.connections[k].acks
      ensures r.connections[k].acks[id].promise != p
    {
      assert AckPromised(r.promises, k, id, r.connections[k].acks[id]);
    }
    forall k, id | k in r.connections && id in r.connections[k].results
      ensures r.connections[k].results[id].promise != p
    {
      assert ResultPromised(r.promises, k, id, r.connections[k].results[id]);
    }
  }

  /** The promises a delivery made are settled once it has stopped waiting for them. */
  lemma OwnSettled(r: Router, x: Script, max: nat)
    requires Fresh(r, x, max) && !Steer(r, x, max).ending.Unsettled?
    ensures var promises := AtAck(r, x, max).promises;
            if x.prepare in promises then !promises[x.prepare].outcome.Waiting? else Steered(r, x, max) == AtAck(r, x, max)
    ensures var promises := Steered(r, x, max).promises;
            Steer(r, x, max).attempted && x.commit in promises ==> !promises[x.commit].outcome.Waiting?
  {
    hide PrepareCheck, CommitCheck, R.Continue, R.Do, NormalizeSteerError, AtRelease;
  }

  lemma StaysSettled(before: map<PromiseId, Promise>, after: map<PromiseId, Promise>, p: PromiseId)
    requires SettledStay(before, after) && p in before && !before[p].outcome.Waiting?
    ensures p in after && after[p] == before[p]
  {
  }

  /**
   A delivery leaves the channel valid with every promise settled before it as it was; and one that
   is over leaves nothing of its own behind: no entry of any connection waits for its
   acknowledgement or, once its commit was begun, for its result.
   */
  lemma NothingLeftPending(r: Router, x: Script, max: nat)
    requires Valid(r, max) && Fresh(r, x, max)
    ensures Valid(Steered(r, x, max), max) && SettledStay(r.promises, Steered(r, x, max).promises)
    ensures var d := Steer(r, x, max);
            !d.ending.Unsettled? ==>
              Unawaited(Steered(r, x, max), x.prepare) && (d.attempted ==> Unawaited(Steered(r, x, max), x.commit))
  {
    SteeredValid(r, x, max);
    hide Valid, SettledStay, Steer, Steered, AtAck, Unawaited;
    var end := Steered(r, x, max);
    if !Steer(r, x, max).ending.Unsettled? {
      OwnSettled(r, x, max);
      if x.prepare in AtAck(r, x, max).promises {
        StaysSettled(AtAck(r, x, max).promises, end.promises, x.prepare);
      }
      SettledUnawaited(end, x.prepare, max);
      if Steer(r, x, max).attempted {
        SettledUnawaited(end, x.commit, max);
      }
    }
  }
}
