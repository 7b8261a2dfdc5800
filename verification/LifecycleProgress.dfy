/** How an execution gets done: what each event achieves from the state it is meant for. */
module LifecycleProgress {
  import opened Common
  import opened Assignments
  import opened LifecycleRuns
  import SM = StateMachines

  /** All rows of the execution `c` of turn `t` with current attempt `a`. */
  ghost predicate Rows(l: Lifecycle, c: CommandId, t: TurnId, a: AttemptId, turn: SM.TurnState,
                       command: SM.CommandState,
                       published: bool, run: SM.RunState, attempt: SM.AttemptState, session: SM.SessionState) {
    && Executes(l, c, t) && Assigned(l, t, c) && l.runs[c].current == Some(a)
    && l.turns[t] == turn && l.commands[c].state == command && l.outbox[c].published == published
    && l.runs[c].state == run && l.attempts[a] == attempt && l.state == session
  }

  /** The execution has been claimed and not been acknowledged; its session is at rest. */
  ghost predicate Claimed(l: Lifecycle, c: CommandId, t: TurnId, a: AttemptId, session: SM.SessionState) {
    Rows(l, c, t, a, SM.TurnState.Dispatching, SM.CommandState.Dispatched, false, SM.RunState.Claimed, SM.AttemptState.Claimed, session)
  }

  ghost predicate Working(l: Lifecycle, c: CommandId, t: TurnId, a: AttemptId, turn: SM.TurnState, run: SM.RunState,
                          attempt: SM.AttemptState, session: SM.SessionState) {
    Rows(l, c, t, a, turn, SM.CommandState.Acknowledged, true, run, attempt, session)
  }

  predicate Resting(s: SM.SessionState) {
    s.Cold? || s.Idle?
  }

  // ------------------------------------------------------------------ up to the start

  /** A turn that is admitted can be claimed as soon as its session rests. */
  lemma AdmittedIsClaimable(l: Lifecycle, t: TurnId, c: CommandId, a: AttemptId)
    requires t !in l.turns && c !in l.commands && c !in l.runs && a !in l.attempts
    requires Resting(l.state) && ActiveTurns(l) == {}
    ensures Claimed(Do(Do(l, Admit(t, c)), Dispatch(c, a)), c, t, a, l.state)
  {
    AdmitActive(l, t, c);
    hide ActiveTurns, Along;
  }

  /**
   In a consistent lifecycle an execution can be claimed if and only if it waits, its session rests
   and no turn is active.
   */
  lemma ClaimsIff(l: Lifecycle, c: CommandId, a: AttemptId)
    requires Consistent(l) && a !in l.attempts
    ensures DispatchTarget(l, c, a).Some? <==>
            c in l.commands && l.commands[c].execute && l.commands[c].state.Pending? && Resting(l.state) && ActiveTurns(l) == {}
  {
    if c in l.commands && l.commands[c].execute {
      assert Coherent(l, c);
    }
    hide OneEach, OthersFollow, OneActiveTurn, ActiveTurns, Along;
  }

  lemma ClaimStarts(l: Lifecycle, c: CommandId, t: TurnId, a: AttemptId, session: SM.SessionState)
    requires Claimed(l, c, t, a, session) && Resting(session)
    ensures Working(Do(l, Acknowledge(c, a)), c, t, a, SM.TurnState.Running, SM.RunState.Provisioning, SM.AttemptState.Provisioning, SM.SessionState.Running)
    ensures Rows(Do(l, RejectStart(c, a)), c, t, a, SM.TurnState.Failed, SM.CommandState.Failed, true, SM.RunState.Failed, SM.AttemptState.Failed, session)
  {
    hide ActiveTurns, Along;
  }

  lemma ClaimRetries(l: Lifecycle, c: CommandId, t: TurnId, a: AttemptId, session: SM.SessionState, now: Time)
    requires Claimed(l, c, t, a, session) && Resting(session)
    ensures Rows(Do(l, Retry(c, a, now)), c, t, a, SM.TurnState.Queued, SM.CommandState.Pending, false, SM.RunState.Queued, SM.AttemptState.Failed, session)
    ensures Do(l, Retry(c, a, now)).outbox[c].availableAt == now
  {
    hide ActiveTurns, Along, TargetOf;
  }

  lemma ClaimReclaims(l: Lifecycle, c: CommandId, t: TurnId, a: AttemptId, session: SM.SessionState, b: AttemptId)
    requires Claimed(l, c, t, a, session) && Resting(session) && b !in l.attempts
    ensures Claimed(Do(l, Reclaim(c, b)), c, t, b, session)
    ensures a in Do(l, Reclaim(c, b)).attempts && Do(l, Reclaim(c, b)).attempts[a].Superseded?
  {
    hide ActiveTurns, Along, TargetOf;
  }

  /**
   What a claimed execution can come to: started, turned down for good, put back, or claimed again
   by a fresh attempt.
   */
  lemma ClaimedGoesOn(l: Lifecycle, c: CommandId, t: TurnId, a: AttemptId, session: SM.SessionState, now: Time)
    requires Claimed(l, c, t, a, session) && Resting(session)
    ensures Working(Do(l, Acknowledge(c, a)), c, t, a, SM.TurnState.Running, SM.RunState.Provisioning, SM.AttemptState.Provisioning, SM.SessionState.Running)
    ensures Rows(Do(l, RejectStart(c, a)), c, t, a, SM.TurnState.Failed, SM.CommandState.Failed, true, SM.RunState.Failed, SM.AttemptState.Failed, session)
    ensures Rows(Do(l, Retry(c, a, now)), c, t, a, SM.TurnState.Queued, SM.CommandState.Pending, false, SM.RunState.Queued, SM.AttemptState.Failed, session)
    ensures forall b :: b !in l.attempts ==>
              Claimed(Do(l, Reclaim(c, b)), c, t, b, session) && a in Do(l, Reclaim(c, b)).attempts && Do(l, Reclaim(c, b)).attempts[a].Superseded?
  {
    hide Do, Rows;
    ClaimStarts(l, c, t, a, session);
    ClaimRetries(l, c, t, a, session, now);
    forall b | b !in l.attempts
      ensures Claimed(Do(l, Reclaim(c, b)), c, t, b, session) && a in Do(l, Reclaim(c, b)).attempts
      ensures Do(l, Reclaim(c, b)).attempts[a].Superseded?
    {
      ClaimReclaims(l, c, t, a, session, b);
    }
  }

  // ------------------------------------------------------------------ from the start on

  lemma CompleteEnds(l: Lifecycle, c: CommandId, t: TurnId, a: AttemptId, run: SM.RunState, attempt: SM.AttemptState)
    requires Working(l, c, t, a, SM.TurnState.Running, run, attempt, SM.SessionState.Running)
    ensures Rows(Do(l, Complete(c, a)), c, t, a, SM.TurnState.Completed, SM.CommandState.Completed, true,
                 SM.RunState.Completed, SM.AttemptState.Completed, SM.SessionState.Idle)
    ensures Do(l, Complete(c, a)).turns == l.turns[t := SM.TurnState.Completed]
  {
    hide ActiveTurns, Along;
  }

  lemma FailureEnds(l: Lifecycle, c: CommandId, t: TurnId, a: AttemptId, run: SM.RunState, attempt: SM.AttemptState,
                    timedOut: bool, quarantine: bool)
    requires Working(l, c, t, a, SM.TurnState.Running, run, attempt, SM.SessionState.Running)
    ensures Rows(Do(l, FailRun(c, a, timedOut, quarantine)), c, t, a, SM.TurnState.Failed, SM.CommandState.Failed, true,
                 if timedOut then SM.RunState.TimedOut else SM.RunState.Failed,
                 if timedOut then SM.AttemptState.TimedOut else SM.AttemptState.Failed,
                 if quarantine then SM.SessionState.Failed else SM.SessionState.Idle)
  {
    hide ActiveTurns, Along;
  }

  /** A running execution can end in each of its ways, and every row ends with it. */
  lemma WorkEnds(l: Lifecycle, c: CommandId, t: TurnId, a: AttemptId, run: SM.RunState, attempt: SM.AttemptState,
                 timedOut: bool, quarantine: bool)
    requires Working(l, c, t, a, SM.TurnState.Running, run, attempt, SM.SessionState.Running)
    ensures Rows(Do(l, Complete(c, a)), c, t, a, SM.TurnState.Completed, SM.CommandState.Completed, true,
                 SM.RunState.Completed, SM.AttemptState.Completed, SM.SessionState.Idle)
    ensures Rows(Do(l, FailRun(c, a, timedOut, quarantine)), c, t, a, SM.TurnState.Failed, SM.CommandState.Failed, true,
                 if timedOut then SM.RunState.TimedOut else SM.RunState.Failed,
                 if timedOut then SM.AttemptState.TimedOut else SM.AttemptState.Failed,
                 if quarantine then SM.SessionState.Failed else SM.SessionState.Idle)
  {
    hide Do, Rows;
    CompleteEnds(l, c, t, a, run, attempt);
    FailureEnds(l, c, t, a, run, attempt, timedOut, quarantine);
  }

  lemma WaitMoves(l: Lifecycle, c: CommandId, t: TurnId, a: AttemptId)
    requires Working(l, c, t, a, SM.TurnState.Running, SM.RunState.Running, SM.AttemptState.Running, SM.SessionState.Running)
    ensures Working(Do(l, Wait(c)), c, t, a, SM.TurnState.WaitingApproval, SM.RunState.Running, SM.AttemptState.Running, SM.SessionState.WaitingApproval)
  {
    hide ActiveTurns, Along;
  }

  lemma ResumeMoves(l: Lifecycle, c: CommandId, t: TurnId, a: AttemptId)
    requires Working(l, c, t, a, SM.TurnState.WaitingApproval, SM.RunState.Running, SM.AttemptState.Running, SM.SessionState.WaitingApproval)
    ensures Working(Do(l, Resume(c)), c, t, a, SM.TurnState.Running, SM.RunState.Running, SM.AttemptState.Running, SM.SessionState.Running)
  {
    hide ActiveTurns, Along;
  }

  lemma CancelMoves(l: Lifecycle, c: CommandId, t: TurnId, a: AttemptId)
    requires Working(l, c, t, a, SM.TurnState.Running, SM.RunState.Running, SM.AttemptState.Running, SM.SessionState.Running)
    ensures Working(Do(l, RequestCancel(c)), c, t, a, SM.TurnState.Cancelling, SM.RunState.CancelRequested, SM.AttemptState.CancelRequested, SM.SessionState.Cancelling)
  {
    hide ActiveTurns, Along;
  }

  /** A running execution can wait for an approval and go on, and can be cancelled. */
  lemma WorkMoves(l: Lifecycle, c: CommandId, t: TurnId, a: AttemptId)
    requires Working(l, c, t, a, SM.TurnState.Running, SM.RunState.Running, SM.AttemptState.Running, SM.SessionState.Running)
    ensures Working(Do(l, Wait(c)), c, t, a, SM.TurnState.WaitingApproval, SM.RunState.Running, SM.AttemptState.Running, SM.SessionState.WaitingApproval)
    ensures Working(Do(Do(l, Wait(c)), Resume(c)), c, t, a, SM.TurnState.Running, SM.RunState.Running, SM.AttemptState.Running, SM.SessionState.Running)
    ensures Working(Do(l, RequestCancel(c)), c, t, a, SM.TurnState.Cancelling, SM.RunState.CancelRequested, SM.AttemptState.CancelRequested, SM.SessionState.Cancelling)
  {
    hide Do, Rows;
    WaitMoves(l, c, t, a);
    ResumeMoves(Do(l, Wait(c)), c, t, a);
    CancelMoves(l, c, t, a);
  }

  lemma CancelledEnds(l: Lifecycle, c: CommandId, t: TurnId, a: AttemptId)
    requires Working(l, c, t, a, SM.TurnState.Cancelling, SM.RunState.CancelRequested, SM.AttemptState.CancelRequested, SM.SessionState.Cancelling)
    ensures Rows(Do(l, FinishCancel(c)), c, t, a, SM.TurnState.Cancelled, SM.CommandState.Completed, true, SM.RunState.Cancelled,
                 SM.AttemptState.Cancelled, SM.SessionState.Idle)
  {
    hide ActiveTurns, Along;
  }

  lemma PhaseAdvances(l: Lifecycle, c: CommandId, t: TurnId, a: AttemptId)
    requires Working(l, c, t, a, SM.TurnState.Running, SM.RunState.Provisioning, SM.AttemptState.Provisioning, SM.SessionState.Running)
    ensures Working(Do(l, Advance(c, SM.RunState.Running, SM.AttemptState.Running)), c, t, a, SM.TurnState.Running, SM.RunState.Running,
                    SM.AttemptState.Running, SM.SessionState.Running)
  {
    hide ActiveTurns, Along;
  }

  lemma EventStep(events: seq<Event>, e: Event)
    ensures After(events + [e]) == Do(After(events), e)
  {
    hide Do;
    assert (events + [e])[..|events|] == events;
  }

  /**
   From any reachable lifecycle at rest: a new turn that is admitted, claimed, started and completed
   ends with all its rows completed and leaves the session idle and ready for the next turn.
   */
  lemma WorkGetsDone(events: seq<Event>, t: TurnId, c: CommandId, a: AttemptId)
    requires var l := After(events);
             t !in l.turns && c !in l.commands && c !in l.runs && a !in l.attempts && Resting(l.state) && ActiveTurns(l) == {}
    ensures var l := After(events + [Admit(t, c)] + [Dispatch(c, a)] + [Acknowledge(c, a)] + [Complete(c, a)]);
            && Rows(l, c, t, a, SM.TurnState.Completed, SM.CommandState.Completed, true, SM.RunState.Completed, SM.AttemptState.Completed, SM.SessionState.Idle)
            && ActiveTurns(l) == {}
  {
    hide Do, After, Rows, ActiveTurns, Consistent;
    var l := After(events);
    EventStep(events, Admit(t, c));
    EventStep(events + [Admit(t, c)], Dispatch(c, a));
    EventStep(events + [Admit(t, c)] + [Dispatch(c, a)], Acknowledge(c, a));
    EventStep(events + [Admit(t, c)] + [Dispatch(c, a)] + [Acknowledge(c, a)], Complete(c, a));
    AdmittedIsClaimable(l, t, c, a);
    ClaimedGoesOn(After(events + [Admit(t, c)] + [Dispatch(c, a)]), c, t, a, l.state, 0);
    WorkEnds(After(events + [Admit(t, c)] + [Dispatch(c, a)] + [Acknowledge(c, a)]), c, t, a, SM.RunState.Provisioning,
             SM.AttemptState.Provisioning, false, false);
    RunConsistent(events + [Admit(t, c)] + [Dispatch(c, a)] + [Acknowledge(c, a)]);
    CompletionFrees(After(events + [Admit(t, c)] + [Dispatch(c, a)] + [Acknowledge(c, a)]), c, t, a);
  }

  lemma CompletionFrees(l: Lifecycle, c: CommandId, t: TurnId, a: AttemptId)
    requires Consistent(l)
    requires Working(l, c, t, a, SM.TurnState.Running, SM.RunState.Provisioning, SM.AttemptState.Provisioning, SM.SessionState.Running)
    ensures ActiveTurns(Do(l, Complete(c, a))) == {}
  {
    hide Consistent, Fits, SessionFits, Owns, Along, ActiveTurns, Do;
    CompleteEnds(l, c, t, a, SM.RunState.Provisioning, SM.AttemptState.Provisioning);
    UnderWay(l, c);
    NoneActive(l, Do(l, Complete(c, a)), t);
  }

  lemma NoneActive(l: Lifecycle, l': Lifecycle, t: TurnId)
    requires ActiveTurns(l) == {t} && l'.turns == l.turns[t := SM.TurnState.Completed]
    ensures ActiveTurns(l') == {}
  {
    assert forall u :: u in ActiveTurns(l) <==> u in l.turns && ActiveTurn(l.turns[u]);
  }

  // ------------------------------------------------------------------ finalizing, row by row

  /** A command that settling fails: it belongs to the turn and has not ended. */
  predicate Unfinished(command: Command, t: TurnId) {
    command.turn == t && !SM.TerminalCommand(command.state)
  }

  /** Every row after an acknowledged execution was settled. */
  ghost predicate SettledRows(l: Lifecycle, l': Lifecycle, c: CommandId, t: TurnId)
    requires Assigned(l, t, c)
  {
    && l'.state.Failed? && l'.turns == l.turns[t := SM.TurnState.Failed]
    && l'.runs == l.runs[c := l.runs[c].(state := SM.RunState.Failed)]
    && l'.attempts == l.attempts[l.runs[c].current.value := SM.AttemptState.Failed]
    && l'.commands.Keys == l.commands.Keys && l'.outbox.Keys == l.outbox.Keys
    && (forall d :: d in l.commands ==>
          l'.commands[d] == if Unfinished(l.commands[d], t) then l.commands[d].(state := SM.CommandState.Failed) else l.commands[d])
    && (forall d :: d in l.outbox ==>
          l'.outbox[d] == l.outbox[d].(published := l.outbox[d].published || (d in l.commands && Unfinished(l.commands[d], t))))
    && l'.approvals.Keys == l.approvals.Keys && l'.nodes.Keys == l.nodes.Keys
    && (forall p :: p in l.approvals ==>
          l'.approvals[p] ==
          if l.approvals[p].turn == t && l.approvals[p].state.Pending? then l.approvals[p].(state := SM.ApprovalState.Cancelled) else l.approvals[p])
    && (forall n :: n in l.nodes ==> l'.nodes[n] == if SM.TerminalAgentNode(l.nodes[n]) then l.nodes[n] else SM.AgentNodeState.Failed)
  }

  lemma FailEverythingRows(l: Lifecycle, c: CommandId, t: TurnId)
    requires Assigned(l, t, c)
    ensures SettledRows(l, FailEverything(l, t, c), c, t)
  {
  }

  /** Every row after a dispatched execution was requeued. */
  ghost predicate RequeuedRows(l: Lifecycle, l': Lifecycle, c: CommandId, t: TurnId, now: Time)
    requires Assigned(l, t, c)
  {
    l' == l.(turns := l.turns[t := SM.TurnState.Queued],
             commands := l.commands[c := l.commands[c].(state := SM.CommandState.Pending)],
             outbox := l.outbox[c := l.outbox[c].(availableAt := now)],
             runs := l.runs[c := l.runs[c].(state := SM.RunState.Queued)],
             attempts := l.attempts[l.runs[c].current.value := SM.AttemptState.Failed])
  }

  /**
   Whatever rows it finds, consistent or not, finalizing changes nothing unless exactly one turn is
   active with one open execution; it requeues only work that cannot have been acknowledged, writes
   exactly the rows of that execution, and releases only a session in which nothing runs.
   */
  lemma FinalizeExactly(l: Lifecycle, now: Time)
    requires Finalize(l, now).Ok?
    ensures var l' := Finalize(l, now).value.0;
            match Finalize(l, now).value.1
            case Released => l' == l && ActiveTurns(l) == {} && !(l.state.Starting? || l.state.Running? || l.state.WaitingApproval? || l.state.Cancelling?)
            case Requeued => exists c, t :: Finalized(l, c, t) && RequeuedRows(l, l', c, t, now) && NeverAcknowledged(l, c, t)
            case Settled => exists c, t :: Finalized(l, c, t) && SettledRows(l, l', c, t)
            case Skipped => false
  {
    var active := ActiveTurns(l);
    if |active| == 0 {
      assert active == {};
    } else {
      hide SettledRows, RequeuedRows, ExecuteCommands, ActiveTurns, Requeue, FailEverything, CanRequeue,
        CanFailEverything,
        SafelyUnacknowledged;
      var t := Only(active);
      var c := Only(ExecuteCommands(l, t));
      FinalizedIs(l, c, t);
      FailEverythingRows(l, c, t);
      RequeueRows(l, c, t, now);
      SafelyIs(l, c, t);
    }
  }

  /** Turn `t` is the only active one and `c` its only open execution. */
  ghost predicate Finalized(l: Lifecycle, c: CommandId, t: TurnId) {
    ActiveTurns(l) == {t} && ExecuteCommands(l, t) == {c} && Assigned(l, t, c)
  }

  lemma FinalizedIs(l: Lifecycle, c: CommandId, t: TurnId)
    requires ActiveTurns(l) == {t} && ExecuteCommands(l, t) == {c} && Assigned(l, t, c)
    ensures Finalized(l, c, t)
  {
  }

  lemma RequeueRows(l: Lifecycle, c: CommandId, t: TurnId, now: Time)
    requires Assigned(l, t, c)
    ensures RequeuedRows(l, Requeue(l, t, c, now), c, t, now)
  {
  }

  /**
   The command is dispatched and unpublished, its turn dispatching, its session at rest, and no
   other command of the turn is open.
   */
  ghost predicate NeverAcknowledged(l: Lifecycle, c: CommandId, t: TurnId)
    requires Assigned(l, t, c)
  {
    && l.commands[c].state.Dispatched? && l.turns[t].Dispatching? && !l.outbox[c].published
    && (l.state.Cold? || l.state.Idle?)
    && forall d :: d in l.commands && Unfinished(l.commands[d], t) ==> d == c
  }

  lemma SafelyIs(l: Lifecycle, c: CommandId, t: TurnId)
    requires Assigned(l, t, c)
    ensures SafelyUnacknowledged(l, t, c) ==> NeverAcknowledged(l, c, t)
  {
    if SafelyUnacknowledged(l, t, c) {
      assert forall d :: d in l.commands && Unfinished(l.commands[d], t) ==> d in OpenCommands(l, t);
    }
  }

  // ------------------------------------------------------------------ pruning

  /** A prune makes a session idle exactly if it is at rest and every turn has ended; else it leaves it. */
  lemma PruneRests(l: Lifecycle)
    ensures var free := (l.state.Cold? || l.state.Idle? || l.state.Failed?) && forall t :: t in l.turns ==> SM.TerminalTurn(l.turns[t]);
            Do(l, PruneToIdle) == if free then l.(state := SM.SessionState.Idle) else l
  {
    hide TargetOf;
  }
}
