/**
 Runs of one session's rows: what the executor, the cancellation and steering services and the
 reconciler do to them, and why work that was acknowledged is never dispatched again.
 */
module LifecycleRuns {
  import opened Common
  import opened Assignments
  import SM = StateMachines

  // ------------------------------------------------------------------ one execution moves

  /** The rows of one execution change together. */
  function Move(l: Lifecycle, c: CommandId, a: AttemptId, turn: SM.TurnState, command: SM.CommandState, row: OutboxRow,
                run: SM.RunState, attempt: SM.AttemptState, session: SM.SessionState): Lifecycle
    requires c in l.commands
  {
    var t := l.commands[c].turn;
    l.(state := session,
       turns := l.turns[t := turn],
       commands := l.commands[c := l.commands[c].(state := command)],
       outbox := l.outbox[c := row],
       runs := l.runs[c := Run(t, run, Some(a))],
       attempts := l.attempts[a := attempt])
  }

  predicate Early(t: SM.TurnState) {
    t.Queued? || t.Dispatching?
  }

  /** The attempt belongs to this execution's run or to none. */
  ghost predicate Owns(l: Lifecycle, c: CommandId, a: AttemptId) {
    forall d :: d in l.runs && d != c ==> l.runs[d].current != Some(a)
  }

  ghost predicate Movable(l: Lifecycle, c: CommandId, a: AttemptId, turn: SM.TurnState, session: SM.SessionState) {
    && c in l.commands && l.commands[c].execute && l.commands[c].turn in l.turns
    && Owns(l, c, a)
    && ActiveTurns(l) <= {l.commands[c].turn}
    && (if ActiveTurn(turn) then SessionFits(session, turn) else !ActiveSession(session))
    && (Early(turn) ==> Early(l.turns[l.commands[c].turn]))
  }

  lemma MoveCoherent(l: Lifecycle, c: CommandId, a: AttemptId, turn: SM.TurnState, command: SM.CommandState,
                     row: OutboxRow,
                     run: SM.RunState, attempt: SM.AttemptState, session: SM.SessionState)
    requires AllCoherent(l) && OneEach(l) && Movable(l, c, a, turn, session)
    requires Fits(turn, command, row.published, run, Some(attempt))
    ensures AllCoherent(Move(l, c, a, turn, command, row, run, attempt, session))
  {
    var l' := Move(l, c, a, turn, command, row, run, attempt, session);
    forall d | d in l'.commands && l'.commands[d].execute
      ensures Coherent(l', d)
    {
      hide Fits, ActiveTurns, SM.TerminalTurn;
      if d != c {
        assert Coherent(l, d);
        assert l.commands[d].turn != l.commands[c].turn by {
          assert Executes(l, d, l.commands[d].turn) && Executes(l, c, l.commands[c].turn);
        }
      }
    }
  }

  lemma MoveOneEach(l: Lifecycle, c: CommandId, a: AttemptId, turn: SM.TurnState, command: SM.CommandState,
                    row: OutboxRow,
                    run: SM.RunState, attempt: SM.AttemptState, session: SM.SessionState)
    requires OneEach(l) && Movable(l, c, a, turn, session)
    ensures OneEach(Move(l, c, a, turn, command, row, run, attempt, session))
  {
    var l' := Move(l, c, a, turn, command, row, run, attempt, session);
    assert forall d, t :: Executes(l', d, t) <==> Executes(l, d, t);
    hide Executes, ActiveTurns, ActiveSession, SessionFits, Early;
  }

  lemma MoveActive(l: Lifecycle, c: CommandId, a: AttemptId, turn: SM.TurnState, command: SM.CommandState,
                   row: OutboxRow,
                   run: SM.RunState, attempt: SM.AttemptState, session: SM.SessionState)
    requires Movable(l, c, a, turn, session)
    ensures OneActiveTurn(Move(l, c, a, turn, command, row, run, attempt, session))
  {
    var l' := Move(l, c, a, turn, command, row, run, attempt, session);
    var t := l.commands[c].turn;
    assert forall u :: u in ActiveTurns(l') && u != t ==> u in ActiveTurns(l);
    assert ActiveTurns(l') == if ActiveTurn(turn) then {l.commands[c].turn} else {};
    hide ActiveTurns, SessionFits, ActiveSession, Owns;
  }

  lemma MoveOthers(l: Lifecycle, c: CommandId, a: AttemptId, turn: SM.TurnState, command: SM.CommandState,
                   row: OutboxRow,
                   run: SM.RunState, attempt: SM.AttemptState, session: SM.SessionState)
    requires OthersFollow(l) && Movable(l, c, a, turn, session)
    ensures OthersFollow(Move(l, c, a, turn, command, row, run, attempt, session))
  {
    hide ActiveTurns, SessionFits, ActiveSession, Owns;
  }

  lemma MoveConsistent(l: Lifecycle, c: CommandId, a: AttemptId, turn: SM.TurnState, command: SM.CommandState,
                       row: OutboxRow,
                       run: SM.RunState, attempt: SM.AttemptState, session: SM.SessionState)
    requires Consistent(l) && Movable(l, c, a, turn, session)
    requires Fits(turn, command, row.published, run, Some(attempt))
    ensures Consistent(Move(l, c, a, turn, command, row, run, attempt, session))
  {
    hide AllCoherent, OneEach, OthersFollow, OneActiveTurn, Movable, Move;
    MoveCoherent(l, c, a, turn, command, row, run, attempt, session);
    MoveOneEach(l, c, a, turn, command, row, run, attempt, session);
    MoveActive(l, c, a, turn, command, row, run, attempt, session);
    MoveOthers(l, c, a, turn, command, row, run, attempt, session);
  }

  // ------------------------------------------------------------------ everything beside the execution

  /** The executions are untouched: only other commands, outbox rows of others, approvals and nodes change. */
  ghost predicate SameExecutions(l: Lifecycle, l': Lifecycle) {
    && l'.state == l.state && l'.turns == l.turns && l'.runs == l.runs && l'.attempts == l.attempts
    && l'.commands.Keys >= l.commands.Keys
    && (forall c :: c in l.commands ==>
          && l'.commands[c].execute == l.commands[c].execute && l'.commands[c].turn == l.commands[c].turn
          && (l.commands[c].execute ==>
                && l'.commands[c].state == l.commands[c].state
                && (c in l.outbox ==> c in l'.outbox && l'.outbox[c].published == l.outbox[c].published)))
    && (forall c :: c in l'.commands && c !in l.commands ==>
          && !l'.commands[c].execute && l'.commands[c].turn in l.turns && !Early(l.turns[l'.commands[c].turn]))
  }

  lemma SideCoherent(l: Lifecycle, l': Lifecycle)
    requires AllCoherent(l) && SameExecutions(l, l')
    ensures AllCoherent(l')
  {
    forall c | c in l'.commands && l'.commands[c].execute
      ensures Coherent(l', c)
    {
      assert Coherent(l, c);
      hide Fits;
    }
  }

  lemma SideOneEach(l: Lifecycle, l': Lifecycle)
    requires OneEach(l) && SameExecutions(l, l')
    ensures OneEach(l')
  {
    assert forall c, t :: Executes(l', c, t) <==> Executes(l, c, t);
    hide Executes, Early;
  }

  lemma SideOthers(l: Lifecycle, l': Lifecycle)
    requires OthersFollow(l) && SameExecutions(l, l')
    ensures OthersFollow(l')
  {
  }

  lemma SideActive(l: Lifecycle, l': Lifecycle)
    requires OneActiveTurn(l) && SameExecutions(l, l')
    ensures OneActiveTurn(l')
  {
    assert ActiveTurns(l') == ActiveTurns(l);
    hide ActiveTurns, SessionFits, ActiveSession;
  }

  lemma SideTables(l: Lifecycle, l': Lifecycle)
    requires Consistent(l) && SameExecutions(l, l')
    ensures Consistent(l')
  {
    hide AllCoherent, OneEach, OthersFollow, OneActiveTurn, SameExecutions;
    SideCoherent(l, l');
    SideOneEach(l, l');
    SideOthers(l, l');
    SideActive(l, l');
  }

  // ------------------------------------------------------------------ finalizing keeps the lifecycle consistent

  lemma RequeueConsistent(l: Lifecycle, c: CommandId, t: TurnId, now: Time)
    requires Consistent(l) && Executes(l, c, t) && l.commands[c].state.Dispatched? && Assigned(l, t, c)
    ensures Consistent(Requeue(l, t, c, now))
  {
    RequeueingIsLegal(l, c, t);
    ActiveIs(l, t);
    var a := l.runs[c].current.value;
    var row := l.outbox[c].(availableAt := now);
    assert Owns(l, c, a);
    assert Requeue(l, t, c, now) ==
           Move(l, c, a, SM.TurnState.Queued, SM.CommandState.Pending, row, SM.RunState.Queued,
                SM.AttemptState.Failed, l.state);
    hide AllCoherent, OneEach, OthersFollow, OneActiveTurn, ActiveTurns, Requeue, Move, Owns, CanRequeue;
    MoveConsistent(l, c, a, SM.TurnState.Queued, SM.CommandState.Pending, row, SM.RunState.Queued,
                   SM.AttemptState.Failed, l.state);
  }

  lemma FailEverythingConsistent(l: Lifecycle, c: CommandId, t: TurnId)
    requires Consistent(l) && Executes(l, c, t) && l.commands[c].state.Acknowledged? && Assigned(l, t, c)
    ensures Consistent(FailEverything(l, t, c))
  {
    FailingIsLegal(l, c, t);
    ActiveIs(l, t);
    var a := l.runs[c].current.value;
    var m := Move(l, c, a, SM.TurnState.Failed, SM.CommandState.Failed, l.outbox[c].(published := true),
                  SM.RunState.Failed, SM.AttemptState.Failed, SM.SessionState.Failed);
    assert Owns(l, c, a);
    MoveConsistent(l, c, a, SM.TurnState.Failed, SM.CommandState.Failed, l.outbox[c].(published := true),
                   SM.RunState.Failed, SM.AttemptState.Failed, SM.SessionState.Failed);
    FailIsMoveAndSide(l, c, t, a);
    hide Consistent, FailEverything, Move, SameExecutions;
    SideTables(m, FailEverything(l, t, c));
  }

  lemma FailIsMoveAndSide(l: Lifecycle, c: CommandId, t: TurnId, a: AttemptId)
    requires Consistent(l) && Executes(l, c, t) && Assigned(l, t, c) && l.runs[c].current == Some(a)
    requires ActiveTurns(l) == {t} && l.commands[c].state.Acknowledged?
    ensures SameExecutions(Move(l, c, a, SM.TurnState.Failed, SM.CommandState.Failed, l.outbox[c].(published := true),
                                SM.RunState.Failed, SM.AttemptState.Failed, SM.SessionState.Failed),
                           FailEverything(l, t, c))
  {
    ExecutesUnique(l, c, t);
    hide Consistent, CancelApprovals, FailNodes;
    var m := Move(l, c, a, SM.TurnState.Failed, SM.CommandState.Failed, l.outbox[c].(published := true),
                  SM.RunState.Failed, SM.AttemptState.Failed, SM.SessionState.Failed);
    var g := FailEverything(l, t, c);
    forall d | d in m.commands && m.commands[d].execute
      ensures g.commands[d].state == m.commands[d].state
      ensures d in m.outbox ==> d in g.outbox && g.outbox[d].published == m.outbox[d].published
    {
      if d != c {
        assert d !in ExecuteCommands(l, t);
      }
    }
  }

  // ------------------------------------------------------------------ events

  datatype Event =
    | Admit(turn: TurnId, command: CommandId)
    | Dispatch(command: CommandId, attempt: AttemptId)
    | Reclaim(command: CommandId, attempt: AttemptId)
    | Acknowledge(command: CommandId, attempt: AttemptId)
    | RejectStart(command: CommandId, attempt: AttemptId)
    | Retry(command: CommandId, attempt: AttemptId, now: Time)
    | Advance(command: CommandId, run: SM.RunState, phase: SM.AttemptState)
    | Wait(command: CommandId)
    | Resume(command: CommandId)
    | RequestCancel(command: CommandId)
    | Complete(command: CommandId, attempt: AttemptId)
    | FailRun(command: CommandId, attempt: AttemptId, timedOut: bool, quarantine: bool)
    | FinishCancel(command: CommandId)
    | AddOther(command: CommandId, turn: TurnId)
    | MoveOther(command: CommandId, next: SM.CommandState)
    | SetApproval(id: nat, approval: Approval)
    | SetNode(id: nat, node: SM.AgentNodeState)
    | MoveSession(session: SM.SessionState)
    | PruneToIdle
    | Reconcile(now: Time)

  /** Where one execution goes. */
  datatype Target = Target(
    attempt: AttemptId,
    turn: SM.TurnState,
    command: SM.CommandState,
    published: bool,
    run: SM.RunState,
    state: SM.AttemptState,
    session: SM.SessionState)

  predicate Executing(l: Lifecycle, c: CommandId) {
    c in l.commands && l.commands[c].execute && Assigned(l, l.commands[c].turn, c)
  }

  function TurnOf(l: Lifecycle, c: CommandId): SM.TurnState
    requires Executing(l, c)
  {
    l.turns[l.commands[c].turn]
  }

  function AttemptOf(l: Lifecycle, c: CommandId): SM.AttemptState
    requires Executing(l, c)
  {
    l.attempts[l.runs[c].current.value]
  }

  /** The turn and the command of an execution move along their transition tables. */
  predicate Along(l: Lifecycle, c: CommandId, to: Option<Target>) {
    to.Some? ==>
      && c in l.commands && l.commands[c].execute && c in l.outbox && l.commands[c].turn in l.turns
      && to.value.command in SM.CommandNext(l.commands[c].state) + {l.commands[c].state}
      && to.value.turn in SM.TurnNext(l.turns[l.commands[c].turn]) + {l.turns[l.commands[c].turn]}
  }

  /** A queued turn is claimed while its session is at rest. */
  function DispatchTarget(l: Lifecycle, c: CommandId, a: AttemptId): (to: Option<Target>)
    ensures Along(l, c, to)
  {
    if c in l.commands && l.commands[c].execute && c in l.outbox && c in l.runs && l.commands[c].turn in l.turns
       && l.commands[c].state.Pending? && l.turns[l.commands[c].turn].Queued?
       && (l.state.Cold? || l.state.Idle?) && ActiveTurns(l) == {} && a !in l.attempts
    then Some(Target(a, SM.TurnState.Dispatching, SM.CommandState.Dispatched, false,
                     SM.RunState.Claimed, SM.AttemptState.Claimed, l.state))
    else None
  }

  /** Before acknowledgement: the worker starts the turn, or its start is rejected for good. */
  function StartTarget(l: Lifecycle, c: CommandId, started: bool): (to: Option<Target>)
    ensures Along(l, c, to)
  {
    if Executing(l, c) && l.commands[c].state.Dispatched? && TurnOf(l, c).Dispatching?
       && (l.state.Cold? || l.state.Idle?) && !l.outbox[c].published
    then
      if started
      then Some(Target(l.runs[c].current.value, SM.TurnState.Running, SM.CommandState.Acknowledged, true,
                       SM.RunState.Provisioning, SM.AttemptState.Provisioning, SM.SessionState.Running))
      else Some(Target(l.runs[c].current.value, SM.TurnState.Failed, SM.CommandState.Failed, true,
                       SM.RunState.Failed, SM.AttemptState.Failed, l.state))
    else None
  }

  function RunningTarget(l: Lifecycle, c: CommandId, turn: SM.TurnState, run: SM.RunState, state: SM.AttemptState,
                         session: SM.SessionState): (to: Option<Target>)
    ensures Along(l, c, to)
  {
    if Executing(l, c) && l.commands[c].state.Acknowledged? && Abreast(run, state)
       && turn in SM.TurnNext(TurnOf(l, c)) + {TurnOf(l, c)} && ActiveTurn(turn) && SessionFits(session, turn)
       && run in SM.RunNext(l.runs[c].state) + {l.runs[c].state}
       && state in SM.AttemptNext(AttemptOf(l, c)) + {AttemptOf(l, c)}
    then Some(Target(l.runs[c].current.value, turn, SM.CommandState.Acknowledged, true, run, state, session))
    else None
  }

  /** After acknowledgement the only ways out are terminal. */
  function EndTarget(l: Lifecycle, c: CommandId, turn: SM.TurnState, command: SM.CommandState, run: SM.RunState,
                     state: SM.AttemptState, session: SM.SessionState): (to: Option<Target>)
    ensures Along(l, c, to)
  {
    if Executing(l, c) && l.commands[c].state.Acknowledged? && turn in SM.TurnNext(TurnOf(l, c))
       && SM.TerminalTurn(turn) && SM.TerminalCommand(command) && SM.TerminalRun(run) && SM.TerminalAttempt(state)
       && (session.Idle? || session.Failed?)
    then Some(Target(l.runs[c].current.value, turn, command, true, run, state, session))
    else None
  }

  /** The attempt that reports is still the current one of its run. */
  predicate Current(l: Lifecycle, c: CommandId, a: AttemptId) {
    c in l.runs && l.runs[c].current == Some(a)
  }

  predicate IsExecutionEvent(e: Event) {
    || e.Dispatch? || e.Acknowledge? || e.RejectStart? || e.Advance? || e.Wait? || e.Resume?
    || e.RequestCancel? || e.Complete? || e.FailRun? || e.FinishCancel?
  }

  function TargetOf(l: Lifecycle, e: Event): (to: Option<Target>)
    ensures to.Some? ==> IsExecutionEvent(e)
    ensures to.Some? ==> Along(l, e.command, to)
  {
    match e
    case Dispatch(c, a) => DispatchTarget(l, c, a)
    case Acknowledge(c, a) => if Current(l, c, a) then StartTarget(l, c, true) else None
    case RejectStart(c, a) => if Current(l, c, a) then StartTarget(l, c, false) else None
    case Advance(c, run, state) =>
      if Executing(l, c) then RunningTarget(l, c, TurnOf(l, c), run, state, l.state) else None
    case Wait(c) =>
      if Executing(l, c)
      then RunningTarget(l, c, SM.TurnState.WaitingApproval, l.runs[c].state, AttemptOf(l, c), SM.SessionState.WaitingApproval)
      else None
    case Resume(c) =>
      if Executing(l, c)
      then RunningTarget(l, c, SM.TurnState.Running, l.runs[c].state, AttemptOf(l, c), SM.SessionState.Running)
      else None
    case RequestCancel(c) =>
      RunningTarget(l, c, SM.TurnState.Cancelling, SM.RunState.CancelRequested, SM.AttemptState.CancelRequested, SM.SessionState.Cancelling)
    case Complete(c, a) =>
      if Current(l, c, a)
      then EndTarget(l, c, SM.TurnState.Completed, SM.CommandState.Completed, SM.RunState.Completed, SM.AttemptState.Completed, SM.SessionState.Idle)
      else None
    case FailRun(c, a, timedOut, quarantine) =>
      if !Current(l, c, a) then None else
      EndTarget(l, c, SM.TurnState.Failed, SM.CommandState.Failed,
                if timedOut then SM.RunState.TimedOut else SM.RunState.Failed,
                if timedOut then SM.AttemptState.TimedOut else SM.AttemptState.Failed,
                if quarantine then SM.SessionState.Failed else SM.SessionState.Idle)
    case FinishCancel(c) =>
      EndTarget(l, c, SM.TurnState.Cancelled, SM.CommandState.Completed, SM.RunState.Cancelled, SM.AttemptState.Cancelled, SM.SessionState.Idle)
    case _ => None
  }

  function Arrive(l: Lifecycle, c: CommandId, to: Target): Lifecycle
    requires c in l.commands && c in l.outbox
  {
    Move(l, c, to.attempt, to.turn, to.command, l.outbox[c].(published := to.published), to.run, to.state, to.session)
  }

  function AdmitTurn(l: Lifecycle, t: TurnId, c: CommandId): Lifecycle {
    if t in l.turns || c in l.commands || c in l.runs then l
    else l.(turns := l.turns[t := SM.TurnState.Queued],
            commands := l.commands[c := Command(t, true, SM.CommandState.Pending)],
            outbox := l.outbox[c := OutboxRow(false, 0)],
            runs := l.runs[c := Run(t, SM.RunState.Queued, None)])
  }

  /**
   The claim on a dispatched execution ran out and it is claimed again: an attempt that has not
   ended is superseded, a fresh one becomes current, and the command stays dispatched.
   */
  function ReclaimDispatched(l: Lifecycle, c: CommandId, a: AttemptId): Lifecycle {
    if CanReclaim(l, c, a)
    then
      var before := l.runs[c].current.value;
      var again := Move(l, c, a, SM.TurnState.Dispatching, SM.CommandState.Dispatched, l.outbox[c], SM.RunState.Claimed,
                        SM.AttemptState.Claimed, l.state);
      if SM.TerminalAttempt(l.attempts[before]) then again
      else again.(attempts := again.attempts[before := SM.AttemptState.Superseded])
    else l
  }

  predicate CanReclaim(l: Lifecycle, c: CommandId, a: AttemptId) {
    && Executing(l, c) && l.commands[c].state.Dispatched? && TurnOf(l, c).Dispatching?
    && (l.state.Cold? || l.state.Idle?) && !l.outbox[c].published && a !in l.attempts
  }

  /** Pruning leaves a session without unsettled turns idle, whichever state of rest it was in. */
  function PruneSession(l: Lifecycle): Lifecycle {
    if (l.state.Cold? || l.state.Idle? || l.state.Failed?) && forall t :: t in l.turns ==> SM.TerminalTurn(l.turns[t])
    then l.(state := SM.SessionState.Idle)
    else l
  }

  function RetryDispatched(l: Lifecycle, c: CommandId, a: AttemptId, now: Time): Lifecycle {
    if Current(l, c, a) && Executing(l, c) && l.commands[c].state.Dispatched? && TurnOf(l, c).Dispatching? && !l.outbox[c].published
    then Requeue(l, l.commands[c].turn, c, now)
    else l
  }

  function AddOtherCommand(l: Lifecycle, c: CommandId, t: TurnId): Lifecycle {
    if c !in l.commands && c !in l.outbox && t in l.turns && ActiveTurn(l.turns[t]) && !Early(l.turns[t])
    then l.(commands := l.commands[c := Command(t, false, SM.CommandState.Pending)],
            outbox := l.outbox[c := OutboxRow(false, 0)])
    else l
  }

  function MoveOtherCommand(l: Lifecycle, c: CommandId, state: SM.CommandState): Lifecycle {
    if c in l.commands && !l.commands[c].execute && state in SM.CommandNext(l.commands[c].state)
    then l.(commands := l.commands[c := l.commands[c].(state := state)])
    else l
  }

  /** A session at rest moves between states that own no execution. */
  function MoveAtRest(l: Lifecycle, state: SM.SessionState): Lifecycle {
    if ActiveTurns(l) == {} && state in SM.SessionNext(l.state) && !ActiveSession(state) then l.(state := state) else l
  }

  function Do(l: Lifecycle, e: Event): Lifecycle {
    match e
    case Admit(t, c) => AdmitTurn(l, t, c)
    case Reclaim(c, a) => ReclaimDispatched(l, c, a)
    case Retry(c, a, now) => RetryDispatched(l, c, a, now)
    case AddOther(c, t) => AddOtherCommand(l, c, t)
    case MoveOther(c, state) => MoveOtherCommand(l, c, state)
    case SetApproval(id, approval) => l.(approvals := l.approvals[id := approval])
    case SetNode(id, node) => l.(nodes := l.nodes[id := node])
    case MoveSession(state) => MoveAtRest(l, state)
    case PruneToIdle => PruneSession(l)
    case Reconcile(now) => (match Finalize(l, now) case Ok((l', _)) => l' case Err(_) => l)
    case _ =>
      match TargetOf(l, e)
      case Some(to) => Arrive(l, e.command, to)
      case None => l
  }

  const NEW_SESSION := Lifecycle(SM.SessionState.Cold, map[], map[], map[], map[], map[], map[], map[])

  function After(events: seq<Event>): Lifecycle {
    if events == [] then NEW_SESSION else Do(After(events[..|events| - 1]), events[|events| - 1])
  }

  // ------------------------------------------------------------------ every run stays consistent

  lemma ArriveConsistent(l: Lifecycle, c: CommandId, to: Target)
    requires Consistent(l) && Executing(l, c)
    requires Movable(l, c, to.attempt, to.turn, to.session)
    requires Fits(to.turn, to.command, to.published, to.run, Some(to.state))
    ensures Consistent(Arrive(l, c, to))
  {
    hide Consistent, Movable, Move, Fits;
    MoveConsistent(l, c, to.attempt, to.turn, to.command, l.outbox[c].(published := to.published), to.run, to.state,
                   to.session);
  }

  /** An execution under way may move: it owns its attempt, and no other turn is active. */
  lemma UnderWay(l: Lifecycle, c: CommandId)
    requires Consistent(l) && Executing(l, c)
    requires l.commands[c].state.Dispatched? || l.commands[c].state.Acknowledged?
    ensures Owns(l, c, l.runs[c].current.value)
    ensures ActiveTurns(l) == {l.commands[c].turn}
    ensures SessionFits(l.state, TurnOf(l, c))
    ensures Fits(TurnOf(l, c), l.commands[c].state, l.outbox[c].published, l.runs[c].state, Some(AttemptOf(l, c)))
  {
    var t := l.commands[c].turn;
    TurnReadsCommand(l, c, t);
    assert t in ActiveTurns(l);
    ActiveIs(l, t);
    assert Coherent(l, c);
    hide OthersFollow, Fits, SessionFits, ActiveTurns, SM.TerminalTurn;
  }

  lemma DispatchMovable(l: Lifecycle, c: CommandId, a: AttemptId)
    requires Consistent(l) && DispatchTarget(l, c, a).Some?
    ensures Movable(l, c, a, SM.TurnState.Dispatching, l.state)
  {
    hide Consistent, ActiveTurns;
    RunAttemptsStored(l);
  }

  lemma DispatchConsistent(l: Lifecycle, c: CommandId, a: AttemptId)
    requires Consistent(l) && DispatchTarget(l, c, a).Some?
    ensures Consistent(Arrive(l, c, DispatchTarget(l, c, a).value))
  {
    var to := DispatchTarget(l, c, a).value;
    hide Consistent, Movable, Move, Along, ActiveTurns;
    DispatchMovable(l, c, a);
    MoveConsistent(l, c, a, to.turn, to.command, l.outbox[c].(published := false), to.run, to.state, to.session);
  }

  lemma StartMovable(l: Lifecycle, c: CommandId, started: bool)
    requires Consistent(l) && StartTarget(l, c, started).Some?
    ensures var to := StartTarget(l, c, started).value;
            Movable(l, c, to.attempt, to.turn, to.session)
  {
    hide Consistent, Fits, Owns, ActiveTurns, Along;
    UnderWay(l, c);
  }

  lemma StartConsistent(l: Lifecycle, c: CommandId, started: bool)
    requires Consistent(l) && StartTarget(l, c, started).Some?
    ensures Consistent(Arrive(l, c, StartTarget(l, c, started).value))
  {
    var to := StartTarget(l, c, started).value;
    hide Consistent, Movable, Arrive, Assigned, ActiveTurns, Along;
    StartMovable(l, c, started);
    ArriveConsistent(l, c, to);
  }

  lemma NotEarly(t: SM.TurnState, turn: SM.TurnState)
    requires t.Running? || t.WaitingApproval? || t.Cancelling?
    requires turn in SM.TurnNext(t) + {t} && ActiveTurn(turn)
    ensures turn.Running? || turn.WaitingApproval? || turn.Cancelling?
  {
  }

  lemma RunningConsistent(l: Lifecycle, c: CommandId, turn: SM.TurnState, run: SM.RunState, state: SM.AttemptState,
                          session: SM.SessionState)
    requires Consistent(l) && RunningTarget(l, c, turn, run, state, session).Some?
    ensures Consistent(Arrive(l, c, RunningTarget(l, c, turn, run, state, session).value))
  {
    var to := RunningTarget(l, c, turn, run, state, session).value;
    hide Consistent, Assigned, Abreast, SM.RunNext, SM.AttemptNext, SM.TurnNext, Owns, ActiveTurns, SessionFits, Arrive;
    UnderWay(l, c);
    NotEarly(TurnOf(l, c), turn);
    assert Movable(l, c, to.attempt, to.turn, to.session);
    hide Movable, ActiveTurn;
    ArriveConsistent(l, c, to);
  }

  lemma EndFits(turn: SM.TurnState, command: SM.CommandState, run: SM.RunState, attempt: Option<SM.AttemptState>)
    requires SM.TerminalTurn(turn) && SM.TerminalCommand(command)
    ensures Fits(turn, command, true, run, attempt) && !ActiveTurn(turn) && !Early(turn)
  {
  }

  lemma EndMovable(l: Lifecycle, c: CommandId, turn: SM.TurnState, session: SM.SessionState)
    requires Consistent(l) && Executing(l, c) && l.commands[c].state.Acknowledged?
    requires !ActiveTurn(turn) && !Early(turn) && !ActiveSession(session)
    ensures Movable(l, c, l.runs[c].current.value, turn, session)
  {
    hide Consistent, Fits, Owns, ActiveTurns, SessionFits;
    UnderWay(l, c);
  }

  lemma EndConsistent(l: Lifecycle, c: CommandId, turn: SM.TurnState, command: SM.CommandState, run: SM.RunState,
                      state: SM.AttemptState, session: SM.SessionState)
    requires Consistent(l) && EndTarget(l, c, turn, command, run, state, session).Some?
    ensures Consistent(Arrive(l, c, EndTarget(l, c, turn, command, run, state, session).value))
  {
    var to := EndTarget(l, c, turn, command, run, state, session).value;
    hide Consistent, Assigned, Along, SM.TurnNext, SM.CommandNext, SM.TerminalRun, SM.TerminalAttempt,
      SM.TerminalTurn, SM.TerminalCommand, Arrive, Movable, TurnOf;
    EndFits(turn, command, run, Some(state));
    EndMovable(l, c, turn, session);
    ArriveConsistent(l, c, to);
  }

  /** Run rows name attempts that exist. */
  lemma RunAttemptsStored(l: Lifecycle)
    requires Consistent(l)
    ensures forall c :: c in l.runs && l.runs[c].current.Some? ==> l.runs[c].current.value in l.attempts
  {
    hide Fits, OthersFollow, OneActiveTurn;
    assert forall c :: c in l.runs ==> Coherent(l, c);
  }

  lemma AdmitActive(l: Lifecycle, t: TurnId, c: CommandId)
    ensures ActiveTurns(AdmitTurn(l, t, c)) == ActiveTurns(l)
  {
  }

  lemma AdmitCoherent(l: Lifecycle, t: TurnId, c: CommandId)
    requires AllCoherent(l)
    ensures AllCoherent(AdmitTurn(l, t, c))
  {
    var l' := AdmitTurn(l, t, c);
    forall d | d in l'.commands && l'.commands[d].execute
      ensures Coherent(l', d)
    {
      if d in l.commands {
        assert Coherent(l, d);
      }
    }
  }

  /** The rows of an admitted turn are the only new ones. */
  lemma AdmitExecutes(l: Lifecycle, t: TurnId, c: CommandId, d: CommandId, u: TurnId)
    requires AllCoherent(l)
    ensures Executes(l, d, u) ==> u in l.turns && Executes(AdmitTurn(l, t, c), d, u)
    ensures AdmitTurn(l, t, c) != l ==>
              (Executes(AdmitTurn(l, t, c), d, u) <==> (d == c && u == t) || Executes(l, d, u))
  {
    if Executes(l, d, u) {
      assert Coherent(l, d);
    }
    hide Fits;
  }

  lemma AdmitRuns(l: Lifecycle, t: TurnId, c: CommandId)
    requires OneEach(l)
    ensures var l' := AdmitTurn(l, t, c);
            && (forall d :: d in l'.runs ==> d in l'.commands && l'.commands[d].execute)
            && (forall d, e :: d in l'.runs && e in l'.runs && l'.runs[d].current.Some? && l'.runs[d].current == l'.runs[e].current ==> d == e)
  {
    hide Executes;
  }

  lemma AdmitOneEach(l: Lifecycle, t: TurnId, c: CommandId)
    requires AllCoherent(l) && OneEach(l)
    ensures OneEach(AdmitTurn(l, t, c))
  {
    var l' := AdmitTurn(l, t, c);
    AdmitRuns(l, t, c);
    hide AllCoherent, Executes;
    if l' != l {
      forall d, u
        ensures Executes(l, d, u) ==> u in l.turns
        ensures Executes(l', d, u) <==> (d == c && u == t) || Executes(l, d, u)
      {
        AdmitExecutes(l, t, c, d, u);
      }
      AdmitExecutes(l, t, c, c, t);
    }
  }

  lemma AdmitRest(l: Lifecycle, t: TurnId, c: CommandId)
    requires OneActiveTurn(l) && OthersFollow(l)
    ensures OneActiveTurn(AdmitTurn(l, t, c)) && OthersFollow(AdmitTurn(l, t, c))
  {
    AdmitActive(l, t, c);
    hide ActiveTurns, ActiveSession, SessionFits;
    assert forall u :: u in ActiveTurns(l) ==> u in l.turns by {
      ActiveStored(l);
    }
  }

  lemma ActiveStored(l: Lifecycle)
    ensures forall u :: u in ActiveTurns(l) ==> u in l.turns
  {
  }

  lemma AdmitConsistent(l: Lifecycle, t: TurnId, c: CommandId)
    requires Consistent(l)
    ensures Consistent(AdmitTurn(l, t, c))
  {
    hide AllCoherent, OneEach, OneActiveTurn, OthersFollow, AdmitTurn;
    AdmitCoherent(l, t, c);
    AdmitOneEach(l, t, c);
    AdmitRest(l, t, c);
  }

  /** An attempt that no run names may be in any state. */
  lemma OrphanConsistent(l: Lifecycle, a: AttemptId, state: SM.AttemptState)
    requires Consistent(l) && forall d :: d in l.runs ==> l.runs[d].current != Some(a)
    ensures Consistent(l.(attempts := l.attempts[a := state]))
  {
    var l' := l.(attempts := l.attempts[a := state]);
    OrphanCoherent(l, a, state);
    assert forall c, t :: Executes(l', c, t) <==> Executes(l, c, t);
    assert ActiveTurns(l') == ActiveTurns(l);
    hide Executes, Coherent, ActiveTurns, SessionFits, ActiveSession;
  }

  lemma OrphanCoherent(l: Lifecycle, a: AttemptId, state: SM.AttemptState)
    requires AllCoherent(l) && forall d :: d in l.runs ==> l.runs[d].current != Some(a)
    ensures AllCoherent(l.(attempts := l.attempts[a := state]))
  {
    var l' := l.(attempts := l.attempts[a := state]);
    forall c | c in l'.commands && l'.commands[c].execute
      ensures Coherent(l', c)
    {
      assert Coherent(l, c);
      hide Fits;
    }
  }

  lemma ReclaimMovable(l: Lifecycle, c: CommandId, a: AttemptId)
    requires Consistent(l) && CanReclaim(l, c, a)
    ensures Movable(l, c, a, SM.TurnState.Dispatching, l.state)
    ensures Owns(l, c, l.runs[c].current.value) && l.runs[c].current.value != a
  {
    RunAttemptsStored(l);
    UnderWay(l, c);
    hide Consistent, ActiveTurns, Fits;
  }

  lemma ReclaimConsistent(l: Lifecycle, c: CommandId, a: AttemptId)
    requires Consistent(l)
    ensures Consistent(ReclaimDispatched(l, c, a))
  {
    hide Consistent, Movable, Along, Fits, SM.TerminalAttempt;
    if CanReclaim(l, c, a) {
      ReclaimMovable(l, c, a);
      ClaimedFits(l.outbox[c].published);
      MoveConsistent(l, c, a, SM.TurnState.Dispatching, SM.CommandState.Dispatched, l.outbox[c], SM.RunState.Claimed,
                     SM.AttemptState.Claimed, l.state);
      var again := Move(l, c, a, SM.TurnState.Dispatching, SM.CommandState.Dispatched, l.outbox[c], SM.RunState.Claimed,
                        SM.AttemptState.Claimed, l.state);
      OrphanConsistent(again, l.runs[c].current.value, SM.AttemptState.Superseded);
    }
  }

  lemma ClaimedFits(published: bool)
    ensures !published ==>
              Fits(SM.TurnState.Dispatching, SM.CommandState.Dispatched, published, SM.RunState.Claimed, Some(SM.AttemptState.Claimed))
  {
  }

  lemma RetryConsistent(l: Lifecycle, c: CommandId, a: AttemptId, now: Time)
    requires Consistent(l)
    ensures Consistent(RetryDispatched(l, c, a, now))
  {
    if Executing(l, c) && l.commands[c].state.Dispatched? {
      RequeueConsistent(l, c, l.commands[c].turn, now);
    }
    hide Consistent, Requeue;
  }

  lemma ReconcileConsistent(l: Lifecycle, now: Time)
    requires Consistent(l)
    ensures Finalize(l, now).Ok? && Consistent(Finalize(l, now).value.0)
  {
    if ActiveTurns(l) == {} {
      FinalizeIdle(l, now);
    } else {
      var t :| t in ActiveTurns(l);
      var c :| Executes(l, c, t);
      TurnReadsCommand(l, c, t);
      if l.commands[c].state.Dispatched? {
        FinalizeDispatched(l, c, t, now);
        RequeueConsistent(l, c, t, now);
      } else {
        FinalizeAcknowledged(l, c, t, now);
        FailEverythingConsistent(l, c, t);
      }
    }
    hide Consistent, Finalize, FailEverything, Requeue, ActiveTurns, Executes, Assigned;
  }

  /** Only the session's own state differs. */
  lemma SessionStateOnly(l: Lifecycle, state: SM.SessionState)
    requires AllCoherent(l) && OneEach(l) && OthersFollow(l)
    ensures AllCoherent(l.(state := state)) && OneEach(l.(state := state)) && OthersFollow(l.(state := state))
  {
    var l' := l.(state := state);
    assert forall c, t :: Executes(l', c, t) <==> Executes(l, c, t);
    forall c | c in l.commands && l.commands[c].execute
      ensures Coherent(l', c)
    {
      assert Coherent(l, c);
      hide Fits;
    }
    hide Executes, Coherent;
  }

  lemma RestConsistent(l: Lifecycle, state: SM.SessionState)
    requires Consistent(l)
    ensures Consistent(MoveAtRest(l, state))
  {
    hide AllCoherent, OneEach, OthersFollow, ActiveSession, SM.SessionNext;
    SessionStateOnly(l, state);
    assert ActiveTurns(l.(state := state)) == ActiveTurns(l);
    hide ActiveTurns;
  }

  lemma PruneConsistent(l: Lifecycle)
    requires Consistent(l)
    ensures Consistent(PruneSession(l))
  {
    hide AllCoherent, OneEach, OthersFollow;
    SessionStateOnly(l, SM.SessionState.Idle);
  }

  lemma TargetConsistent(l: Lifecycle, e: Event)
    requires Consistent(l) && TargetOf(l, e).Some?
    ensures Consistent(Arrive(l, e.command, TargetOf(l, e).value))
  {
    hide Consistent, Arrive, DispatchTarget, StartTarget, RunningTarget, EndTarget;
    hide Along, AttemptOf, TurnOf;
    match e
    case Dispatch(c, a) => DispatchConsistent(l, c, a);
    case Acknowledge(c, _) => StartConsistent(l, c, true);
    case RejectStart(c, _) => StartConsistent(l, c, false);
    case Advance(c, run, phase) => RunningConsistent(l, c, TurnOf(l, c), run, phase, l.state);
    case Wait(c) =>
      RunningConsistent(l, c, SM.TurnState.WaitingApproval, l.runs[c].state, AttemptOf(l, c),
                        SM.SessionState.WaitingApproval);
    case Resume(c) =>
      RunningConsistent(l, c, SM.TurnState.Running, l.runs[c].state, AttemptOf(l, c), SM.SessionState.Running);
    case RequestCancel(c) =>
      RunningConsistent(l, c, SM.TurnState.Cancelling, SM.RunState.CancelRequested, SM.AttemptState.CancelRequested,
                        SM.SessionState.Cancelling);
    case Complete(c, _) =>
      EndConsistent(l, c, SM.TurnState.Completed, SM.CommandState.Completed, SM.RunState.Completed,
                    SM.AttemptState.Completed, SM.SessionState.Idle);
    case FailRun(c, _, timedOut, quarantine) =>
      var run := if timedOut then SM.RunState.TimedOut else SM.RunState.Failed;
      var state := if timedOut then SM.AttemptState.TimedOut else SM.AttemptState.Failed;
      var session := if quarantine then SM.SessionState.Failed else SM.SessionState.Idle;
      EndConsistent(l, c, SM.TurnState.Failed, SM.CommandState.Failed, run, state, session);
    case FinishCancel(c) =>
      EndConsistent(l, c, SM.TurnState.Cancelled, SM.CommandState.Completed, SM.RunState.Cancelled,
                    SM.AttemptState.Cancelled, SM.SessionState.Idle);
    case _ =>
  }

  lemma AddOtherBeside(l: Lifecycle, c: CommandId, t: TurnId)
    ensures SameExecutions(l, AddOtherCommand(l, c, t))
  {
  }

  lemma MoveOtherBeside(l: Lifecycle, c: CommandId, next: SM.CommandState)
    ensures SameExecutions(l, MoveOtherCommand(l, c, next))
  {
    hide SM.CommandNext;
  }

  lemma SidesBeside(l: Lifecycle, approvals: map<nat, Approval>, nodes: map<nat, SM.AgentNodeState>)
    ensures SameExecutions(l, l.(approvals := approvals)) && SameExecutions(l, l.(nodes := nodes))
  {
  }

  lemma OthersConsistent(l: Lifecycle, e: Event)
    requires Consistent(l) && (e.AddOther? || e.MoveOther? || e.SetApproval? || e.SetNode?)
    ensures Consistent(Do(l, e))
  {
    hide Consistent, SameExecutions, AddOtherCommand, MoveOtherCommand;
    match e
    case AddOther(c, t) => AddOtherBeside(l, c, t); SideTables(l, AddOtherCommand(l, c, t));
    case MoveOther(c, next) => MoveOtherBeside(l, c, next); SideTables(l, MoveOtherCommand(l, c, next));
    case SetApproval(id, approval) =>
      SidesBeside(l, l.approvals[id := approval], l.nodes);
      SideTables(l, l.(approvals := l.approvals[id := approval]));
    case SetNode(id, node) =>
      SidesBeside(l, l.approvals, l.nodes[id := node]);
      SideTables(l, l.(nodes := l.nodes[id := node]));
  }

  lemma DoConsistent(l: Lifecycle, e: Event)
    requires Consistent(l)
    ensures Consistent(Do(l, e))
  {
    hide Consistent, Arrive, TargetOf, AdmitTurn, ReclaimDispatched, PruneSession, RetryDispatched, AddOtherCommand,
      MoveOtherCommand, MoveAtRest,
      Finalize, Along;
    match e
    case Admit(t, c) => AdmitConsistent(l, t, c);
    case Reclaim(c, a) => ReclaimConsistent(l, c, a);
    case Retry(c, a, now) => RetryConsistent(l, c, a, now);
    case Reconcile(now) => ReconcileConsistent(l, now);
    case MoveSession(session) => RestConsistent(l, session);
    case PruneToIdle => PruneConsistent(l);
    case AddOther(_, _) => OthersConsistent(l, e);
    case MoveOther(_, _) => OthersConsistent(l, e);
    case SetApproval(_, _) => OthersConsistent(l, e);
    case SetNode(_, _) => OthersConsistent(l, e);
    case _ =>
      if TargetOf(l, e).Some? {
        TargetConsistent(l, e);
      }
  }

  lemma {:induction false} RunConsistent(events: seq<Event>)
    ensures Consistent(After(events))
  {
    if events != [] {
      RunConsistent(events[..|events| - 1]);
      hide Consistent, Do;
      DoConsistent(After(events[..|events| - 1]), events[|events| - 1]);
    }
  }

  // ------------------------------------------------------------------ finalizing, said without its steps

  /** Everything that is not part of the execution of `t` is as it was. */
  ghost predicate OthersUntouched(l: Lifecycle, l': Lifecycle, t: TurnId, c: CommandId) {
    && l'.turns.Keys == l.turns.Keys && l'.commands.Keys == l.commands.Keys
    && (forall u :: u in l.turns && u != t ==> l'.turns[u] == l.turns[u])
    && (forall d :: d in l.commands && l.commands[d].turn != t ==> l'.commands[d] == l.commands[d])
    && (forall d :: d in l.runs && d != c ==> d in l'.runs && l'.runs[d] == l.runs[d])
  }

  /** No trace of the turn is left running, waiting or to be delivered. */
  ghost predicate AllFailed(l: Lifecycle, t: TurnId, c: CommandId) {
    && t in l.turns && l.turns[t].Failed? && l.state.Failed? && ActiveTurns(l) == {}
    && OpenCommands(l, t) == {}
    && (forall d :: d in l.commands && l.commands[d].turn == t ==> SM.TerminalCommand(l.commands[d].state))
    && (forall a :: a in l.approvals && l.approvals[a].turn == t ==> !l.approvals[a].state.Pending?)
    && (forall n :: n in l.nodes ==> SM.TerminalAgentNode(l.nodes[n]))
    && c in l.runs && l.runs[c].state.Failed? && CurrentAttempt(l, c) == Some(SM.AttemptState.Failed)
    && c in l.outbox && l.outbox[c].published
  }

  lemma FailedCommands(l: Lifecycle, t: TurnId, c: CommandId)
    requires Assigned(l, t, c)
    ensures var l' := FailEverything(l, t, c);
            && OpenCommands(l', t) == {}
            && forall d :: d in l'.commands && l'.commands[d].turn == t ==> SM.TerminalCommand(l'.commands[d].state)
  {
    hide CancelApprovals, FailNodes, PublishAll;
  }

  lemma FailedOthers(l: Lifecycle, t: TurnId, c: CommandId)
    requires Assigned(l, t, c) && c in OpenCommands(l, t) && ActiveTurns(l) == {t}
    ensures var l' := FailEverything(l, t, c);
            && ActiveTurns(l') == {} && OthersUntouched(l, l', t, c)
            && (forall a :: a in l'.approvals && l'.approvals[a].turn == t ==> !l'.approvals[a].state.Pending?)
            && (forall n :: n in l'.nodes ==> SM.TerminalAgentNode(l'.nodes[n]))
            && c in l'.outbox && l'.outbox[c].published
  {
    assert forall u :: u in l.turns && ActiveTurn(l.turns[u]) ==> u in ActiveTurns(l);
  }

  lemma FailedRows(l: Lifecycle, t: TurnId, c: CommandId)
    requires Assigned(l, t, c)
    ensures var l' := FailEverything(l, t, c);
            && t in l'.turns && l'.turns[t].Failed? && l'.state.Failed?
            && c in l'.runs && l'.runs[c].state.Failed? && CurrentAttempt(l', c) == Some(SM.AttemptState.Failed)
  {
    hide OpenCommands, FailCommands, PublishAll, CancelApprovals, FailNodes;
  }

  lemma OpenSelf(l: Lifecycle, t: TurnId, c: CommandId)
    requires Executes(l, c, t) && l.commands[c].state.Acknowledged?
    ensures c in OpenCommands(l, t)
  {
  }

  /** An acknowledged assignment that is lost ends in failure everywhere at once, and nowhere else. */
  lemma SettledTogether(l: Lifecycle, c: CommandId, t: TurnId, now: Time)
    requires Consistent(l) && Executes(l, c, t) && l.commands[c].state.Acknowledged?
    ensures Finalize(l, now).Ok? && Finalize(l, now).value.1.Settled?
    ensures AllFailed(Finalize(l, now).value.0, t, c) && OthersUntouched(l, Finalize(l, now).value.0, t, c)
  {
    hide Consistent, Finalize, CanFailEverything, ActiveTurns, OpenCommands, FailEverything, OthersUntouched,
      CurrentAttempt;
    hide SM.TerminalAgentNode, SM.TerminalCommand, Assigned;
    FinalizeAcknowledged(l, c, t, now);
    FailingIsLegal(l, c, t);
    OnlyActive(l, t);
    OpenSelf(l, t, c);
    FailedCommands(l, t, c);
    FailedOthers(l, t, c);
    FailedRows(l, t, c);
  }

  lemma RequeuedIdle(l: Lifecycle, t: TurnId, c: CommandId, now: Time)
    requires Assigned(l, t, c) && ActiveTurns(l) == {t}
    ensures ActiveTurns(Requeue(l, t, c, now)) == {}
  {
    assert forall u :: u in l.turns && ActiveTurn(l.turns[u]) ==> u in ActiveTurns(l);
  }

  lemma RequeuedOthers(l: Lifecycle, t: TurnId, c: CommandId, now: Time)
    requires Assigned(l, t, c) && l.commands[c].turn == t
    ensures OthersUntouched(l, Requeue(l, t, c, now), t, c)
    ensures CurrentAttempt(Requeue(l, t, c, now), c) == Some(SM.AttemptState.Failed)
  {
  }

  lemma RequeuedClaimable(l: Lifecycle, t: TurnId, c: CommandId, now: Time, next: AttemptId)
    requires SafelyAssigned(l, t, c) && next !in l.attempts && ActiveTurns(Requeue(l, t, c, now)) == {}
    ensures DispatchTarget(Requeue(l, t, c, now), c, next).Some?
  {
    hide ActiveTurns, OpenCommands, Along;
  }

  predicate SafelyAssigned(l: Lifecycle, t: TurnId, c: CommandId) {
    && Assigned(l, t, c) && l.commands[c].turn == t && l.commands[c].execute
    && SafelyUnacknowledged(l, t, c)
  }

  /**
   A dispatched assignment that is lost goes back whole: its attempt is failed, nothing else of it
   is active, and a fresh attempt can claim it at once.
   */
  lemma RequeuedTogether(l: Lifecycle, c: CommandId, t: TurnId, now: Time, next: AttemptId)
    requires Consistent(l) && Executes(l, c, t) && l.commands[c].state.Dispatched? && next !in l.attempts
    ensures Finalize(l, now).Ok? && Finalize(l, now).value.1.Requeued?
    ensures var l' := Finalize(l, now).value.0;
            && DispatchTarget(l', c, next).Some? && OthersUntouched(l, l', t, c)
            && CurrentAttempt(l', c) == Some(SM.AttemptState.Failed) && c in l'.runs && l'.runs[c].state.Queued?
            && c in l'.outbox && l'.outbox[c].availableAt == now && l'.state == l.state
  {
    hide Consistent, Finalize, CanRequeue, SafelyUnacknowledged, ActiveTurns, DispatchTarget, OthersUntouched,
      CurrentAttempt;
    FinalizeDispatched(l, c, t, now);
    RequeueingIsLegal(l, c, t);
    OnlyActive(l, t);
    RequeuedIdle(l, t, c, now);
    RequeuedOthers(l, t, c, now);
    RequeuedClaimable(l, t, c, now, next);
  }

  lemma OnlyActive(l: Lifecycle, t: TurnId)
    requires Consistent(l) && t in ActiveTurns(l)
    ensures ActiveTurns(l) == {t}
  {
    ActiveIs(l, t);
  }

  /** Every row of `l` is in the same state or in one that its transition table allows. */
  ghost predicate LegalMoves(l: Lifecycle, l': Lifecycle) {
    && l'.state in SM.SessionNext(l.state) + {l.state}
    && (forall t :: t in l.turns ==> t in l'.turns && l'.turns[t] in SM.TurnNext(l.turns[t]) + {l.turns[t]})
    && (forall c :: c in l.commands ==>
          c in l'.commands && l'.commands[c].state in SM.CommandNext(l.commands[c].state) + {l.commands[c].state})
    && (forall c :: c in l.runs ==> c in l'.runs && l'.runs[c].state in SM.RunNext(l.runs[c].state) + {l.runs[c].state})
    && (forall a :: a in l.attempts ==>
          a in l'.attempts && l'.attempts[a] in SM.AttemptNext(l.attempts[a]) + {l.attempts[a]})
    && (forall a :: a in l.approvals ==>
          a in l'.approvals && l'.approvals[a].state in SM.ApprovalNext(l.approvals[a].state) + {l.approvals[a].state})
    && (forall n :: n in l.nodes ==> n in l'.nodes && l'.nodes[n] in SM.AgentNodeNext(l.nodes[n]) + {l.nodes[n]})
  }

  lemma RequeueLegal(l: Lifecycle, t: TurnId, c: CommandId, now: Time)
    requires Assigned(l, t, c) && CanRequeue(l, t, c)
    ensures LegalMoves(l, Requeue(l, t, c, now))
  {
    hide SM.SessionNext, SM.TurnNext, SM.CommandNext, SM.RunNext, SM.AttemptNext, SM.ApprovalNext, SM.AgentNodeNext;
  }

  lemma FailLegal(l: Lifecycle, t: TurnId, c: CommandId)
    requires Assigned(l, t, c) && CanFailEverything(l, t, c)
    ensures LegalMoves(l, FailEverything(l, t, c))
  {
    assert SM.ApprovalState.Cancelled in SM.ApprovalNext(SM.ApprovalState.Pending);
    hide SM.SessionNext, SM.TurnNext, SM.CommandNext, SM.RunNext, SM.AttemptNext, SM.ApprovalNext, SM.AgentNodeNext;
    hide OpenCommands, PublishAll, OpenNode;
  }

  /** Whatever it finds, finalizing makes only transitions that the domain's tables allow. */
  lemma FinalizeLegal(l: Lifecycle, now: Time)
    ensures Finalize(l, now).Ok? ==> LegalMoves(l, Finalize(l, now).value.0)
  {
    hide LegalMoves, CanRequeue, CanFailEverything, Requeue, FailEverything, SafelyUnacknowledged, ActiveTurns;
    hide ExecuteCommands, ActiveSession, Assigned;
    UnchangedLegal(l);
    var r := Finalize(l, now);
    if r.Ok? && !r.value.1.Released? {
      var t := Only(ActiveTurns(l));
      var c := Only(ExecuteCommands(l, t));
      if SafelyUnacknowledged(l, t, c) {
        RequeueLegal(l, t, c, now);
      } else {
        FailLegal(l, t, c);
      }
    }
  }

  lemma UnchangedLegal(l: Lifecycle)
    ensures LegalMoves(l, l)
  {
  }

  // ------------------------------------------------------------------ acknowledged work never runs again

  /** Every command of `l` is still there, in the same state or one its transition table allows. */
  ghost predicate CommandsAdvance(l: Lifecycle, l': Lifecycle) {
    forall c :: c in l.commands ==>
      c in l'.commands && l'.commands[c].state in SM.CommandNext(l.commands[c].state) + {l.commands[c].state}
  }

  lemma FinalizeAdvances(l: Lifecycle, now: Time)
    ensures Finalize(l, now).Ok? ==> CommandsAdvance(l, Finalize(l, now).value.0)
  {
    hide SM.CommandNext, SM.AttemptNext, SM.RunNext, SM.TurnNext, SM.SessionNext, SM.AgentNodeNext, PublishAll,
      CancelApprovals, FailNodes;
  }

  lemma MoveAdvances(l: Lifecycle, e: Event)
    requires TargetOf(l, e).Some?
    ensures CommandsAdvance(l, Arrive(l, e.command, TargetOf(l, e).value))
  {
    hide TargetOf, SM.CommandNext, SM.TurnNext;
  }

  lemma OthersAdvance(l: Lifecycle, e: Event)
    requires !IsExecutionEvent(e) && !e.Reconcile?
    ensures CommandsAdvance(l, Do(l, e))
  {
    match e
    case Retry(_, _, _) => assert SM.CommandState.Pending in SM.CommandNext(SM.CommandState.Dispatched);
    case _ =>
    hide SM.CommandNext, SM.SessionNext, TargetOf, Finalize, Assigned, ActiveTurns;
  }

  lemma DoAdvances(l: Lifecycle, e: Event)
    ensures CommandsAdvance(l, Do(l, e))
  {
    hide CommandsAdvance, Finalize, TargetOf, Arrive, Along;
    if IsExecutionEvent(e) {
      if TargetOf(l, e).Some? {
        MoveAdvances(l, e);
      } else {
        AdvanceRefl(l);
      }
    } else if e.Reconcile? {
      FinalizeAdvances(l, e.now);
      AdvanceRefl(l);
    } else {
      OthersAdvance(l, e);
    }
  }

  lemma AdvanceRefl(l: Lifecycle)
    ensures CommandsAdvance(l, l)
  {
  }

  predicate PastAcknowledgement(s: SM.CommandState) {
    s.Acknowledged? || s.Completed? || s.Failed?
  }

  /**
   Once a command has been acknowledged, no later event, reconciliation or retry makes it
   pending or dispatched again.
   */
  lemma {:induction false} AcknowledgedNeverReruns(events: seq<Event>, n: nat, c: CommandId)
    requires n <= |events|
    requires c in After(events[..n]).commands && PastAcknowledgement(After(events[..n]).commands[c].state)
    ensures c in After(events).commands && PastAcknowledgement(After(events).commands[c].state)
  {
    if n == |events| {
      assert events[..n] == events;
    } else {
      var before := events[..|events| - 1];
      assert before[..n] == events[..n];
      AcknowledgedNeverReruns(before, n, c);
      DoAdvances(After(before), events[|events| - 1]);
      hide Do;
    }
  }

  /** Whether the acknowledgement of `c` by attempt `a` takes effect in `l`. */
  predicate Acknowledges(l: Lifecycle, c: CommandId, a: AttemptId) {
    TargetOf(l, Acknowledge(c, a)).Some?
  }

  lemma AcknowledgementTakes(l: Lifecycle, c: CommandId, a: AttemptId)
    requires Acknowledges(l, c, a)
    ensures l.commands[c].state.Dispatched? && Current(l, c, a)
    ensures c in Do(l, Acknowledge(c, a)).commands && Do(l, Acknowledge(c, a)).commands[c].state.Acknowledged?
  {
  }

  /**
   A command is started by a worker at most once, by whatever attempts, however often it was
   dispatched, requeued or claimed again.
   */
  lemma AcknowledgedAtMostOnce(events: seq<Event>, i: nat, j: nat, c: CommandId, a: AttemptId, b: AttemptId)
    requires i < j < |events| && events[i] == Acknowledge(c, a)
    requires Acknowledges(After(events[..i]), c, a)
    ensures !Acknowledges(After(events[..j]), c, b)
  {
    hide Do;
    AcknowledgementTakes(After(events[..i]), c, a);
    assert events[..i + 1][..i] == events[..i];
    assert events[..j][..i + 1] == events[..i + 1];
    AcknowledgedNeverReruns(events[..j], i + 1, c);
    if Acknowledges(After(events[..j]), c, b) {
      AcknowledgementTakes(After(events[..j]), c, b);
    }
  }

  // ------------------------------------------------------------------ attempts that were superseded

  /** The attempt was made, and another one, or none, is current for the command. */
  predicate Stale(l: Lifecycle, c: CommandId, a: AttemptId) {
    a in l.attempts && !Current(l, c, a)
  }

  lemma TargetAttempt(l: Lifecycle, e: Event)
    requires TargetOf(l, e).Some?
    ensures e.Dispatch? ==> TargetOf(l, e).value.attempt !in l.attempts
    ensures !e.Dispatch? ==> Current(l, e.command, TargetOf(l, e).value.attempt)
  {
    hide ActiveTurns, SM.TurnNext, SM.RunNext, SM.AttemptNext, SessionFits, Abreast;
  }

  lemma ArriveStale(l: Lifecycle, e: Event, c: CommandId, a: AttemptId)
    requires Stale(l, c, a) && TargetOf(l, e).Some?
    ensures Stale(Arrive(l, e.command, TargetOf(l, e).value), c, a)
  {
    TargetAttempt(l, e);
    hide TargetOf;
  }

  lemma OthersStale(l: Lifecycle, e: Event, c: CommandId, a: AttemptId)
    requires Stale(l, c, a) && !IsExecutionEvent(e) && !e.Reconcile?
    ensures Stale(Do(l, e), c, a)
  {
    hide SM.SessionNext, SM.CommandNext, SM.TerminalTurn, SM.TerminalAttempt, TargetOf, Finalize, ActiveTurns;
  }

  lemma FinalizeStale(l: Lifecycle, now: Time, c: CommandId, a: AttemptId)
    requires Stale(l, c, a) && Finalize(l, now).Ok?
    ensures Stale(Finalize(l, now).value.0, c, a)
  {
    hide CanRequeue, CanFailEverything, SafelyUnacknowledged, ActiveTurns, ExecuteCommands, OpenCommands;
  }

  lemma DoStale(l: Lifecycle, e: Event, c: CommandId, a: AttemptId)
    requires Stale(l, c, a)
    ensures Stale(Do(l, e), c, a)
  {
    hide Stale, Arrive, TargetOf, Finalize, Along;
    if IsExecutionEvent(e) {
      if TargetOf(l, e).Some? {
        ArriveStale(l, e, c, a);
      }
    } else if e.Reconcile? {
      if Finalize(l, e.now).Ok? {
        FinalizeStale(l, e.now, c, a);
      }
    } else {
      OthersStale(l, e, c, a);
    }
  }

  /** What a worker reports under its claim. */
  predicate Reports(e: Event, c: CommandId, a: AttemptId) {
    match e
    case Acknowledge(d, b) => d == c && b == a
    case RejectStart(d, b) => d == c && b == a
    case Retry(d, b, _) => d == c && b == a
    case Complete(d, b) => d == c && b == a
    case FailRun(d, b, _, _) => d == c && b == a
    case _ => false
  }

  lemma StaleReport(l: Lifecycle, e: Event, c: CommandId, a: AttemptId)
    requires Stale(l, c, a) && Reports(e, c, a)
    ensures Do(l, e) == l
  {
    hide StartTarget, EndTarget, Arrive, Requeue;
  }

  /**
   Once an attempt of a command is no longer current, because its claim ran out and the execution was
   claimed again, nothing it reports in the rest of any run has an effect.
   */
  lemma {:induction false} StaleForever(events: seq<Event>, n: nat, c: CommandId, a: AttemptId, report: Event)
    requires n <= |events| && Stale(After(events[..n]), c, a) && Reports(report, c, a)
    ensures Stale(After(events), c, a) && Do(After(events), report) == After(events)
  {
    hide Do, Stale, Reports;
    if n == |events| {
      assert events[..n] == events;
    } else {
      var before := events[..|events| - 1];
      assert before[..n] == events[..n];
      StaleForever(before, n, c, a, report);
      DoStale(After(before), events[|events| - 1], c, a);
    }
    StaleReport(After(events), report, c, a);
  }

  /** Claiming a dispatched execution again makes the earlier attempt stale and the command no less dispatched. */
  lemma ReclaimSupersedes(l: Lifecycle, c: CommandId, a: AttemptId)
    requires CanReclaim(l, c, a)
    ensures var l' := Do(l, Reclaim(c, a));
            var before := l.runs[c].current.value;
            && Stale(l', c, before) && SM.TerminalAttempt(l'.attempts[before]) && Current(l', c, a)
            && l'.commands == l.commands && l'.turns == l.turns && l'.outbox == l.outbox && l'.state == l.state
            && (forall b :: b in l.attempts && b != before ==> l'.attempts[b] == l.attempts[b])
  {
    hide TargetOf;
  }
}
