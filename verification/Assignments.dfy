/**
 The rows one assignment touches: the session, its turns, commands, outbox, runs, attempts,
 approvals and agent nodes; and what finalizing a lost assignment does to all of them at once.
 */
module Assignments {
  import opened Common
  import SM = StateMachines

  type TurnId = nat
  type CommandId = nat
  type AttemptId = nat
  type Time = nat

  datatype Command = Command(turn: TurnId, execute: bool, state: SM.CommandState)

  datatype OutboxRow = OutboxRow(published: bool, availableAt: Time)

  datatype Run = Run(turn: TurnId, state: SM.RunState, current: Option<AttemptId>)

  datatype Approval = Approval(turn: TurnId, state: SM.ApprovalState)

  datatype Lifecycle = Lifecycle(
    state: SM.SessionState,
    turns: map<TurnId, SM.TurnState>,
    commands: map<CommandId, Command>,
    outbox: map<CommandId, OutboxRow>,
    runs: map<CommandId, Run>,
    attempts: map<AttemptId, SM.AttemptState>,
    approvals: map<nat, Approval>,
    nodes: map<nat, SM.AgentNodeState>)

  datatype Finalization = Settled | Requeued | Released | Skipped

  datatype FinalizeError =
    | TooManyTurns
    | ActiveSessionWithoutTurn
    | ExecuteCommandCount
    | MissingRow
    | InconsistentLifecycle
    | IllegalTransition

  // ------------------------------------------------------------------ finalizing one assignment

  predicate ActiveTurn(t: SM.TurnState) {
    t.Dispatching? || t.Running? || t.WaitingApproval? || t.Cancelling?
  }

  predicate ActiveSession(s: SM.SessionState) {
    s.Starting? || s.Running? || s.WaitingApproval? || s.Cancelling?
  }

  predicate OpenCommand(c: SM.CommandState) {
    c.Pending? || c.Dispatched? || c.Acknowledged?
  }

  predicate OpenNode(n: SM.AgentNodeState) {
    n.Pending? || n.Running? || n.Waiting? || n.Cancelling?
  }

  function ActiveTurns(l: Lifecycle): set<TurnId> {
    set t | t in l.turns && ActiveTurn(l.turns[t])
  }

  function OpenCommands(l: Lifecycle, t: TurnId): set<CommandId> {
    set c | c in l.commands && l.commands[c].turn == t && OpenCommand(l.commands[c].state)
  }

  function ExecuteCommands(l: Lifecycle, t: TurnId): set<CommandId> {
    set c | c in OpenCommands(l, t) && l.commands[c].execute
  }

  /** The rows that must exist for the execution command of an active turn. */
  predicate Assigned(l: Lifecycle, t: TurnId, c: CommandId) {
    && t in l.turns && c in l.commands && c in l.outbox && c in l.runs
    && l.runs[c].turn == t && l.runs[c].current.Some? && l.runs[c].current.value in l.attempts
  }

  predicate SafelyUnacknowledged(l: Lifecycle, t: TurnId, c: CommandId)
    requires Assigned(l, t, c)
  {
    && l.commands[c].state.Dispatched?
    && l.turns[t].Dispatching?
    && (l.state.Cold? || l.state.Idle?)
    && !l.outbox[c].published
    && OpenCommands(l, t) == {c}
  }

  /** The attempt is given up and everything else goes back to where a fresh claim finds it. */
  function Requeue(l: Lifecycle, t: TurnId, c: CommandId, now: Time): Lifecycle
    requires Assigned(l, t, c)
  {
    l.(attempts := l.attempts[l.runs[c].current.value := SM.AttemptState.Failed],
       runs := l.runs[c := l.runs[c].(state := SM.RunState.Queued)],
       commands := l.commands[c := l.commands[c].(state := SM.CommandState.Pending)],
       turns := l.turns[t := SM.TurnState.Queued],
       outbox := l.outbox[c := l.outbox[c].(availableAt := now)])
  }

  predicate CanRequeue(l: Lifecycle, t: TurnId, c: CommandId)
    requires Assigned(l, t, c)
  {
    && SM.AttemptState.Failed in SM.AttemptNext(l.attempts[l.runs[c].current.value])
    && SM.RunState.Queued in SM.RunNext(l.runs[c].state)
    && SM.CommandState.Pending in SM.CommandNext(l.commands[c].state)
    && SM.TurnState.Queued in SM.TurnNext(l.turns[t])
  }

  function FailCommands(commands: map<CommandId, Command>, failing: set<CommandId>): map<CommandId, Command> {
    map c | c in commands ::
      if c in failing then commands[c].(state := SM.CommandState.Failed) else commands[c]
  }

  function PublishAll(outbox: map<CommandId, OutboxRow>, failing: set<CommandId>): map<CommandId, OutboxRow> {
    map c | c in outbox :: if c in failing then outbox[c].(published := true) else outbox[c]
  }

  function CancelApprovals(approvals: map<nat, Approval>, t: TurnId): map<nat, Approval> {
    map a | a in approvals ::
      if approvals[a].turn == t && approvals[a].state.Pending?
      then approvals[a].(state := SM.ApprovalState.Cancelled) else approvals[a]
  }

  function FailNodes(nodes: map<nat, SM.AgentNodeState>): map<nat, SM.AgentNodeState> {
    map n | n in nodes :: if OpenNode(nodes[n]) then SM.AgentNodeState.Failed else nodes[n]
  }

  /** Everything the turn was doing is failed together. */
  function FailEverything(l: Lifecycle, t: TurnId, c: CommandId): Lifecycle
    requires Assigned(l, t, c)
  {
    l.(attempts := l.attempts[l.runs[c].current.value := SM.AttemptState.Failed],
       runs := l.runs[c := l.runs[c].(state := SM.RunState.Failed)],
       commands := FailCommands(l.commands, OpenCommands(l, t)),
       outbox := PublishAll(l.outbox, OpenCommands(l, t)),
       approvals := CancelApprovals(l.approvals, t),
       nodes := FailNodes(l.nodes),
       turns := l.turns[t := SM.TurnState.Failed],
       state := SM.SessionState.Failed)
  }

  /** The run and the attempt may already have failed; every other row must be able to. */
  predicate CanFailEverything(l: Lifecycle, t: TurnId, c: CommandId)
    requires Assigned(l, t, c)
  {
    && (l.runs[c].state.Failed? || SM.RunState.Failed in SM.RunNext(l.runs[c].state))
    && (var a := l.attempts[l.runs[c].current.value]; a.Failed? || SM.AttemptState.Failed in SM.AttemptNext(a))
    && (forall d :: d in OpenCommands(l, t) ==> SM.CommandState.Failed in SM.CommandNext(l.commands[d].state))
    && (forall n :: n in l.nodes && OpenNode(l.nodes[n]) ==> SM.AgentNodeState.Failed in SM.AgentNodeNext(l.nodes[n]))
    && SM.TurnState.Failed in SM.TurnNext(l.turns[t])
    && SM.SessionState.Failed in SM.SessionNext(l.state)
  }

  function FinalizeAssigned(l: Lifecycle, t: TurnId, c: CommandId, now: Time)
    : Result<(Lifecycle, Finalization), FinalizeError>
    requires t in l.turns
  {
    if !Assigned(l, t, c) then Err(MissingRow)
    else if SafelyUnacknowledged(l, t, c) then
      if CanRequeue(l, t, c) then Ok((Requeue(l, t, c, now), Requeued)) else Err(IllegalTransition)
    else if !ActiveSession(l.state) || !ActiveTurn(l.turns[t]) then Err(InconsistentLifecycle)
    else if CanFailEverything(l, t, c) then Ok((FailEverything(l, t, c), Settled))
    else Err(IllegalTransition)
  }

  lemma SingletonIs<T>(s: set<T>, x: T, y: T)
    requires |s| == 1 && x in s && y in s
    ensures x == y
  {
    assert |s - {x}| == 0;
  }

  function Only<T>(s: set<T>): (x: T)
    requires |s| == 1
    ensures s == {x}
  {
    assert s != {};
    assert forall a, b :: a in s && b in s ==> a == b by {
      forall a, b | a in s && b in s
        ensures a == b
      {
        SingletonIs(s, a, b);
      }
    }
    var x :| x in s;
    x
  }

  /** The session's share of finalizing a lease whose identity has been confirmed. */
  function Finalize(l: Lifecycle, now: Time): Result<(Lifecycle, Finalization), FinalizeError> {
    var active := ActiveTurns(l);
    if |active| > 1 then Err(TooManyTurns)
    else if |active| == 0 then
      if ActiveSession(l.state) then Err(ActiveSessionWithoutTurn) else Ok((l, Released))
    else
      var t := Only(active);
      var execute := ExecuteCommands(l, t);
      if |execute| != 1 then Err(ExecuteCommandCount)
      else FinalizeAssigned(l, t, Only(execute), now)
  }

  // ------------------------------------------------------------------ consistent lifecycles

  predicate Abreast(r: SM.RunState, a: SM.AttemptState) {
    || (r.Provisioning? && a.Provisioning?)
    || (r.Restoring? && a.Restoring?)
    || (r.Running? && a.Running?)
    || (r.Checkpointing? && a.Checkpointing?)
    || (r.CancelRequested? && a.CancelRequested?)
  }

  /** How far one execution has come, read off its rows. */
  predicate Fits(turn: SM.TurnState, command: SM.CommandState, published: bool, run: SM.RunState,
                 attempt: Option<SM.AttemptState>) {
    match command
    case Pending => turn.Queued? && !published && run.Queued?
    case Dispatched => turn.Dispatching? && !published && run.Claimed? && attempt == Some(SM.AttemptState.Claimed)
    case Acknowledged =>
      && (turn.Running? || turn.WaitingApproval? || turn.Cancelling?) && published
      && attempt.Some? && Abreast(run, attempt.value)
    case _ => SM.TerminalTurn(turn)
  }

  function CurrentAttempt(l: Lifecycle, c: CommandId): Option<SM.AttemptState>
    requires c in l.runs
  {
    match l.runs[c].current
    case Some(a) => if a in l.attempts then Some(l.attempts[a]) else None
    case None => None
  }

  ghost predicate Coherent(l: Lifecycle, c: CommandId)
    requires c in l.commands
  {
    var t := l.commands[c].turn;
    && t in l.turns && c in l.outbox && c in l.runs && l.runs[c].turn == t
    && (l.runs[c].current.Some? ==> l.runs[c].current.value in l.attempts)
    && Fits(l.turns[t], l.commands[c].state, l.outbox[c].published, l.runs[c].state, CurrentAttempt(l, c))
  }

  predicate Executes(l: Lifecycle, c: CommandId, t: TurnId) {
    c in l.commands && l.commands[c].execute && l.commands[c].turn == t
  }

  ghost predicate AllCoherent(l: Lifecycle) {
    forall c :: c in l.commands && l.commands[c].execute ==> Coherent(l, c)
  }

  /** Every turn has one execution command, which alone has a run, and no two executions share a turn or an attempt. */
  ghost predicate OneEach(l: Lifecycle) {
    && (forall t :: t in l.turns ==> exists c :: Executes(l, c, t))
    && (forall c, d, t :: Executes(l, c, t) && Executes(l, d, t) ==> c == d)
    && (forall c :: c in l.runs ==> c in l.commands && l.commands[c].execute)
    && (forall c, d :: c in l.runs && d in l.runs && l.runs[c].current.Some? && l.runs[c].current == l.runs[d].current ==> c == d)
  }

  /** Steers and cancellations exist only for turns that have been acknowledged. */
  ghost predicate OthersFollow(l: Lifecycle) {
    forall c :: c in l.commands && !l.commands[c].execute ==>
      l.commands[c].turn in l.turns && !l.turns[l.commands[c].turn].Queued? && !l.turns[l.commands[c].turn].Dispatching?
  }

  predicate SessionFits(s: SM.SessionState, t: SM.TurnState) {
    && (t.Dispatching? ==> s.Cold? || s.Idle?)
    && (t.Running? ==> s.Running?)
    && (t.WaitingApproval? ==> s.WaitingApproval?)
    && (t.Cancelling? ==> s.Cancelling?)
  }

  ghost predicate OneActiveTurn(l: Lifecycle) {
    && (forall t, u :: t in ActiveTurns(l) && u in ActiveTurns(l) ==> t == u)
    && (forall t :: t in ActiveTurns(l) ==> SessionFits(l.state, l.turns[t]))
    && (ActiveTurns(l) == {} ==> !ActiveSession(l.state))
  }

  ghost predicate Consistent(l: Lifecycle) {
    AllCoherent(l) && OneEach(l) && OthersFollow(l) && OneActiveTurn(l)
  }

  /**
   The execution command of a turn is dispatched, or acknowledged, exactly when the turn is in the
   matching states.
   */
  lemma TurnReadsCommand(l: Lifecycle, c: CommandId, t: TurnId)
    requires AllCoherent(l) && Executes(l, c, t)
    ensures t in l.turns
    ensures ActiveTurn(l.turns[t]) <==> l.commands[c].state.Dispatched? || l.commands[c].state.Acknowledged?
    ensures l.turns[t].Dispatching? <==> l.commands[c].state.Dispatched?
    ensures ActiveTurn(l.turns[t]) ==> Assigned(l, t, c)
  {
  }

  lemma ExecutesUnique(l: Lifecycle, c: CommandId, t: TurnId)
    requires AllCoherent(l) && OneEach(l) && Executes(l, c, t)
    requires t in l.turns && ActiveTurn(l.turns[t])
    ensures ExecuteCommands(l, t) == {c}
  {
    TurnReadsCommand(l, c, t);
    hide Coherent;
    assert forall d :: d in ExecuteCommands(l, t) ==> Executes(l, d, t);
  }

  lemma ActiveIs(l: Lifecycle, t: TurnId)
    requires OneActiveTurn(l) && t in ActiveTurns(l)
    ensures ActiveTurns(l) == {t}
  {
  }

  /** An acknowledged execution can always be failed: every transition it needs is legal. */
  lemma FailingIsLegal(l: Lifecycle, c: CommandId, t: TurnId)
    requires Consistent(l) && Executes(l, c, t) && l.commands[c].state.Acknowledged?
    ensures Assigned(l, t, c) && t in ActiveTurns(l)
    ensures ActiveSession(l.state) && CanFailEverything(l, t, c)
  {
    TurnReadsCommand(l, c, t);
    assert Coherent(l, c);
    assert t in ActiveTurns(l);
    RunCanFail(l.runs[c].state, CurrentAttempt(l, c).value);
    CommandsCanFail(l, t);
    NodesCanFail(l);
    hide OneEach, OthersFollow, AllCoherent, OpenCommands, Abreast, SM.RunNext, SM.AttemptNext, SM.CommandNext,
      SM.AgentNodeNext;
  }

  lemma RunCanFail(r: SM.RunState, a: SM.AttemptState)
    requires Abreast(r, a)
    ensures SM.RunState.Failed in SM.RunNext(r) && SM.AttemptState.Failed in SM.AttemptNext(a)
  {
  }

  lemma CommandsCanFail(l: Lifecycle, t: TurnId)
    ensures forall d :: d in OpenCommands(l, t) ==> SM.CommandState.Failed in SM.CommandNext(l.commands[d].state)
  {
  }

  lemma NodesCanFail(l: Lifecycle)
    ensures forall n :: n in l.nodes && OpenNode(l.nodes[n]) ==> SM.AgentNodeState.Failed in SM.AgentNodeNext(l.nodes[n])
  {
  }

  /** A dispatched execution is safely unacknowledged and every transition of requeueing it is legal. */
  lemma RequeueingIsLegal(l: Lifecycle, c: CommandId, t: TurnId)
    requires Consistent(l) && Executes(l, c, t) && l.commands[c].state.Dispatched?
    ensures Assigned(l, t, c) && t in ActiveTurns(l)
    ensures SafelyUnacknowledged(l, t, c) && CanRequeue(l, t, c)
  {
    TurnReadsCommand(l, c, t);
    assert Coherent(l, c);
    assert t in ActiveTurns(l);
    ExecutesUnique(l, c, t);
    assert OpenCommands(l, t) == {c} by {
      assert forall d :: d in OpenCommands(l, t) ==> d in ExecuteCommands(l, t);
    }
  }

  lemma FinalizeActive(l: Lifecycle, c: CommandId, t: TurnId, now: Time)
    requires Consistent(l) && Executes(l, c, t) && t in ActiveTurns(l)
    ensures Finalize(l, now) == FinalizeAssigned(l, t, c, now)
  {
    ActiveIs(l, t);
    ExecutesUnique(l, c, t);
    hide ActiveTurns, ExecuteCommands, Consistent, FinalizeAssigned, Executes;
  }

  /** A dispatched, hence never acknowledged, execution is requeued. */
  lemma FinalizeDispatched(l: Lifecycle, c: CommandId, t: TurnId, now: Time)
    requires Consistent(l) && Executes(l, c, t) && l.commands[c].state.Dispatched?
    ensures Assigned(l, t, c)
    ensures Finalize(l, now) == Ok((Requeue(l, t, c, now), Requeued))
  {
    RequeueingIsLegal(l, c, t);
    FinalizeActive(l, c, t, now);
    hide Consistent, Finalize, Executes, CanRequeue, SafelyUnacknowledged, ActiveTurns, Assigned, Requeue;
  }

  /** An acknowledged execution is failed with everything that depends on it. */
  lemma FinalizeAcknowledged(l: Lifecycle, c: CommandId, t: TurnId, now: Time)
    requires Consistent(l) && Executes(l, c, t) && l.commands[c].state.Acknowledged?
    ensures Assigned(l, t, c)
    ensures Finalize(l, now) == Ok((FailEverything(l, t, c), Settled))
  {
    FailingIsLegal(l, c, t);
    FinalizeActive(l, c, t, now);
    assert ActiveTurn(l.turns[t]);
    hide Consistent, Finalize, Executes, CanFailEverything, ActiveTurns, Assigned, FailEverything, ActiveSession,
      CanRequeue, Requeue, OpenCommands;
  }

  lemma FinalizeIdle(l: Lifecycle, now: Time)
    requires Consistent(l) && ActiveTurns(l) == {}
    ensures Finalize(l, now) == Ok((l, Released))
  {
    hide ActiveTurns;
  }

  /** The state of the one execution that is under way, if any. */
  ghost predicate ExecutionIn(l: Lifecycle, state: SM.CommandState) {
    exists c, t :: Executes(l, c, t) && l.commands[c].state == state
  }

  /**
   Finalizing a consistent lifecycle never fails, and which of its three outcomes it has is
   decided by how far the execution had come: a dispatched execution is requeued, an
   acknowledged one is failed, and otherwise the lease is released.
   */
  lemma FinalizeOutcome(l: Lifecycle, now: Time)
    requires Consistent(l)
    ensures Finalize(l, now).Ok?
    ensures Finalize(l, now).value.1.Requeued? <==> ExecutionIn(l, SM.CommandState.Dispatched)
    ensures Finalize(l, now).value.1.Settled? <==> ExecutionIn(l, SM.CommandState.Acknowledged)
    ensures Finalize(l, now).value.1.Released? <==>
            !ExecutionIn(l, SM.CommandState.Dispatched) && !ExecutionIn(l, SM.CommandState.Acknowledged)
  {
    if ActiveTurns(l) == {} {
      FinalizeIdle(l, now);
    } else {
      var t :| t in ActiveTurns(l);
      var c :| Executes(l, c, t);
      TurnReadsCommand(l, c, t);
      if l.commands[c].state.Dispatched? {
        FinalizeDispatched(l, c, t, now);
      } else {
        FinalizeAcknowledged(l, c, t, now);
      }
    }
    forall c, t | Executes(l, c, t)
      ensures l.commands[c].state.Dispatched? ==> Finalize(l, now).Ok? && Finalize(l, now).value.1.Requeued?
      ensures l.commands[c].state.Acknowledged? ==> Finalize(l, now).Ok? && Finalize(l, now).value.1.Settled?
    {
      if l.commands[c].state.Dispatched? {
        FinalizeDispatched(l, c, t, now);
      } else if l.commands[c].state.Acknowledged? {
        FinalizeAcknowledged(l, c, t, now);
      }
    }
    hide Consistent, Finalize, FailEverything, Requeue, ActiveTurns, Assigned, Executes;
  }
}
