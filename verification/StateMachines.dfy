/** The transition tables of the domain package. */
module StateMachines {

  datatype SessionState =
    | Cold | Starting | Idle | Running | WaitingApproval | Cancelling | Failed | Recovering | Evicting

  datatype TurnState =
    | Queued | Dispatching | Running | WaitingApproval | Cancelling | Completed | Failed | Cancelled

  datatype SandboxState = Provisioning | Ready | Leased | Draining | Failed | Terminated

  datatype ApprovalState = Pending | Resolved | Expired | Cancelled

  datatype AgentNodeState = Pending | Running | Waiting | Cancelling | Completed | Failed | Cancelled

  datatype CommandState = Pending | Dispatched | Acknowledged | Completed | Failed

  datatype RunState =
    | Queued | Claimed | Provisioning | Restoring | Running | Checkpointing | CancelRequested
    | Completed | Failed | Cancelled | TimedOut | Superseded

  datatype AttemptState =
    | Claimed | Provisioning | Restoring | Running | Checkpointing | CancelRequested
    | Completed | Failed | Cancelled | TimedOut | Superseded

  function SessionNext(s: SessionState): set<SessionState> {
    match s
    case Cold => {SessionState.Starting}
    case Starting => {SessionState.Idle, SessionState.Failed}
    case Idle => {SessionState.Running, SessionState.Evicting, SessionState.Failed}
    case Running => {SessionState.Idle, SessionState.WaitingApproval, SessionState.Cancelling, SessionState.Failed}
    case WaitingApproval => {SessionState.Running, SessionState.Cancelling, SessionState.Failed}
    case Cancelling => {SessionState.Idle, SessionState.Failed}
    case Failed => {SessionState.Recovering}
    case Recovering => {SessionState.Idle, SessionState.Failed}
    case Evicting => {SessionState.Cold, SessionState.Failed}
  }

  function TurnNext(s: TurnState): set<TurnState> {
    match s
    case Queued => {TurnState.Dispatching, TurnState.Cancelling}
    case Dispatching => {TurnState.Queued, TurnState.Running, TurnState.Cancelling, TurnState.Failed}
    case Running => {TurnState.WaitingApproval, TurnState.Cancelling, TurnState.Completed, TurnState.Failed}
    case WaitingApproval => {TurnState.Running, TurnState.Cancelling, TurnState.Failed}
    case Cancelling => {TurnState.Cancelled, TurnState.Failed}
    case _ => {}
  }

  function SandboxNext(s: SandboxState): set<SandboxState> {
    match s
    case Provisioning => {SandboxState.Ready, SandboxState.Failed, SandboxState.Terminated}
    case Ready => {SandboxState.Leased, SandboxState.Draining, SandboxState.Failed}
    case Leased => {SandboxState.Ready, SandboxState.Draining, SandboxState.Failed}
    case Draining => {SandboxState.Terminated, SandboxState.Failed}
    case Failed => {SandboxState.Terminated}
    case Terminated => {}
  }

  function ApprovalNext(s: ApprovalState): set<ApprovalState> {
    match s
    case Pending => {ApprovalState.Resolved, ApprovalState.Expired, ApprovalState.Cancelled}
    case _ => {}
  }

  function AgentNodeNext(s: AgentNodeState): set<AgentNodeState> {
    match s
    case Pending => {AgentNodeState.Running, AgentNodeState.Cancelling, AgentNodeState.Failed}
    case Running => {AgentNodeState.Waiting, AgentNodeState.Cancelling, AgentNodeState.Completed, AgentNodeState.Failed}
    case Waiting => {AgentNodeState.Running, AgentNodeState.Cancelling, AgentNodeState.Completed, AgentNodeState.Failed}
    case Cancelling => {AgentNodeState.Cancelled, AgentNodeState.Failed}
    case _ => {}
  }

  function CommandNext(s: CommandState): set<CommandState> {
    match s
    case Pending => {CommandState.Dispatched, CommandState.Failed}
    case Dispatched => {CommandState.Pending, CommandState.Acknowledged, CommandState.Failed}
    case Acknowledged => {CommandState.Completed, CommandState.Failed}
    case _ => {}
  }

  function RunNext(s: RunState): set<RunState> {
    match s
    case Queued => {RunState.Claimed, RunState.CancelRequested, RunState.Failed}
    case Claimed => {RunState.Queued, RunState.Provisioning} + RunEnds(true)
    case Provisioning => {RunState.Queued, RunState.Restoring, RunState.Running} + RunEnds(true)
    case Restoring => {RunState.Queued, RunState.Running} + RunEnds(true)
    case Running => {RunState.Checkpointing, RunState.Completed} + RunEnds(true)
    case Checkpointing => {RunState.Completed} + RunEnds(true)
    case CancelRequested => {RunState.Cancelled} + RunEnds(false)
    case _ => {}
  }

  /** The exits every started run has; a run asked to cancel cannot be asked again. */
  function RunEnds(cancellable: bool): set<RunState> {
    {RunState.Failed, RunState.TimedOut, RunState.Superseded} + if cancellable then {RunState.CancelRequested} else {}
  }

  function AttemptNext(s: AttemptState): set<AttemptState> {
    match s
    case Claimed => {AttemptState.Provisioning} + AttemptEnds(false)
    case Provisioning => {AttemptState.Restoring, AttemptState.Running} + AttemptEnds(true)
    case Restoring => {AttemptState.Running} + AttemptEnds(true)
    case Running => {AttemptState.Checkpointing, AttemptState.Completed} + AttemptEnds(true)
    case Checkpointing => {AttemptState.Completed} + AttemptEnds(true)
    case CancelRequested => {AttemptState.Cancelled} + AttemptEnds(false)
    case _ => {}
  }

  function AttemptEnds(cancellable: bool): set<AttemptState> {
    {AttemptState.Failed, AttemptState.TimedOut, AttemptState.Superseded} +
    if cancellable then {AttemptState.CancelRequested} else {}
  }

  predicate TerminalTurn(s: TurnState) {
    s.Completed? || s.Failed? || s.Cancelled?
  }

  predicate TerminalCommand(s: CommandState) {
    s.Completed? || s.Failed?
  }

  predicate TerminalAgentNode(s: AgentNodeState) {
    s.Completed? || s.Failed? || s.Cancelled?
  }

  predicate TerminalRun(s: RunState) {
    s.Completed? || s.Failed? || s.Cancelled? || s.TimedOut? || s.Superseded?
  }

  predicate TerminalAttempt(s: AttemptState) {
    s.Completed? || s.Failed? || s.Cancelled? || s.TimedOut? || s.Superseded?
  }

  lemma TerminalTurnExits(t: TurnState)
    ensures TerminalTurn(t) <==> TurnNext(t) == {}
  {
    assert !TerminalTurn(t) && !t.Queued? ==> TurnState.Failed in TurnNext(t);
    assert t.Queued? ==> TurnState.Dispatching in TurnNext(t);
  }

  lemma TerminalRunExits(r: RunState)
    ensures TerminalRun(r) <==> RunNext(r) == {}
  {
    assert !TerminalRun(r) ==> RunState.Failed in RunNext(r);
  }

  lemma TerminalAttemptExits(a: AttemptState)
    ensures TerminalAttempt(a) <==> AttemptNext(a) == {}
  {
    assert !TerminalAttempt(a) ==> AttemptState.Failed in AttemptNext(a);
  }

  /** The terminal predicates name exactly the states that have no way out. */
  lemma TerminalMeansNoExit(t: TurnState, c: CommandState, n: AgentNodeState, r: RunState, a: AttemptState)
    ensures TerminalTurn(t) <==> TurnNext(t) == {}
    ensures TerminalCommand(c) <==> CommandNext(c) == {}
    ensures TerminalAgentNode(n) <==> AgentNodeNext(n) == {}
    ensures TerminalRun(r) <==> RunNext(r) == {}
    ensures TerminalAttempt(a) <==> AttemptNext(a) == {}
  {
    hide TurnNext, RunNext, AttemptNext;
    TerminalTurnExits(t);
    TerminalRunExits(r);
    TerminalAttemptExits(a);
    assert !TerminalCommand(c) ==> CommandState.Failed in CommandNext(c);
    assert !TerminalAgentNode(n) ==> AgentNodeState.Failed in AgentNodeNext(n);
  }

  // ------------------------------------------------------------------ the tables by the state that is entered

  lemma SessionEntered(s: SessionState, t: SessionState)
    ensures t in SessionNext(s) <==>
            match t
            case Cold => s.Evicting?
            case Starting => s.Cold?
            case Idle => s.Starting? || s.Running? || s.Cancelling? || s.Recovering?
            case Running => s.Idle? || s.WaitingApproval?
            case WaitingApproval => s.Running?
            case Cancelling => s.Running? || s.WaitingApproval?
            case Failed => !s.Cold? && !s.Failed?
            case Recovering => s.Failed?
            case Evicting => s.Idle?
  {
  }

  lemma TurnEntered(s: TurnState, t: TurnState)
    ensures t in TurnNext(s) <==>
            match t
            case Queued => s.Dispatching?
            case Dispatching => s.Queued?
            case Running => s.Dispatching? || s.WaitingApproval?
            case WaitingApproval => s.Running?
            case Cancelling => s.Queued? || s.Dispatching? || s.Running? || s.WaitingApproval?
            case Completed => s.Running?
            case Failed => s.Dispatching? || s.Running? || s.WaitingApproval? || s.Cancelling?
            case Cancelled => s.Cancelling?
  {
  }

  lemma SandboxEntered(s: SandboxState, t: SandboxState)
    ensures t in SandboxNext(s) <==>
            match t
            case Provisioning => false
            case Ready => s.Provisioning? || s.Leased?
            case Leased => s.Ready?
            case Draining => s.Ready? || s.Leased?
            case Failed => s.Provisioning? || s.Ready? || s.Leased? || s.Draining?
            case Terminated => s.Provisioning? || s.Draining? || s.Failed?
  {
  }

  lemma ApprovalEntered(s: ApprovalState, t: ApprovalState)
    ensures t in ApprovalNext(s) <==> s.Pending? && !t.Pending?
  {
  }

  lemma AgentNodeEntered(s: AgentNodeState, t: AgentNodeState)
    ensures t in AgentNodeNext(s) <==>
            match t
            case Pending => false
            case Running => s.Pending? || s.Waiting?
            case Waiting => s.Running?
            case Cancelling => s.Pending? || s.Running? || s.Waiting?
            case Completed => s.Running? || s.Waiting?
            case Failed => s.Pending? || s.Running? || s.Waiting? || s.Cancelling?
            case Cancelled => s.Cancelling?
  {
  }

  lemma CommandEntered(s: CommandState, t: CommandState)
    ensures t in CommandNext(s) <==>
            match t
            case Pending => s.Dispatched?
            case Dispatched => s.Pending?
            case Acknowledged => s.Dispatched?
            case Completed => s.Acknowledged?
            case Failed => s.Pending? || s.Dispatched? || s.Acknowledged?
  {
  }

  /** A run that was claimed and has not ended. */
  predicate Started(s: RunState) {
    s.Claimed? || s.Provisioning? || s.Restoring? || s.Running? || s.Checkpointing? || s.CancelRequested?
  }

  lemma RunEntered(s: RunState, t: RunState)
    ensures t in RunNext(s) <==>
            match t
            case Queued => s.Claimed? || s.Provisioning? || s.Restoring?
            case Claimed => s.Queued?
            case Provisioning => s.Claimed?
            case Restoring => s.Provisioning?
            case Running => s.Provisioning? || s.Restoring?
            case Checkpointing => s.Running?
            case CancelRequested => s.Queued? || (Started(s) && !s.CancelRequested?)
            case Completed => s.Running? || s.Checkpointing?
            case Failed => s.Queued? || Started(s)
            case Cancelled => s.CancelRequested?
            case TimedOut => Started(s)
            case Superseded => Started(s)
  {
  }

  lemma AttemptEntered(s: AttemptState, t: AttemptState)
    ensures t in AttemptNext(s) <==>
            match t
            case Claimed => false
            case Provisioning => s.Claimed?
            case Restoring => s.Provisioning?
            case Running => s.Provisioning? || s.Restoring?
            case Checkpointing => s.Running?
            case CancelRequested => s.Provisioning? || s.Restoring? || s.Running? || s.Checkpointing?
            case Completed => s.Running? || s.Checkpointing?
            case Cancelled => s.CancelRequested?
            case _ => !TerminalAttempt(s)
  {
  }
}
