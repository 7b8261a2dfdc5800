# Verification model

A Dafny model of the control plane's stateful cores, with proofs of what they keep over every run. A
database transaction is one atomic step: an error thrown inside it leaves no trace, a rejection that
is returned commits what was written before it. Tables are maps, rows are datatypes, and the
asynchronous code is cut into the synchronous stretches between its awaits, which may interleave in
any order. Times are natural numbers taken from arbitrary clocks; nothing assumes that they agree or
advance.

The project has four parts.

**Conversation forest** (`Branches`, `MappedEntries`, `Sessions`, `Forest`, `FocusView`, `ForkCopy`,
`ConversationStore`, `TreeConditions`, `RestoreWitness`, `DeepLineage`). Sessions are parent-linked
entry trees with a movable leaf. Forks copy a path, prunes move the leaf back and archive later
forks, and the focused view glues the ancestors' own branches together. `Forest.Run` is any sequence
of forks, prunes, archives, restores, admitted, advanced and settled turns. One natural expectation
fails in the code: restoring a fork checks that its parent is live, not that the fork turn is still
there. `RestoreWitness` is a run that loses an anchor this way; `Forest.AnchoredThroughoutIff` says
exactly which runs lose none, and `FocusView.TreeShownIff` exactly which conversations can be shown.
Nor does a fork check how deep it is: `DeepLineage` reaches lineages of every length, and those
above 100 sessions can be neither shown nor read. `TreeConditions` says of each step exactly when it
goes through and what it writes.

**Supervisor fencing, retirement and reconciliation** (`StateMachines`, `SupervisorFleet`,
`FleetSafety`, `RetirementClaims`, `Assignments`, `LifecycleRuns`, `Reconciliation`,
`SupervisorRuns`, `SupervisorInvariant`, `RetirementInvariant`, `SupervisorSafety`,
`AcknowledgedWork`, `SandboxMoves`, `QuarantineWitness`, `QuarantineExact`,
`RegistrationConditions`, `ExpiredConnections`, `ProvisioningConditions`, `RetirementProgress`,
`LifecycleProgress`, and the classes `SupervisorConnectionManager` and `AssignmentReconciler`).
`SupervisorRuns.After` is any interleaving of provisioning, registration, heartbeats, expiry,
leases, execution events, expired reconciliation, quarantine and retirement workers of any number of
control planes. The run carries what the tables do not: which owner stops were confirmed, which
sandboxes were quarantined, and how far each worker has come. One natural expectation fails in the
code: an active connection's sandbox is not always ready or leased, because quarantining a sandbox
closes no connection (`QuarantineWitness.ActiveOnFailedSandbox`). It is so exactly until a
quarantine of the sandbox follows the opening of the connection (`QuarantineExact`).

**Worker control channel and steering** (`ControlChannel`, `ControlChannelRuns`,
`WorkerControlChannel`, `Steering`, `SteerHonesty`, `SteerProgress`). Three maps of pending
exchanges per connection, with timers, failed sends, supersession and promises. Releasing is two
steps: its checks, and the removal after the send. A steer is part of a run of the channel: it takes
its prepare, commit and release steps on the router, and anything may happen on the channel while it
waits.

**Bounded views** (`HistoryWindow`, `HistoryRows`, `TreeHistory`, `DelegatedSessions`, `FilePaging`,
`AttemptHistory`). Each bounded or binary-searched view is proved equal to the unbounded one it
stands for, and the focused tree and the history are proved to show the same completed turns.

Beside what must never happen, the modules ending in `Conditions` say exactly which requests go
through, and those ending in `Progress` what the steps achieve when nobody interferes.

Where the code works step by step the model does too: a class or method follows the statements of
the code and is proved to be a function of the old state, and the properties are proved of that
function over all runs. `dafny verify dfyconfig.toml` checks everything.

## Assumptions

- Identifiers generated by the code are new, and fingerprints and digests are injective.
- A completed turn appends exactly one final assistant message and is completed after every earlier
  one; a failed or cancelled turn appends none (`Sessions.CanSettle`).
- Source sessions of a fork are conversations.
- Leases are granted only over an active connection on a ready or leased sandbox with room, to a
  session that is cold or idle, as the lease coordinator does; giving one back follows its code too.
- The execution of a turn moves as the run command executor moves it (`LifecycleRuns.Event`): a
  dispatched execution has its run and attempt claimed, and steers and cancellations are created only
  for acknowledged turns. A session changes between its states at rest only while it has no active
  turn.
- The owner stop and the inventory either confirm or fail; the model takes their answer as given. An
  inventory lists a runtime identifier once.
- What a steer throws before its commit is a refusal, a lost lease or an unreadable message; none of
  these is marked ambiguous where it is built (`Steering.EarlyError`).

## Model

| member | source | states |
|---|---|---|
| StateMachines.TerminalMeansNoExit | packages/domain/src/state-machines.ts:285-323 | the terminal predicates of turns, commands, agent nodes, runs and attempts name exactly the states from which the tables allow no transition |
| StateMachines.SessionEntered | packages/domain/src/state-machines.ts:93-103 | from which states each session state can be entered, and from no other |
| StateMachines.TurnEntered | packages/domain/src/state-machines.ts:105-114 | from which states each turn state can be entered, and from no other |
| StateMachines.SandboxEntered | packages/domain/src/state-machines.ts:116-123 | from which states each sandbox state can be entered, and from no other |
| StateMachines.ApprovalEntered | packages/domain/src/state-machines.ts:125-130 | an approval moves once, from pending |
| StateMachines.AgentNodeEntered | packages/domain/src/state-machines.ts:132-140 | from which states each agent-node state can be entered, and from no other |
| StateMachines.CommandEntered | packages/domain/src/state-machines.ts:142-148 | from which states each command state can be entered, and from no other |
| StateMachines.RunEntered | packages/domain/src/state-machines.ts:150-171 | from which states each run state can be entered, and from no other |
| StateMachines.AttemptEntered | packages/domain/src/state-machines.ts:173-185 | from which states each attempt state can be entered, and from no other |
| Branches.ComputeActiveBranch | packages/control-plane/src/conversation-tree-service.ts:100-125 | the cursor loop with its seen set ends on every table and returns the branch, the cycle or the missing parent that the recursive climb defines |
| Branches.ActiveBranchIsTheBranch | packages/control-plane/src/conversation-tree-service.ts:100-125 | the result is a branch if and only if it is the root-to-leaf path of the leaf, so that path is unique |
| Branches.ActiveBranchTrichotomy | packages/control-plane/src/conversation-tree-service.ts:100-125 | the climb succeeds exactly when the parent links reach a root, reports a missing parent exactly when they leave the table, and a cycle exactly when they repeat |
| Branches.BranchIdsDistinct | packages/control-plane/src/conversation-tree-service.ts:100-125 | no entry occurs twice on a branch |
| MappedEntries.ComputeMappedEntries | packages/control-plane/src/conversation-tree-service.ts:139-186 | the loops over finals and paired tails compute the mapped view for any numbers of finals and completed turns |
| MappedEntries.MappedCut | packages/control-plane/src/conversation-tree-service.ts:139-186 | cutting the branch after a mapped final and the turns after its turn yields a prefix of the old view that ends with that final: tail alignment is stable |
| MappedEntries.MappedComplete | packages/control-plane/src/conversation-tree-service.ts:139-186 | a later completed turn with its one final extends the view and changes nothing in it |
| MappedEntries.MappedNoFinal | packages/control-plane/src/conversation-tree-service.ts:139-186 | entries without a final leave the view as it was |
| MappedEntries.TargetsAreAnchors | packages/control-plane/src/conversation-tree-service.ts:698-727 | an entry of the view is accepted as a fork or prune target if and only if it is the final that the tail pairing gives to that turn |
| MappedEntries.MappedOrdered | packages/control-plane/src/conversation-tree-service.ts:139-186 | the entries of a view stand in branch order, each at most once |
| MappedEntries.FinalsExactly | packages/control-plane/src/conversation-tree-service.ts:139-148 | the finals are exactly the assistant messages that settled, wherever they stand |
| MappedEntries.MappedShows | packages/control-plane/src/conversation-tree-service.ts:149-186 | the view consists of exactly each pair's final and the first user message between it and the pair before, if there is one, each as it stands in the branch and under its pair's turn |
| Sessions.SettleOk | packages/control-plane/src/conversation-tree-service.ts:139-186 | settling a turn keeps the session well formed, keeps every anchor with the path to it, and puts no entry back on the branch |
| Sessions.PruneOk | packages/control-plane/src/conversation-tree-service.ts:611-949 | a prune to a mapped final keeps the session well formed; anchors of turns that survive stay, with the path to them, and those of pruned turns leave the branch |
| Sessions.PruneIsPrefix | packages/control-plane/src/conversation-tree-service.ts:698-743 | the view after a prune is a prefix of the view before it and ends with the final that was pruned to |
| Sessions.PruneKeepsAnchor | packages/control-plane/src/conversation-tree-service.ts:729-743 | an anchor whose turn the prune does not mark is still an anchor of the same turn and entry, over the same path |
| Sessions.PruneDropsAnchor | packages/control-plane/src/conversation-tree-service.ts:729-743 | an anchor whose turn the prune marks is no longer on the branch |
| Forest.AnchorIffUnpruned | packages/control-plane/src/conversation-tree-service.ts:382-393 | in every reachable forest, restores included, a fork's turn and entry are an anchor of its parent's own branch if and only if that turn is not pruned there |
| Forest.ForkCopiesPath | packages/control-plane/src/conversation-tree-service.ts:1115-1183 | the child's active branch is the source's branch up to the fork entry, and the child owns none of it |
| Forest.ForkInv | packages/control-plane/src/conversation-tree-service.ts:951-1293 | a fork keeps the forest invariant, and its fork point is an anchor of its source |
| Forest.PruneInv | packages/control-plane/src/conversation-tree-service.ts:611-949 | a prune keeps the forest invariant, and only anchors can be pruned to |
| Forest.PruneClosed | packages/control-plane/src/conversation-tree-service.ts:745-769 | after a prune every live conversation has a live parent, and no live one hangs from a pruned turn unless one did before |
| Forest.PruneArchivesExactly | packages/control-plane/src/conversation-tree-service.ts:745-874 | prune archives exactly the live children forked at the anchor's turn or later with everything live below them, moves its own leaf, and touches no other session |
| Forest.ArchiveInv | packages/control-plane/src/workspace-version-service.ts:327-473 | archiving keeps the forest invariant, the closure under live parents and the anchors |
| Forest.ArchiveTakesAllDescendants | packages/control-plane/src/workspace-version-service.ts:327-455 | although its search follows live children only, archiving leaves every descendant archived and every other session unchanged |
| Forest.UnarchiveInv | packages/control-plane/src/workspace-version-service.ts:285-505 | restoring keeps the closure; all live conversations are anchored after it exactly if they were before and the restored fork's turn is not pruned in its parent |
| Forest.ApplyGood | packages/control-plane/src/conversation-tree-service.ts:298-1293 | every step keeps the forest invariant, and every step keeps all live anchors unless it restores a conversation whose fork turn was pruned; restoring such a one always loses an anchor |
| Forest.RunGood | packages/control-plane/src/conversation-tree-service.ts:298-1293 | every run keeps the forest invariant; runs whose restored conversations still have their fork turn also keep every live anchor |
| Forest.AnchoredThroughoutIff | packages/control-plane/src/workspace-version-service.ts:285-505 | a run keeps every live conversation anchored at every moment if and only if it never restores one whose fork turn was pruned while it was archived |
| Forest.ForkAnchorSafety | packages/control-plane/src/conversation-tree-service.ts:382-393 | in every forest reached without restoring a conversation that had lost its fork turn, each live fork's turn and entry are still an anchor of its live parent |
| TreeConditions.ForksIff | packages/control-plane/src/conversation-tree-service.ts:1000-1113 | a fork goes through if and only if its source is live and at rest, the quota has room, and turn and entry are an anchor of it |
| TreeConditions.PrunesIff | packages/control-plane/src/conversation-tree-service.ts:640-801 | a prune goes through if and only if its session is live and at rest, turn and entry are an anchor, no delegated session is active, and all that is live below forks at that turn or later is at rest |
| TreeConditions.ArchivesIff | packages/control-plane/src/workspace-version-service.ts:300-455 | archiving goes through if and only if the session is live and at rest with everything live below it and no delegated session active |
| TreeConditions.RestoresIff | packages/control-plane/src/workspace-version-service.ts:285-326 | restoring goes through if and only if the session is archived and at rest, its parent live and its workspace free |
| TreeConditions.PruneArchives | packages/control-plane/src/conversation-tree-service.ts:745-874 | a prune archives exactly what is live at or below the live forks made at its turn or a later one |
| TreeConditions.OnlyAtRestChanges | packages/control-plane/src/conversation-tree-service.ts:770-801 | over every run, whatever session a fork, prune, archive or restore changes was at rest: nothing that runs is pruned or archived |
| TreeConditions.ForkWrites | packages/control-plane/src/conversation-tree-service.ts:1115-1293 | a fork adds exactly one live, cold session without turns, with the source's branch up to the entry and its leaf there |
| TreeConditions.PruneWrites | packages/control-plane/src/conversation-tree-service.ts:803-930 | a prune leaves its session idle with its leaf at the entry, marks exactly the turns after the anchor's, and moves no entry |
| TreeConditions.FlagsAlone | packages/control-plane/src/workspace-version-service.ts:285-505 | archiving and restoring change nothing but archive flags, restoring only its own session's |
| FocusView.LineageFound | packages/control-plane/src/conversation-tree-service.ts:1295-1328 | in a reachable forest the climb from a live conversation finds its whole lineage, or reports it too deep exactly above 100 sessions |
| FocusView.InheritedPart | packages/control-plane/src/conversation-tree-service.ts:127-137 | what a fork inherits is its parent's branch up to the fork entry, that is the parent's own inheritance followed by the parent's own branch cut there |
| FocusView.LineageGlues | packages/control-plane/src/conversation-tree-service.ts:375-409 | cutting each ancestor's own branch at the next fork entry and concatenating along the lineage gives exactly the last session's active branch |
| FocusView.AnchorMissingIffPruned | packages/control-plane/src/conversation-tree-service.ts:382-393 | the missing-anchor error of the focused view occurs exactly where the next session's fork turn was pruned |
| FocusView.TreeShownIff | packages/control-plane/src/conversation-tree-service.ts:375-409 | in a reachable forest the focused tree of a live conversation is shown if and only if its lineage has at most 100 sessions, none of its fork turns was pruned and it has at most 10000 entries, and it is then all segments of the lineage; else a deeper lineage is refused, and otherwise whatever comes first from the root is the error: the first pruned fork turn or the entries passing 10000 |
| FocusView.FocusShowsActiveBranch | packages/control-plane/src/conversation-tree-service.ts:375-409 | in every forest reached without restoring a conversation that had lost its fork turn, the own branches along the lineage glue to the active branch, the focused tree is shown exactly up to 100 sessions and 10000 entries, and its entries follow the active branch in order without repeats |
| FocusView.RestoredForkHasNoAnchor | packages/control-plane/src/workspace-version-service.ts:285-326 | restoring a fork whose turn was pruned meanwhile succeeds and leaves a live conversation whose focused tree is an error |
| RestoreWitness.RestoredWithoutAnchor | packages/control-plane/src/workspace-version-service.ts:285-326 | a concrete run (fork, archive the fork, prune the parent behind it, restore the fork) after which the focused tree of a live conversation is the missing-anchor error |
| ConversationStore.ConversationStore.Fork | packages/control-plane/src/conversation-tree-service.ts:951-1293 | the fork transaction, check by check, is the fork step of the forest, answers as it does and keeps the invariant; it stores for the child exactly its branch's entries and that branch's labels, numbered without gap, and writes nothing when it refuses |
| ConversationStore.ConversationStore.Prune | packages/control-plane/src/conversation-tree-service.ts:611-949 | the prune transaction is the prune step; its receipt counts exactly the turns newly marked and the sessions archived, and the stored lane moves to the anchor under the next number |
| ConversationStore.ConversationStore.CollectLiveDescendants | packages/control-plane/src/conversation-tree-service.ts:745-769 | the recursive query ends and returns exactly the live sessions reachable from its seeds through live sessions |
| ConversationStore.ConversationStore.MarkPruned | packages/control-plane/src/conversation-tree-service.ts:729-743 | marks exactly the turns after the anchor's mailbox position and counts those not marked before |
| ConversationStore.ConversationStore.SetArchived | packages/control-plane/src/workspace-version-service.ts:285-505 | archive and restore are the steps of the same name, with the same refusals, and change only the sessions they report |
| ConversationStore.ConversationStore.FindLineage | packages/control-plane/src/conversation-tree-service.ts:1295-1328 | the loop that collects upwards and reverses returns the lineage or the error the recursive climb defines |
| ConversationStore.ConversationStore.FocusedTree | packages/control-plane/src/conversation-tree-service.ts:375-409 | the loop over the lineage returns the focused tree: one segment for each session, or the first error on the way |
| ConversationStore.ConversationStore.ShowSegment | packages/control-plane/src/conversation-tree-service.ts:376-400 | one session's segment is its mapped view cut after the entry at which the next session forked |
| ConversationStore.ReceiptCounts | packages/control-plane/src/conversation-tree-service.ts:729-743 | the receipt's count is the number of turns that the prune marks and that were not marked before |
| ConversationStore.SourceLabels | packages/control-plane/src/conversation-tree-service.ts:1195-1249 | a fork looks at exactly the labels its source has in store |
| ForkCopy.CopySession | packages/control-plane/src/conversation-tree-service.ts:1115-1249 | the child's rows are its path's entries, the lane, the name and exactly the labels of copied entries, unchanged; their sequence numbers are 1 up to the stored counter without gap |
| ForkCopy.NumbersDistinct | packages/control-plane/src/conversation-tree-service.ts:1115-1249 | every number from 1 below the counter belongs to one entry or one log row and never to both |
| ForkCopy.MoveLane | packages/control-plane/src/conversation-tree-service.ts:876-902 | moving the lane in a prune logs it under the next number and keeps the numbering without gap |
| SupervisorFleet.FenceOneMore | packages/control-plane/src/supervisor-connection-manager.ts:496-502 | fencing sandboxes one after the other is fencing them together |
| FleetSafety.FenceSafe | packages/control-plane/src/supervisor-connection-manager.ts:950-992 | fencing keeps the invariant, and every sandbox it fences is under retirement unless it was already terminated |
| FleetSafety.RegisterSafe | packages/control-plane/src/supervisor-connection-manager.ts:336-577 | every outcome of a registration keeps the invariant: one active connection per supervisor, serving sandboxes behind connections, closed ones under retirement |
| FleetSafety.NewestBootWins | packages/control-plane/src/supervisor-connection-manager.ts:496-557 | a registration that opens a connection leaves the supervisor no other active one, and every older sandbox that was not terminated failed and under retirement |
| FleetSafety.RegisterReplays | packages/control-plane/src/supervisor-connection-manager.ts:393-417 | registering again over the same transport before expiry is answered with the same connection and changes nothing |
| FleetSafety.UnreachableRejections | packages/control-plane/src/supervisor-connection-manager.ts:356-366 | the boot-collision and the connection-history rejections cannot occur in any reachable state |
| FleetSafety.HeartbeatSafe | packages/control-plane/src/supervisor-connection-manager.ts:597-622 | an empty heartbeat keeps the invariant |
| FleetSafety.ExpireSafe | packages/control-plane/src/supervisor-connection-manager.ts:994-1031 | expiring a connection keeps the invariant and puts its sandbox under retirement |
| FleetSafety.ProvisionSafe | packages/control-plane/src/supervisor-boot-provisioner.ts:265-368 | provisioning keeps the invariant, in particular one unrevoked credential per supervisor and one sandbox per boot |
| FleetSafety.ConflictChoiceIrrelevant | packages/control-plane/src/supervisor-boot-provisioner.ts:372-401 | the outcome of a provision does not depend on which of several conflicting credential rows the query returns |
| FleetSafety.ProvisionReplays | packages/control-plane/src/supervisor-boot-provisioner.ts:303-325 | repeating a provision in time reports the same expiry as idempotent and changes nothing |
| RegistrationConditions.RegistersIff | packages/control-plane/src/supervisor-connection-manager.ts:336-577 | in every safe state a registration is accepted if and only if nothing stands against opening a connection, or it repeats the one that opened a running connection |
| RegistrationConditions.ExpiredNotRevived | packages/control-plane/src/supervisor-connection-manager.ts:486-497 | a registration on a sandbox whose active connection has passed its deadline is refused, whatever it brings, and no other connection becomes active there |
| RegistrationConditions.ExpiredIsFenced | packages/control-plane/src/supervisor-connection-manager.ts:486-497 | and if only the deadline stands against it the sandbox is fenced |
| RegistrationConditions.ExpiredRepeatIsFenced | packages/control-plane/src/supervisor-connection-manager.ts:419-433 | repeating a registration whose connection has passed its deadline fences the sandbox and is answered as stale |
| RegistrationConditions.OpenedIsCurrent | packages/control-plane/src/supervisor-connection-manager.ts:505-545 | an accepted connection is current for exactly the heartbeat timeout, for its own boot, transport and instance alone |
| RegistrationConditions.HeartbeatExtends | packages/control-plane/src/supervisor-connection-manager.ts:584-622 | an accepted heartbeat makes the connection current for exactly the timeout from then on; any other changes nothing |
| RegistrationConditions.CurrentOrExpired | packages/control-plane/src/supervisor-connection-manager.ts:994-1031 | a running connection is at any time either current for its own identity or expired |
| RegistrationConditions.EventAuthorizedIff | packages/control-plane/src/supervisor-connection-manager.ts:665-760 | an event is accepted exactly over the running, unexpired connection of its boot under the lease and token the session holds there now |
| ExpiredConnections.ExpiredStaysAlone | packages/control-plane/src/supervisor-connection-manager.ts:486-497 | over every run, from the moment an active connection has passed its deadline no step makes another connection active on its sandbox |
| ProvisioningConditions.ProvisionsIff | packages/control-plane/src/supervisor-boot-provisioner.ts:233-370 | a provision succeeds if and only if policy and host admit it and the request is new in every identity or was served before and its credential is still good |
| ProvisioningConditions.ProvisionWrites | packages/control-plane/src/supervisor-boot-provisioner.ts:233-370 | a new provision writes exactly its sandbox, its credential, the revocation of the supervisor's others and the host at the configured maximum, never wider than before |
| SupervisorConnectionManager.SupervisorConnectionManager.FenceSandbox | packages/control-plane/src/supervisor-connection-manager.ts:950-992 | closes the active connections, fails the sandbox unless it is over and opens its retirement unless there is one, and nothing else |
| SupervisorConnectionManager.SupervisorConnectionManager.FenceReplaced | packages/control-plane/src/supervisor-connection-manager.ts:496-502 | the loop over the other sandboxes fences exactly those, all with the new-boot reason |
| SupervisorConnectionManager.SupervisorConnectionManager.Replay | packages/control-plane/src/supervisor-connection-manager.ts:393-433 | the answers to a known transport: conflict, replay, or stale with the sandbox fenced when its connection had expired |
| SupervisorConnectionManager.SupervisorConnectionManager.RegisterNew | packages/control-plane/src/supervisor-connection-manager.ts:435-577 | the checks and writes for a new transport, in order, end in exactly the decision of the specification |
| SupervisorConnectionManager.SupervisorConnectionManager.Register | packages/control-plane/src/supervisor-connection-manager.ts:328-582 | the registration transaction produces the specified tables and answer and keeps the invariant |
| SupervisorConnectionManager.SupervisorConnectionManager.Heartbeat | packages/control-plane/src/supervisor-connection-manager.ts:584-622 | accepted if and only if the connection is current and unexpired; then only its deadline moves |
| SupervisorConnectionManager.SupervisorConnectionManager.ExpireConnection | packages/control-plane/src/supervisor-connection-manager.ts:994-1031 | fences if and only if the connection is active and past its deadline |
| SupervisorConnectionManager.SupervisorConnectionManager.ExpireConnections | packages/control-plane/src/supervisor-connection-manager.ts:762-784 | after the sweep no candidate is active past its deadline, and only connections that were are reported |
| SupervisorConnectionManager.SupervisorConnectionManager.ClaimRetirement | packages/control-plane/src/supervisor-connection-manager.ts:1033-1082 | claims the row that was opened first among those due and not locked, ties by sandbox, with one more attempt, and hands out its identity; it claims none only if none is due |
| SupervisorConnectionManager.SupervisorConnectionManager.RenewClaim | packages/control-plane/src/supervisor-connection-manager.ts:1084-1098 | extends the claim if and only if it is held and has not run out; else changes nothing |
| SupervisorConnectionManager.SupervisorConnectionManager.CompleteClaim | packages/control-plane/src/supervisor-connection-manager.ts:1100-1138 | completes the row if and only if the claim is held and the claimed boot's sandbox is terminated |
| SupervisorConnectionManager.SupervisorConnectionManager.FailClaim | packages/control-plane/src/supervisor-connection-manager.ts:1140-1164 | releases the row to waiting or blocked if and only if the claim is held |
| SupervisorConnectionManager.SupervisorConnectionManager.Provision | packages/control-plane/src/supervisor-boot-provisioner.ts:233-370 | the provisioning transaction produces the specified tables and answer, rolls back on every error and keeps the invariant |
| RetirementClaims.LostClaim | packages/control-plane/src/supervisor-connection-manager.ts:1084-1164 | renewing, completing and releasing are all refused to a claim that is not the one on the row |
| RetirementProgress.FencedIsDue | packages/control-plane/src/supervisor-connection-manager.ts:950-992 | fencing opens a retirement of the very boot that is due at once, and leaves one that is there |
| RetirementProgress.TakeHolds | packages/control-plane/src/supervisor-connection-manager.ts:1033-1082 | a row is taken exactly if it waits and its time has come or its claim has run out; taking begins one more attempt for the duration asked and touches no other row |
| RetirementProgress.RunningClaimIsExclusive | packages/control-plane/src/supervisor-connection-manager.ts:1038-1054 | a claim that still runs cannot be taken over |
| RetirementProgress.ClaimOperationsIff | packages/control-plane/src/supervisor-connection-manager.ts:1084-1164 | renewing, completing and releasing work exactly for the holder, renewing while the claim runs, completing once the claimed boot's sandbox is terminated |
| RetirementProgress.FailFrees | packages/control-plane/src/supervisor-connection-manager.ts:1140-1164 | giving up frees the row, to be taken again exactly from the delay on, or blocks it for good |
| RetirementProgress.RetirementGetsDone | packages/control-plane/src/supervisor-connection-manager.ts:786-811 | a due retirement that is claimed, stopped, renewed in time and fully observed ends completed, with the sandbox terminated and free of leases |
| RetirementProgress.ClaimsEndProperly | packages/control-plane/src/supervisor-connection-manager.ts:1033-1164 | in every run a claim ends only by a step of its holder or by being taken after it has run out |
| RetirementInvariant.RunGood | packages/control-plane/src/supervisor-connection-manager.ts:328-1164 | every state that any interleaving of the protocol's steps reaches satisfies the invariant of fleet, workers and lifecycles |
| SupervisorSafety.SingleAuthority | packages/control-plane/src/supervisor-connection-manager.ts:336-577 | over every run a supervisor has at most one active connection over all its boots; its sandbox has that boot and is not under retirement |
| SandboxMoves.SandboxesMoveLegally | packages/domain/src/state-machines.ts:116-123 | in every run each step changes a sandbox's state only as its table allows, and never its supervisor or boot |
| SupervisorSafety.FencedForever | packages/control-plane/src/supervisor-connection-manager.ts:658-760 | once a sandbox is fenced, no later state of the run has an active connection on it or accepts an event for one of its sessions |
| SupervisorSafety.RetirementEvolves | packages/control-plane/src/supervisor-connection-manager.ts:1033-1164 | over every continuation of a run a retirement row stays, its attempts rise by exactly the claims taken, and a completed or blocked row is unchanged |
| SupervisorSafety.RetirementOrdered | packages/control-plane/src/supervisor-connection-manager.ts:786-811 | a retirement is completed only for a boot whose stop was confirmed, with its sandbox terminated and no lease left |
| SupervisorSafety.ClaimColumns | packages/control-plane/src/supervisor-connection-manager.ts:1033-1164 | claim columns are filled exactly while a row is claimed, and its attempts are the number of claims ever taken on it |
| SupervisorSafety.RetakenIsPowerless | packages/control-plane/src/supervisor-connection-manager.ts:1084-1164 | a worker whose claim was taken again can renew, complete or release nothing |
| SupervisorSafety.VerdictIsFinal | packages/control-plane/src/supervisor-connection-manager.ts:1100-1164 | a completed or blocked row is the same row in every continuation of the run |
| RetirementInvariant.BeginIsNothing | packages/control-plane/src/assignment-reconciler.ts:759-792 | for a sandbox under a retirement claim the begin step has nothing to do: the sandbox has already failed or terminated |
| SupervisorSafety.FailedRetirementKeepsLeases | packages/control-plane/src/assignment-reconciler.ts:211-281 | a retirement attempt that fails leaves every lease and every session as it was |
| SupervisorSafety.RetirementDealsWithAll | packages/control-plane/src/assignment-reconciler.ts:211-281 | one that succeeds leaves none of the observed leases as observed, and none on the sandbox |
| AcknowledgedWork.AcknowledgedNeverReruns | packages/control-plane/src/assignment-reconciler.ts:382-710 | over every run of the whole protocol, executions claimed again included, a command once acknowledged is never pending or dispatched again |
| QuarantineWitness.QuarantineKeepsConnection | packages/control-plane/src/assignment-reconciler.ts:794-812 | quarantining closes no connection: the active one stays, now on a failed sandbox |
| QuarantineWitness.ActiveOnFailedSandbox | packages/control-plane/src/assignment-reconciler.ts:794-812 | a concrete run (provision, register, quarantine) that reaches an active connection on a failed sandbox |
| QuarantineExact.QuarantineBreaksIff | packages/control-plane/src/assignment-reconciler.ts:794-812 | in every reachable state quarantining a sandbox takes an active connection's sandbox out of service if and only if the connection is active on that sandbox and the sandbox has neither failed nor terminated |
| QuarantineExact.ServedUntilQuarantined | packages/control-plane/src/assignment-reconciler.ts:794-812 | over every run the sandbox of an active connection is ready or leased if and only if no step has quarantined it since that connection was opened |
| Assignments.FinalizeOutcome | packages/control-plane/src/assignment-reconciler.ts:382-710 | finalizing a consistent lifecycle never fails: a dispatched execution is requeued, an acknowledged one settled, and otherwise the lease released, each if and only if |
| Assignments.FailingIsLegal | packages/domain/src/state-machines.ts:93-185 | from a consistent lifecycle with an acknowledged execution every transition to failure that settling makes is legal |
| Assignments.RequeueingIsLegal | packages/control-plane/src/assignment-reconciler.ts:490-567 | a dispatched execution of a consistent lifecycle is safely unacknowledged and every transition of requeueing it is legal |
| LifecycleRuns.FinalizeLegal | packages/domain/src/state-machines.ts:93-185 | whatever it finds, finalizing moves session, turns, commands, runs, attempts, approvals and nodes only as their tables allow, or not at all |
| LifecycleRuns.SettledTogether | packages/control-plane/src/assignment-reconciler.ts:570-705 | settling leaves turn, commands, run, attempt, session and nodes failed or terminal, no approval pending and the outbox published, all at once, and touches no other turn |
| LifecycleRuns.RequeuedTogether | packages/control-plane/src/assignment-reconciler.ts:490-567 | requeueing fails only the attempt, touches no other turn, and leaves the execution where a fresh attempt can claim it at once |
| LifecycleRuns.ReconcileConsistent | packages/control-plane/src/assignment-reconciler.ts:382-710 | finalizing a consistent lifecycle succeeds and leaves it consistent |
| LifecycleRuns.DoConsistent | packages/runtime-core/src/run-command-executor.ts:1101-1198 | every event of the executor, its second claim of an expired dispatch included, of the cancellation and steering services, of a prune and of the reconciler keeps a lifecycle consistent |
| LifecycleRuns.DoAdvances | packages/domain/src/state-machines.ts:142-148 | every event moves every command along its transition table or not at all |
| LifecycleRuns.AcknowledgedNeverReruns | packages/control-plane/src/assignment-reconciler.ts:490-567 | over every run of one session's rows an acknowledged command is never pending or dispatched again |
| LifecycleRuns.AcknowledgedAtMostOnce | packages/runtime-core/src/run-command-executor.ts:1101-1115 | a command is started by a worker at most once, by whatever attempts, however often it was dispatched, requeued or claimed again |
| LifecycleRuns.ReclaimSupersedes | packages/runtime-core/src/run-command-executor.ts:876-1010 | claiming an expired dispatch again ends the earlier attempt, makes the fresh one current and leaves command, turn, outbox and session as they were |
| LifecycleRuns.StaleForever | packages/runtime-core/src/run-command-executor.ts:1655-1740 | once an attempt is no longer current, none of its acknowledgements, rejections, retries, completions or failures has an effect in the rest of any run |
| LifecycleProgress.ClaimsIff | packages/runtime-core/src/run-command-executor.ts:680-780 | in a consistent lifecycle an execution can be claimed if and only if it waits, its session is cold or idle and no turn is active |
| LifecycleProgress.ClaimedGoesOn | packages/runtime-core/src/run-command-executor.ts:1101-1198 | a claimed execution can be started, turned down for good, put back or claimed again, with exactly these rows after it |
| LifecycleProgress.WorkEnds | packages/runtime-core/src/run-command-executor.ts:1200-1345 | a running execution can complete, fail or time out, and every row ends with it |
| LifecycleProgress.WorkMoves | packages/domain/src/state-machines.ts:93-171 | a running execution can wait for an approval, go on, and be asked to cancel |
| LifecycleProgress.CancelledEnds | packages/domain/src/state-machines.ts:93-171 | a cancellation ends every row as cancelled and its command as completed |
| LifecycleProgress.PhaseAdvances | packages/runtime-core/src/run-command-executor.ts:1244-1262 | a provisioned execution advances to running |
| LifecycleProgress.WorkGetsDone | packages/runtime-core/src/run-command-executor.ts:1101-1345 | from every reachable lifecycle at rest a new turn that is admitted, claimed, started and completed ends with all its rows completed and leaves the session idle with no active turn |
| LifecycleProgress.FinalizeExactly | packages/control-plane/src/assignment-reconciler.ts:404-710 | whatever rows it finds, finalizing requeues only work that cannot have been acknowledged, settles or requeues exactly the rows of the one open execution, and releases only a session in which nothing runs |
| LifecycleProgress.PruneRests | packages/control-plane/src/conversation-tree-service.ts:903-912 | a prune makes a session idle exactly if it is at rest and every turn has ended |
| Reconciliation.FinalizeAllChanges | packages/control-plane/src/assignment-reconciler.ts:382-403 | a committed batch removes only leases that were observed and still are as observed, finalizes exactly their sessions, and touches nothing else |
| Reconciliation.FinalizeAllExhausts | packages/control-plane/src/assignment-reconciler.ts:186-196 | after a committed batch no observed lease is left that the batch should have finalized |
| Reconciliation.ExpiredTargetsOnly | packages/control-plane/src/assignment-reconciler.ts:388-403 | every lease a committed expired reconciliation ended was a target, unchanged since it was observed and still expired |
| Reconciliation.RenewedUntouched | packages/control-plane/src/assignment-reconciler.ts:388-403 | a lease renewed since it was observed, or held on another sandbox, survives with its session untouched |
| Reconciliation.TargetsExhausted | packages/control-plane/src/assignment-reconciler.ts:186-196 | after the commit each target is finalized, renewed or replaced |
| Reconciliation.CapacityExact | packages/control-plane/src/assignment-reconciler.ts:732-757 | the sandbox then counts exactly its remaining leases, and a serving sandbox is leased exactly when there are some |
| Reconciliation.PlanIsExact | packages/control-plane/src/assignment-reconciler.ts:171-185 | every runtime left running matches a durable assignment that is not a target, and every runtime stopped was listed and is an orphan or runs a target |
| Reconciliation.TargetsExactly | packages/control-plane/src/assignment-reconciler.ts:170-172 | the targets are the first expired assignments: one is left out only if the limit is used up, by targets none of which expires later |
| Reconciliation.AllExpiredDealtWith | packages/control-plane/src/assignment-reconciler.ts:170-196 | with fewer targets than the limit no lease observed as expired is still there unrenewed after the commit |
| Reconciliation.RetirementEndsObserved | packages/control-plane/src/assignment-reconciler.ts:225-275 | a retirement ends only leases of the sandbox observed under the same identity and token, and never terminates a serving sandbox |
| Reconciliation.CommitExpiredSafe | packages/control-plane/src/assignment-reconciler.ts:186-196 | a committed expired reconciliation keeps the fleet's invariant |
| Reconciliation.CommitRetirementSafe | packages/control-plane/src/assignment-reconciler.ts:225-275 | a committed retirement terminates the sandbox with no lease left and keeps the invariant |
| Reconciliation.QuarantineSafe | packages/control-plane/src/assignment-reconciler.ts:794-812 | quarantining keeps the invariant, with the sandbox counted as quarantined |
| AssignmentReconciler.AssignmentReconciler.LoadDurableAssignments | packages/control-plane/src/assignment-reconciler.ts:326-380 | each observed assignment copies its lease row with the one active turn and execution command, in order; it fails only if some session has more than one |
| AssignmentReconciler.AssignmentReconciler.FailRows | packages/control-plane/src/assignment-reconciler.ts:577-660 | the row updates and loops of settling add up to failing everything together |
| AssignmentReconciler.AssignmentReconciler.FailOpenCommands | packages/control-plane/src/assignment-reconciler.ts:596-625 | the loop fails exactly the open commands of the turn and publishes exactly their outbox rows |
| AssignmentReconciler.AssignmentReconciler.FinalizeRows | packages/control-plane/src/assignment-reconciler.ts:404-710 | the checks in order end in the outcome or the error of the specification |
| AssignmentReconciler.AssignmentReconciler.FinalizeLease | packages/control-plane/src/assignment-reconciler.ts:382-730 | skips a lease that changed, else finalizes its session and deletes exactly that lease; an error changes nothing |
| AssignmentReconciler.AssignmentReconciler.FinalizeEach | packages/control-plane/src/assignment-reconciler.ts:186-196 | the loop finalizes in order, counts settled and requeued assignments exactly, and puts every row back on an error |
| AssignmentReconciler.AssignmentReconciler.CommitExpiredTargets | packages/control-plane/src/assignment-reconciler.ts:186-203 | commits the specified tables, or leaves them as they were but for the quarantine; keeps the invariant either way |
| AssignmentReconciler.AssignmentReconciler.ReconcileExpiredAssignments | packages/control-plane/src/assignment-reconciler.ts:160-209 | observes, plans and stops exactly the orphan and target runtimes, and commits the targets' finalization and capacity with exact counts; unless the limit is used up no lease observed as expired is left unrenewed; every error is reported and quarantines the sandbox |
| AssignmentReconciler.SurvivorsStopped | packages/control-plane/src/assignment-reconciler.ts:160-204 | of the leases a committed reconciliation observed, those that survive although their runtime was stopped are exactly its expired targets that were renewed between observation and commit |
| AssignmentReconciler.LeftRunningExactly | packages/control-plane/src/assignment-reconciler.ts:165-185 | exactly those listed runtimes are left running that have the lease and token their session holds on the sandbox and run its one active execution, unless that lease is about to be ended |
| AssignmentReconciler.OldestFirst | packages/control-plane/src/assignment-reconciler.ts:170-172 | an expired lease is left for later only if the limit is used up by leases that expired no later |
| AssignmentReconciler.ResultCounts | packages/control-plane/src/assignment-reconciler.ts:186-197 | each number reported counts exactly what it names |
| AssignmentReconciler.AssignmentReconciler.CommitSandboxRetirement | packages/control-plane/src/assignment-reconciler.ts:225-275 | commits the retirement, or puts every row back |
| AssignmentReconciler.AssignmentReconciler.LoadObservation | packages/control-plane/src/assignment-reconciler.ts:283-380 | the observation holds the listed runtimes, all of the sandbox's own boot, and every durable assignment; else it is the first of the four errors, in order |
| AssignmentReconciler.AssignmentReconciler.RetireSandbox | packages/control-plane/src/assignment-reconciler.ts:211-281 | fences, observes, stops every runtime and commits the retirement with exact counts; after any error the sandbox is quarantined, with leases and sessions as others had left them |
| ControlChannelRuns.DoValid | packages/control-plane/src/worker-control-channel.ts:182-597 | every step of the channel keeps its invariant and changes no settled promise |
| ControlChannelRuns.ConnectionsBounded | packages/control-plane/src/worker-control-channel.ts:135-139 | in every reachable state a command is in at most one of a connection's three maps, their sizes add up to at most the maximum, and a detached connection has empty maps |
| ControlChannelRuns.UnsettledIffPending | packages/control-plane/src/worker-control-channel.ts:324-450 | in every reachable state a promise is unsettled exactly while its own entry is pending, hence never on a detached connection |
| ControlChannelRuns.SettledOnce | packages/control-plane/src/worker-control-channel.ts:324-450 | over every continuation of a run no promise is lost and a settled one keeps its outcome |
| ControlChannelRuns.RejectionsHonest | packages/control-plane/src/worker-control-channel.ts:368-450 | every rejected commit is final and ambiguous, every rejected prepare retryable and unambiguous |
| ControlChannelRuns.AnswersAreTheWorkers | packages/control-plane/src/worker-control-channel.ts:525-577 | over every run an acknowledgement or result a caller is given arrived from the worker on the promise's own connection and is about the very command, and the very commit, of that promise |
| ControlChannelRuns.ReleasedCannotCommit | packages/control-plane/src/worker-control-channel.ts:452-482 | after its release was sent, a command can be neither committed nor released again on that connection, however the run goes on, until the worker accepts it there anew |
| WorkerControlChannel.WorkerControlChannelRouter.Attach | packages/control-plane/src/worker-control-channel.ts:182-212 | supersedes the sandbox's prior connection and registers the new one, or refuses a connection attached before; keeps the invariant |
| WorkerControlChannel.WorkerControlChannelRouter.Detach | packages/control-plane/src/worker-control-channel.ts:214-221 | closes the connection and rejects everything pending on it, once |
| WorkerControlChannel.WorkerControlChannelRouter.DetachState | packages/control-plane/src/worker-control-channel.ts:579-597 | forgets the connection and rejects exactly its pending promises, commits as final and ambiguous, prepares as retryable |
| WorkerControlChannel.WorkerControlChannelRouter.Prepare | packages/control-plane/src/worker-control-channel.ts:294-366 | performs the checks in order and leaves a promise pending under the command, or refuses and changes nothing |
| WorkerControlChannel.WorkerControlChannelRouter.GiveUpAcknowledgement | packages/control-plane/src/worker-control-channel.ts:326-365 | a timeout or failed send ends only its own pending prepare |
| WorkerControlChannel.WorkerControlChannelRouter.AcceptAcknowledgement | packages/control-plane/src/worker-control-channel.ts:525-550 | settles exactly the pending prepare it identifies, and prepares the command unless it was rejected |
| WorkerControlChannel.WorkerControlChannelRouter.Commit | packages/control-plane/src/worker-control-channel.ts:368-450 | turns the prepared command into a pending result with its promise, or refuses and changes nothing |
| WorkerControlChannel.WorkerControlChannelRouter.GiveUpCommit | packages/control-plane/src/worker-control-channel.ts:405-449 | a timeout or failed send ends only its own pending commit |
| WorkerControlChannel.WorkerControlChannelRouter.AcceptResult | packages/control-plane/src/worker-control-channel.ts:552-577 | settles exactly the pending commit whose identity and commit message it carries |
| WorkerControlChannel.WorkerControlChannelRouter.Release | packages/control-plane/src/worker-control-channel.ts:452-482 | accepts only the prepared exchange the acknowledgement belongs to, and changes nothing before its send is over |
| WorkerControlChannel.WorkerControlChannelRouter.ForgetReleased | packages/control-plane/src/worker-control-channel.ts:480-482 | once its send is over a release forgets what is prepared under the command, and touches no promise |
| SteerProgress.PreparesIff | packages/control-plane/src/worker-control-channel.ts:294-322 | a prepare is taken if and only if the sandbox has an attached connection with both capabilities, no exchange of the command and room |
| SteerProgress.AttachedTakes | packages/control-plane/src/worker-control-channel.ts:182-212 | a connection just attached with both capabilities takes any command |
| SteerProgress.RefusedRetryable | packages/control-plane/src/worker-control-channel.ts:294-322 | a refused prepare may be tried again exactly if no connection is attached or the one that would take it is full |
| SteerProgress.AcceptanceReadies | packages/control-plane/src/worker-control-channel.ts:525-550 | an arriving acknowledgement settles its prepare, and an acceptance can at once be committed and released with it |
| SteerProgress.OnlyAcceptedIsDisposed | packages/control-plane/src/worker-control-channel.ts:368-482 | over every run a commit or release is taken only for a command whose acceptance, under the message shown, arrived on that connection, and only if command, acknowledgement and disposition agree |
| SteerProgress.GivingUpEnds | packages/control-plane/src/worker-control-channel.ts:326-449 | a failed send or timeout ends exactly its own pending exchange with its own error, and a late one changes nothing |
| SteerProgress.StaleUnheard | packages/control-plane/src/worker-control-channel.ts:223-242 | a message over a detached or superseded connection is refused as stale |
| Steering.RunSteer | packages/control-plane/src/remote-supervisor-steer-backend.ts:137-213 | the steer drives the router: it prepares, waits while others act, commits, waits again and releases; its ending and the router's state are the specified ones |
| Steering.TurnSteeringService.DeliverStored | packages/control-plane/src/turn-steering-service.ts:159-224 | one delivery records on the row it finds at the end what the delivery's ending proves, and delivers nothing when a stale dispatch mark throws |
| Steering.SteerIsARun | packages/control-plane/src/remote-supervisor-steer-backend.ts:137-213 | a delivery begun in any reachable state leaves the channel as a run that goes on with the delivery's prepare, commit and release among everybody else's steps |
| SteerHonesty.SteerOutcomeHonest | packages/control-plane/src/turn-steering-service.ts:186-209 | a delivery marks an open command completed if and only if the worker's completion of that very commit arrived, and failed if and only if its failure arrived or the commit was never begun |
| SteerHonesty.CommittedFailuresAmbiguous | packages/control-plane/src/remote-supervisor-steer-backend.ts:76-103 | once the commit was begun, every ending but the worker's own word is final and ambiguous, attempts no release and leaves the command as it is |
| SteerHonesty.UncommittedFailuresClear | packages/control-plane/src/remote-supervisor-steer-backend.ts:197-212 | a delivery that ends before its commit is begun is never in doubt, and it attempts a release if and only if the worker's acceptance was read, the commit could not be built and the release could |
| SteerHonesty.ForeignAnswersImpossible | packages/control-plane/src/remote-supervisor-steer-backend.ts:168-181 | the checks of acknowledgement and result identity never fail: the channel gives a delivery only answers to its own command and commit |
| SteerHonesty.FailedWasNotCommitted | packages/control-plane/src/remote-supervisor-steer-backend.ts:197-212 | a command marked failed without the worker's word was never committed: the channel holds no commit of its message |
| SteerHonesty.NothingLeftPending | packages/control-plane/src/remote-supervisor-steer-backend.ts:137-213 | a delivery leaves the channel valid with every settled promise as it was, and one that is over leaves no entry on any connection that waits for its acknowledgement or its result |
| SteerProgress.WorkersWordReaches | packages/control-plane/src/remote-supervisor-steer-backend.ts:137-196 | a steer that is taken, accepted and ended by its worker ends as the worker says, completed, failed with its own verdict, or in doubt, whatever else happens on the channel that leaves its exchange alone |
| SteerProgress.WorkersRefusalReaches | packages/control-plane/src/remote-supervisor-steer-backend.ts:145-155 | a steer that its worker turns down ends with the worker's verdict and is recorded as failed |
| SteerProgress.VerdictsKept | packages/control-plane/src/remote-supervisor-steer-backend.ts:76-103 | before the commit the caller is told of retrying what the cause says |
| SteerProgress.EndedStays | packages/control-plane/src/turn-steering-service.ts:210-224 | a command that has ended is not changed by any delivery |
| HistoryWindow.NewestRows | packages/control-plane/src/control-plane-store.ts:1432-1466 | fetching newest first up to a limit and reversing gives the last rows in mailbox order |
| HistoryWindow.GetHistory | packages/control-plane/src/control-plane-store.ts:1354-1469 | climbs to the root and returns the last 200 turns of the unbounded lineage history, truncated if and only if that has more than 200, or the error of the climb or of the history |
| HistoryWindow.ConversationLineage | packages/control-plane/src/control-plane-store.ts:1716-1746 | the loop that pushes and reverses at the end returns the lineage or the error the recursive climb defines |
| HistoryWindow.BoundedHistoryExact | packages/control-plane/src/control-plane-store.ts:1407-1469 | 201 newest turns per session suffice: the window has the same last 200 turns and shows truncation exactly |
| HistoryWindow.ReachableHistory | packages/control-plane/src/control-plane-store.ts:1407-1469 | in every reachable forest, restores included, the history of a live conversation loads if and only if its lineage has at most 100 sessions; a longer one is refused, and a fork turn is never missing from its parent |
| HistoryRows.HistoryExactly | packages/control-plane/src/control-plane-store.ts:1412-1469 | in every reachable forest the whole history lists exactly the lineage's turns that are not pruned and no later than the next fork turn, each once, by session and mailbox |
| HistoryRows.PrunedHistoryEnds | packages/control-plane/src/control-plane-store.ts:1455-1466 | after a prune the session's own part of the history is a prefix of the old one and ends with the turn pruned to |
| TreeHistory.TreeShowsHistory | packages/control-plane/src/conversation-tree-service.ts:375-409 | over every run the turns whose final messages the focused tree shows are exactly the completed turns of the whole history, in the same order and of the same sessions |
| TreeHistory.SegmentExactly | packages/control-plane/src/conversation-tree-service.ts:376-400 | a session shows its whole view, or its view up to and including the final at which the next session was forked |
| TreeHistory.NotFoundIff | packages/control-plane/src/control-plane-store.ts:1354-1406 | a conversation is not found, by tree and history, exactly if it does not exist or is archived |
| DeepLineage.LineagesUnbounded | packages/control-plane/src/control-plane-store.ts:1716-1727 | for every length some run of forks reaches a live conversation with a lineage of that length; beyond 100 neither its tree nor its history can be read |
| DelegatedSessions.LoadTree | packages/control-plane/src/delegated-session-projection.ts:86-116 | the walk ends on every graph with at most the maximum, nothing twice and everything after its parent; it lists the first items of the unbounded breadth-first listing, untruncated exactly what is reachable, and reports truncation if and only if at least the maximum is reachable |
| DelegatedSessions.LoadLevelIs | packages/control-plane/src/delegated-session-projection.ts:5-70 | one level returns its first items in row order, all of them unless it reports more |
| DelegatedSessions.BreadthFirstByDistance | packages/control-plane/src/delegated-session-projection.ts:86-116 | the unbounded listing puts executions nearer to the roots before farther ones |
| FilePaging.Files | packages/control-plane/src/workspace-version-service.ts:194-230 | the binary search finds the first path after the cursor, and the page starts there |
| FilePaging.AtMostIs | packages/control-plane/src/workspace-version-service.ts:194-230 | paths are compared as strings are, at the first place where they differ or one ends |
| FilePaging.FollowCovers | packages/control-plane/src/workspace-version-service.ts:194-230 | following the cursor ends, no page of a nonempty list is empty, and the pages make up the list |
| FilePaging.Collect | packages/control-plane/src/workspace-version-service.ts:194-230 | a client that asks page after page ends with the whole list after exactly as many requests as its files fill pages, one for an empty list |
| AttemptHistory.RankRises | packages/control-plane/src/control-plane-store.ts:1866-1878 | the rank rises along every transition an attempt can make |
| AttemptHistory.HistoryRecovered | packages/control-plane/src/control-plane-store.ts:1968-1976 | for any legal history with non-decreasing times, picking one attempt's rows from any permutation and sorting them by time and rank returns the order in which they happened |

## Left out

- HTTP, WebSocket and message parsing, tokens, hashing, metrics and event streams: input and output.
- Idempotency keys and stored operation replays of fork, prune, archive and steer: a lookup of an earlier answer.
- Message text, JSON payloads, titles, quotas, model profiles and workspace snapshots: single-branch facts; a quota or workspace conflict is a parameter of the step.
- The full (unfocused) tree with its sibling branches and delegated families: the focused view carries the gluing.
- Delegated sessions inside fork, prune and archive: whether one is active is a parameter of the step.
- Reads outside a transaction that see several transactions: only the reconciler's observation and the channel's awaits are split into their own steps.
- Isolation effects between transactions below one atomic step.
- Row timestamps, versions, failure texts and close reasons that no decision reads.
- Terminal turn events and projections, notifications and the workspace versions a finished run settles: called here, defined elsewhere.
- Heartbeats that list sessions: they are the steps that renew leases, one lease at a time, without the checks on what the worker reported.
- Connection state objects of the channel as heap objects: a connection is a value in the router's table, so that aliasing of one state by two owners is not modelled.
- The in-flight table that joins concurrent deliveries of one steer: every result is about one delivery.
- Event publication over the channel and the HTTP steer backend: the first depends on how events are appended, the second marks no error ambiguous.
- UTF-16 encoding of paths: a path is its sequence of code units, compared as the language compares strings.
- LifecycleRuns.DoConsistent: the executor's starting, retrying, finishing and failing are events with its guards, not its whole code.
- Steering.TurnSteeringService.DeliverStored: whether an update that matches no row throws is a parameter, because the query library decides it; a backend that cannot be created is not modelled.
- HistoryWindow.GetHistory: conversations, with their lineage; the history of a delegated session is its own turns alone.
