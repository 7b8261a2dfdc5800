/** Exactly when the steps on the forest go through, and what must be at rest for them to. */
module TreeConditions {
  import opened Common
  import opened Branches
  import opened MappedEntries
  import opened Sessions
  import opened Forest
  import SM = StateMachines

  /** Nothing runs in the session, and every turn of it has ended. */
  ghost predicate AtRest(s: Session) {
    (s.state.Cold? || s.state.Idle? || s.state.Failed?) &&
    forall i :: 0 <= i < |s.turns| ==> SM.TerminalTurn(s.turns[i].state)
  }

  /** Nothing runs in the session, and every turn of it that was not pruned has ended. */
  ghost predicate AtRestUnpruned(s: Session) {
    (s.state.Cold? || s.state.Idle? || s.state.Failed?) &&
    forall i :: 0 <= i < |s.turns| && !s.turns[i].pruned ==> SM.TerminalTurn(s.turns[i].state)
  }

  lemma RestIs(s: Session)
    ensures AtRest(s) <==> Quiet(s) && !Unsettled(s.turns, false)
    ensures AtRestUnpruned(s) <==> Quiet(s) && !Unsettled(s.turns, true)
  {
    hide SM.TerminalTurn;
  }

  // ------------------------------------------------------------------ fork

  lemma TargetIffAnchor(s: Session, t: TurnId, e: EntryId)
    requires SessionOk(s)
    ensures ViewOf(s).Ok? && ActiveBranch(s.entries, s.leaf).Ok?
    ensures FindTarget(ViewOf(s).value, t, e).Some? <==> AnchorOf(s, t, e)
  {
    hide Mapped, FindTarget, ActiveBranch, CompletedTurns, FinalIndices, IsAnchor;
    ViewIsMapped(s);
    TargetsAreAnchors(Own(s), CompletedTurns(s.turns), t, e);
  }

  /** An anchor is on the branch, so its session has a leaf. */
  lemma AnchorOnBranch(s: Session, t: TurnId, e: EntryId)
    requires SessionOk(s) && AnchorOf(s, t, e)
    ensures FindEntry(Branch(s), e).Some? && s.leaf.Some?
    ensures Lookup(s.turns, t).Some?
  {
    hide FinalIndices, CompletedTurns, Lookup, FindEntry, ActiveBranch, OwnOf, IsAnchor, WellKeyed;
    var m, c, j, i := AnchorPlace(s, t, e);
    EntryAt(Own(s), i, e);
    OwnInBranch(s, e);
    ActiveBranchIsTheBranch(s.entries, s.leaf, Branch(s));
  }

  /**
   A fork goes through if and only if its source is live and at rest, the quota has room, and the
   turn and entry are an anchor of the source.
   */
  lemma ForksIff(f: Forest, source: SessionId, t: TurnId, e: EntryId, child: SessionId, quotaReached: bool)
    requires Inv(f)
    ensures ForkTree(f, source, t, e, child, quotaReached).Ok? <==>
            source in f && !f[source].archived && AtRest(f[source]) && !quotaReached && AnchorOf(f[source], t, e)
  {
    hide SessionOk, LinkOk, AnchorOf, FindTarget, FindEntry, ViewOf, ActiveBranch, Unsettled, Quiet, AtRest, Lookup;
    if source in f {
      var s := f[source];
      assert SessionOk(s);
      hide Inv;
      RestIs(s);
      TargetIffAnchor(s, t, e);
      if AnchorOf(s, t, e) {
        AnchorOnBranch(s, t, e);
      }
    }
  }

  // ------------------------------------------------------------------ prune and archive

  /** Every live session in the closure of `seeds` is at rest. */
  ghost predicate RestBelow(f: Forest, seeds: set<SessionId>) {
    forall y :: y in f && !f[y].archived && AtOrBelow(f, seeds, y) ==> AtRestUnpruned(f[y])
  }

  lemma BusyIff(f: Forest, seeds: set<SessionId>)
    requires Inv(f) && Closed(f)
    ensures Busy(f, LiveClosure(f, seeds)) <==> !RestBelow(f, seeds)
  {
    forall y | y in f
      ensures y in LiveClosure(f, seeds) <==> !f[y].archived && AtOrBelow(f, seeds, y)
      ensures AtRestUnpruned(f[y]) <==> Quiet(f[y]) && !Unsettled(f[y].turns, true)
    {
      ClosureIsAtOrBelow(f, seeds, y);
      RestIs(f[y]);
    }
    hide Inv, Closed, LiveBelow, AtOrBelow, Quiet, Unsettled, AtRestUnpruned;
    ClosureStored(f, seeds);
    hide LiveClosure;
  }

  lemma ClosureStored(f: Forest, seeds: set<SessionId>)
    ensures forall y :: y in LiveClosure(f, seeds) ==> y in f
  {
    hide LiveBelow;
  }

  /** The live sessions forked from `x` at turn `t` or at a later one of its mailbox. */
  ghost function LaterForks(f: Forest, x: SessionId, t: TurnId): set<SessionId>
    requires x in f
  {
    if Lookup(f[x].turns, t).None? then {} else ForkedFrom(f, x, f[x].turns[Lookup(f[x].turns, t).value].position)
  }

  /**
   A prune goes through if and only if its session is live and at rest, the turn and entry are an
   anchor of it, no delegated session is active, and everything live that hangs from a fork at that
   turn or later is at rest.
   */
  lemma PrunesIff(f: Forest, x: SessionId, t: TurnId, e: EntryId, delegatedActive: bool)
    requires Inv(f) && Closed(f)
    ensures PruneTree(f, x, t, e, delegatedActive).Ok? <==>
            x in f && !f[x].archived && AtRestUnpruned(f[x]) && AnchorOf(f[x], t, e) &&
            !delegatedActive && RestBelow(f, LaterForks(f, x, t))
  {
    hide SessionOk, LinkOk, AnchorOf, FindTarget, ViewOf, ActiveBranch, Unsettled, Quiet, AtRestUnpruned, Lookup, Busy,
      LiveClosure, ForkedFrom, RestBelow, Prune, ArchiveAll, Closed;
    if x in f {
      var s := f[x];
      assert SessionOk(s);
      RestIs(s);
      TargetIffAnchor(s, t, e);
      BusyIff(f, LaterForks(f, x, t));
      hide Inv;
      if AnchorOf(s, t, e) {
        AnchorOnBranch(s, t, e);
      }
    }
  }

  /** Archiving goes through if and only if the session is live and at rest with everything live below it. */
  lemma ArchivesIff(f: Forest, x: SessionId, delegatedActive: bool)
    requires Inv(f) && Closed(f)
    ensures Archive(f, x, delegatedActive).Ok? <==>
            x in f && !f[x].archived && AtRest(f[x]) && !delegatedActive && RestBelow(f, LiveChildren(f, x))
  {
    hide Unsettled, Quiet, AtRest, Busy, LiveClosure, LiveChildren, RestBelow, ArchiveAll;
    BusyIff(f, LiveChildren(f, x));
    hide Inv, Closed;
    if x in f {
      RestIs(f[x]);
    }
  }

  /**
   Restoring goes through if and only if the session is archived and at rest, its parent is live and
   no other session has its workspace.
   */
  lemma RestoresIff(f: Forest, x: SessionId, workspaceTaken: bool)
    requires Inv(f)
    ensures Unarchive(f, x, workspaceTaken).Ok? <==>
            x in f && f[x].archived && AtRest(f[x]) && !workspaceTaken &&
            (f[x].fork.Some? ==> f[x].fork.value.parent in f && !f[f[x].fork.value.parent].archived)
  {
    hide Unsettled, Quiet, AtRest, Inv;
    if x in f {
      RestIs(f[x]);
    }
  }

  /** The live sessions forked from `x` at its `m`-th turn or at a later one. */
  ghost function ForkedFromTurn(f: Forest, x: SessionId, m: nat): set<SessionId>
    requires x in f
  {
    set y | y in f && !f[y].archived && f[y].fork.Some? && f[y].fork.value.parent == x && FromTurn(f[x].turns, m, f[y].fork.value.turn)
  }

  ghost predicate FromTurn(turns: seq<Turn>, m: nat, t: TurnId) {
    exists i :: m <= i < |turns| && turns[i].id == t
  }

  lemma FromTurnIs(turns: seq<Turn>, m: nat, t: TurnId)
    requires TurnsOk(turns) && m < |turns|
    ensures FromTurn(turns, m, t) <==> Lookup(turns, t).Some? && turns[Lookup(turns, t).value].position >= turns[m].position
  {
    var k := Lookup(turns, t);
    hide Lookup;
    if k.Some? && turns[k.value].position >= turns[m].position {
      assert k.value >= m;
    }
  }

  lemma LaterForksAre(f: Forest, x: SessionId, m: nat)
    requires x in f && TurnsOk(f[x].turns) && m < |f[x].turns|
    ensures ForkedFrom(f, x, f[x].turns[m].position) == ForkedFromTurn(f, x, m)
  {
    hide Lookup, TurnsOk, FromTurn;
    forall y | y in f && f[y].fork.Some?
      ensures var k := Lookup(f[x].turns, f[y].fork.value.turn);
              FromTurn(f[x].turns, m, f[y].fork.value.turn) <==> k.Some? && f[x].turns[k.value].position >= f[x].turns[m].position
    {
      FromTurnIs(f[x].turns, m, f[y].fork.value.turn);
    }
  }

  /**
   What a prune to the `m`-th turn archives: what is live at or below the live forks from that turn
   on, and nothing else.
   */
  lemma PruneArchives(f: Forest, x: SessionId, t: TurnId, e: EntryId, delegatedActive: bool, y: SessionId)
    requires Inv(f) && Closed(f) && PruneTree(f, x, t, e, delegatedActive).Ok? && y in f
    ensures Lookup(f[x].turns, t).Some?
    ensures var m := Lookup(f[x].turns, t).value;
            var f' := PruneTree(f, x, t, e, delegatedActive).value;
            y in f' && (f'[y].archived <==> f[y].archived || (y != x && AtOrBelow(f, ForkedFromTurn(f, x, m), y)))
  {
    hide AtOrBelow, ForkedFrom, ForkedFromTurn, PruneTree, Closed, LinkOk, OwnOf, ActiveBranch, WellKeyed, TurnsOk,
      Lookup;
    PruneArchivesExactly(f, x, t, e, delegatedActive);
    PrunedSession(f, x, t, e, delegatedActive);
    assert SessionOk(f[x]);
    LaterForksAre(f, x, Lookup(f[x].turns, t).value);
  }

  lemma PrunedSession(f: Forest, x: SessionId, t: TurnId, e: EntryId, delegatedActive: bool)
    requires PruneTree(f, x, t, e, delegatedActive).Ok?
    ensures x in f && !f[x].archived
  {
    hide ViewOf, FindTarget, Lookup, LiveClosure, ForkedFrom, Unsettled, Busy;
  }

  // ------------------------------------------------------------------ over runs

  predicate EnvironmentStep(step: Step) {
    step.CreateStep? || step.AdmitStep? || step.AdvanceStep? || step.SettleStep?
  }

  lemma ArchiveTouches(f: Forest, step: Step, y: SessionId)
    requires Inv(f) && Closed(f) && step.ArchiveStep? && y in f && y in Apply(f, step) && Apply(f, step)[y] != f[y]
    ensures AtRestUnpruned(f[y])
  {
    hide Unsettled, Quiet, LiveClosure, LiveChildren, Busy;
    var x := step.session;
    var below := LiveClosure(f, LiveChildren(f, x));
    RestIs(f[x]);
    RestIs(f[y]);
    AtRestMore(f[x]);
    hide Inv, Closed, AtRest, AtRestUnpruned;
    if y in below {
      NotBusy(f, below, y);
    }
  }

  lemma AtRestMore(s: Session)
    ensures AtRest(s) ==> AtRestUnpruned(s)
  {
  }

  lemma NotBusy(f: Forest, xs: set<SessionId>, y: SessionId)
    requires !Busy(f, xs) && y in xs && y in f
    ensures Quiet(f[y]) && !Unsettled(f[y].turns, true)
  {
    hide Quiet, Unsettled;
  }

  lemma PruneTouches(f: Forest, step: Step, y: SessionId)
    requires Inv(f) && Closed(f) && step.PruneStep? && y in f && y in Apply(f, step) && Apply(f, step)[y] != f[y]
    ensures AtRestUnpruned(f[y])
  {
    hide Unsettled, Quiet, LiveClosure, ForkedFrom, Busy, ViewOf, FindTarget, Lookup, PruneTurns, Inv, Closed,
      AtRestUnpruned;
    var x := step.session;
    RestIs(f[y]);
    var at := Lookup(f[x].turns, step.turn);
    var below := LiveClosure(f, ForkedFrom(f, x, f[x].turns[at.value].position));
    if y != x {
      assert y in below;
      NotBusy(f, below, y);
    }
  }

  /**
   Over every run: whatever session a fork, a prune, an archive or a restore changes was at rest,
   so nothing that runs is ever pruned or archived.
   */
  lemma OnlyAtRestChanges(steps: seq<Step>, step: Step, y: SessionId)
    requires !EnvironmentStep(step) && y in Run(steps)
    ensures y in Apply(Run(steps), step)
    ensures Apply(Run(steps), step)[y] != Run(steps)[y] ==> AtRestUnpruned(Run(steps)[y])
  {
    var f := Run(steps);
    RunGood(steps);
    KeepsSessions(f, step, y);
    if Apply(f, step)[y] != f[y] {
      hide Inv, Closed, Anchored, AnchoredRestores, AtRestUnpruned, ForkTree, PruneTree, Archive;
      match step {
        case PruneStep(_, _, _, _) => PruneTouches(f, step, y);
        case ArchiveStep(_, _) => ArchiveTouches(f, step, y);
        case UnarchiveStep(x, taken) =>
          RestoresIff(f, x, taken);
          AtRestMore(f[y]);
        case ForkStep(source, t, e, child, quota) => ForkAdds(f, source, t, e, child, quota, y);
      }
    }
  }

  lemma ForkAdds(f: Forest, source: SessionId, t: TurnId, e: EntryId, child: SessionId, quota: bool, y: SessionId)
    requires y in f
    ensures y in Apply(f, ForkStep(source, t, e, child, quota))
    ensures Apply(f, ForkStep(source, t, e, child, quota))[y] == f[y]
  {
    hide ViewOf, ActiveBranch, FindTarget, FindEntry, Unsettled, Extend;
  }

  lemma KeepsSessions(f: Forest, step: Step, y: SessionId)
    requires y in f
    ensures y in Apply(f, step)
  {
    hide ForkTree, Unsettled, Busy, LiveClosure, LiveChildren, ForkedFrom, ViewOf, FindTarget, Lookup, CanSettle,
      CanAdmit,
      CanAdvance, Settle, Prune;
    if step.ForkStep? {
      ForkAdds(f, step.source, step.turn, step.entry, step.child, step.quotaReached, y);
    }
  }

  // ------------------------------------------------------------------ what the steps write

  lemma ForkedSessionIs(s: Session, serial: nat, k: ForkPoint)
    requires SessionOk(s) && FindEntry(Branch(s), k.entry).Some?
    ensures var path := Branch(s)[..FindEntry(Branch(s), k.entry).value + 1];
            var child := ForkedSession(serial, k, path);
            Branch(child) == path && Own(child) == []
  {
    hide FindEntry, ActiveBranch, Extend;
    ForkCopiesPath(s, serial, k);
  }

  lemma ForkTreeIs(f: Forest, source: SessionId, t: TurnId, e: EntryId, child: SessionId, quotaReached: bool)
    requires ForkTree(f, source, t, e, child, quotaReached).Ok?
    ensures source in f && FindEntry(Branch(f[source]), e).Some?
    ensures ForkTree(f, source, t, e, child, quotaReached).value ==
            f[child := ForkedSession(|f|, ForkPoint(source, t, e), Branch(f[source])[..FindEntry(Branch(f[source]), e).value + 1])]
  {
    hide ViewOf, FindTarget, Unsettled, FindEntry, ActiveBranch, Extend;
  }

  /**
   A fork adds exactly one session: live, cold, without turns, holding the source's branch up to the
   entry, its leaf there.
   */
  lemma ForkWrites(f: Forest, source: SessionId, t: TurnId, e: EntryId, child: SessionId, quotaReached: bool)
    requires Inv(f) && child !in f && ForkTree(f, source, t, e, child, quotaReached).Ok?
    ensures var f' := ForkTree(f, source, t, e, child, quotaReached).value;
            && child in f' && f' == f[child := f'[child]] && source in f && FindEntry(Branch(f[source]), e).Some?
            && Branch(f'[child]) == Branch(f[source])[..FindEntry(Branch(f[source]), e).value + 1]
            && Own(f'[child]) == [] && f'[child].turns == [] && !f'[child].archived && f'[child].state.Cold?
            && f'[child].leaf == Some(e) && f'[child].fork == Some(ForkPoint(source, t, e))
  {
    hide ForkTree, FindEntry, Branch, Own, SessionOk, LinkOk, Extend;
    ForkTreeIs(f, source, t, e, child, quotaReached);
    assert SessionOk(f[source]);
    ForkedSessionIs(f[source], |f|, ForkPoint(source, t, e));
  }

  /**
   A prune leaves its session idle with its leaf at the entry, marks exactly the turns after the
   anchor's, and moves no entry.
   */
  lemma PruneWrites(f: Forest, x: SessionId, t: TurnId, e: EntryId, delegatedActive: bool)
    requires Inv(f) && Closed(f) && PruneTree(f, x, t, e, delegatedActive).Ok?
    ensures Lookup(f[x].turns, t).Some?
    ensures var s, s' := f[x], PruneTree(f, x, t, e, delegatedActive).value[x];
            var m := Lookup(s.turns, t).value;
            && s'.leaf == Some(e) && s'.state.Idle? && s'.entries == s.entries && s'.fork == s.fork
            && !s'.archived && |s'.turns| == |s.turns|
            && forall i :: 0 <= i < |s.turns| ==> s'.turns[i] == s.turns[i].(pruned := s.turns[i].pruned || i > m)
  {
    hide ViewOf, FindTarget, Unsettled, LinkOk, LiveClosure, ForkedFrom, Busy, Lookup, OwnOf, ActiveBranch, WellKeyed,
      Closed, AtOrBelow;
    PruneArchivesExactly(f, x, t, e, delegatedActive);
    assert SessionOk(f[x]);
    assert TurnsOk(f[x].turns);
    hide Inv;
  }

  /** Restoring and archiving change nothing but archive flags; restoring only that of the session restored. */
  lemma FlagsAlone(f: Forest, x: SessionId, active: bool, taken: bool)
    ensures Archive(f, x, active).Ok? ==>
              var f' := Archive(f, x, active).value;
              f'.Keys == f.Keys && forall y :: y in f ==> f'[y] == f[y].(archived := f'[y].archived) && (f[y].archived ==> f'[y].archived)
    ensures Unarchive(f, x, taken).Ok? ==> x in f && Unarchive(f, x, taken).value == f[x := f[x].(archived := false)]
  {
    hide Unsettled, Busy, LiveClosure, LiveChildren;
  }
}
