/**
 A concrete run of forks, prunes and restores after which a live conversation has lost its fork
 anchor: restoring checks that the parent is live, not that the anchor is still there.
 */
module RestoreWitness {
  import opened Common
  import opened Branches
  import opened MappedEntries
  import opened Sessions
  import opened Forest
  import opened FocusView
  import SM = StateMachines

  const ANSWER := Message(Assistant, Some(Settled), "")
  const FIRST := Entry(10, None, MessageEntry, Some(ANSWER), 0)
  const SECOND := Entry(11, Some(10), MessageEntry, Some(ANSWER), 0)
  const FORK := ForkPoint(0, 2, 11)

  const NEW := Session(0, None, false, SM.SessionState.Cold, map[], None, [])
  const ANSWERED_ONCE := Session(0, None, false, SM.SessionState.Idle, map[10 := FIRST], Some(10),
                                 [Turn(1, 1, SM.TurnState.Completed, false)])
  const ANSWERED_TWICE := Session(0, None, false, SM.SessionState.Idle, map[10 := FIRST, 11 := SECOND], Some(11),
                                  [Turn(1, 1, SM.TurnState.Completed, false), Turn(2, 2, SM.TurnState.Completed, false)])
  const CUT_BACK := Session(0, None, false, SM.SessionState.Idle, map[10 := FIRST, 11 := SECOND], Some(10),
                            [Turn(1, 1, SM.TurnState.Completed, false), Turn(2, 2, SM.TurnState.Completed, true)])
  const CHILD := Session(1, Some(FORK), false, SM.SessionState.Cold, map[10 := FIRST, 11 := SECOND], Some(11), [])

  lemma OneEntry(rows: EntryTable, leaf: Option<EntryId>, e: Entry)
    ensures Extend(rows, [e]) == rows[e.id := e]
    ensures LeafAfter(leaf, [e]) == Some(e.id)
    ensures Appendable(rows, leaf, [e]) <==> e.id !in rows && e.parentId == leaf
  {
    assert [e][..0] == [];
    assert Extend(rows, []) == rows && Appendable(rows, leaf, []);
  }

  lemma TwoEntries(rows: EntryTable, d: Entry, e: Entry)
    ensures Extend(rows, [d, e]) == rows[d.id := d][e.id := e]
  {
    assert [d, e][..1] == [d];
    OneEntry(rows, None, d);
  }

  lemma Extensions()
    ensures Extend(map[], [FIRST]) == map[10 := FIRST]
    ensures Extend(map[10 := FIRST], [SECOND]) == map[10 := FIRST, 11 := SECOND]
    ensures Extend(map[], [FIRST, SECOND]) == map[10 := FIRST, 11 := SECOND]
    ensures Appendable(map[], None, [FIRST]) && Appendable(map[10 := FIRST], Some(10), [SECOND])
    ensures LeafAfter(None, [FIRST]) == Some(10) && LeafAfter(Some(10), [SECOND]) == Some(11)
  {
    hide Extend, Appendable, LeafAfter;
    OneEntry(map[], None, FIRST);
    OneEntry(map[10 := FIRST], Some(10), SECOND);
    TwoEntries(map[], FIRST, SECOND);
  }

  lemma Finals()
    ensures FinalIndices([FIRST]) == [0] && FinalIndices([SECOND]) == [0] && FinalIndices([FIRST, SECOND]) == [0, 1]
  {
    assert [FIRST][..0] == [] && [SECOND][..0] == [] && [FIRST, SECOND][..1] == [FIRST];
  }

  /** One turn admitted and completed with its final message. */
  lemma Answered(f: Forest, before: Session, t: TurnId, position: nat, e: Entry, after: Session)
    requires f == map[0 := before] && CanAdmit(before, t, position) && |FinalIndices([e])| == 1
    requires Appendable(before.entries, before.leaf, [e])
    requires after == before.(turns := before.turns + [Turn(t, position, SM.TurnState.Completed, false)],
                              entries := Extend(before.entries, [e]), leaf := LeafAfter(before.leaf, [e]), state := SM.SessionState.Idle)
    ensures Apply(Apply(f, AdmitStep(0, t, position)), SettleStep(0, |before.turns|, SM.TurnState.Completed, [e])) == map[0 := after]
  {
    hide Extend, LeafAfter, Appendable, FinalIndices, CanAdmit;
    var queued := before.(turns := before.turns + [Turn(t, position, SM.TurnState.Queued, false)]);
    assert Apply(f, AdmitStep(0, t, position)) == map[0 := queued];
    var n := |before.turns|;
    assert queued.turns[n := queued.turns[n].(state := SM.TurnState.Completed)] == after.turns;
  }

  function Talk(): seq<Step> {
    [CreateStep(0), AdmitStep(0, 1, 1), SettleStep(0, 0, SM.TurnState.Completed, [FIRST]),
     AdmitStep(0, 2, 2), SettleStep(0, 1, SM.TurnState.Completed, [SECOND])]
  }

  lemma LastStep(steps: seq<Step>, step: Step)
    ensures Run(steps + [step]) == Apply(Run(steps), step)
  {
    assert (steps + [step])[..|steps|] == steps;
  }

  lemma NoTurn(turns: seq<Turn>, t: TurnId)
    requires forall i :: 0 <= i < |turns| ==> turns[i].id != t
    ensures Lookup(turns, t).None?
  {
  }

  lemma AfterTalk()
    ensures Run(Talk()) == map[0 := ANSWERED_TWICE]
  {
    hide Apply, Extend, Appendable, FinalIndices;
    Extensions();
    Finals();
    NoTurn([], 1);
    NoTurn(ANSWERED_ONCE.turns, 2);
    assert Run([]) == map[];
    LastStep([], CreateStep(0));
    LastStep([CreateStep(0)], AdmitStep(0, 1, 1));
    LastStep([CreateStep(0), AdmitStep(0, 1, 1)], SettleStep(0, 0, SM.TurnState.Completed, [FIRST]));
    var half := [CreateStep(0), AdmitStep(0, 1, 1), SettleStep(0, 0, SM.TurnState.Completed, [FIRST])];
    LastStep(half, AdmitStep(0, 2, 2));
    LastStep(half + [AdmitStep(0, 2, 2)], SettleStep(0, 1, SM.TurnState.Completed, [SECOND]));
    TalkSteps();
    Created();
    Answered(map[0 := NEW], NEW, 1, 1, FIRST, ANSWERED_ONCE);
    Answered(map[0 := ANSWERED_ONCE], ANSWERED_ONCE, 2, 2, SECOND, ANSWERED_TWICE);
  }

  lemma Created()
    ensures Apply(map[], CreateStep(0)) == map[0 := NEW]
  {
  }

  lemma TalkSteps()
    ensures [] + [CreateStep(0)] == [CreateStep(0)]
    ensures [CreateStep(0)] + [AdmitStep(0, 1, 1)] == [CreateStep(0), AdmitStep(0, 1, 1)]
    ensures [CreateStep(0), AdmitStep(0, 1, 1)] + [SettleStep(0, 0, SM.TurnState.Completed, [FIRST])] == Talk()[..3]
    ensures Talk()[..3] == [CreateStep(0), AdmitStep(0, 1, 1), SettleStep(0, 0, SM.TurnState.Completed, [FIRST])]
    ensures Talk()[..3] + [AdmitStep(0, 2, 2)] + [SettleStep(0, 1, SM.TurnState.Completed, [SECOND])] == Talk()
  {
  }

  // ------------------------------------------------------------------ the fork and what follows

  lemma Branched()
    ensures ActiveBranch(ANSWERED_TWICE.entries, Some(11)) == Ok([FIRST, SECOND])
  {
    var rows := ANSWERED_TWICE.entries;
    var b := [FIRST, SECOND];
    assert IsBranch(rows, Some(11), b) by {
      assert b[0].parentId == Above(b, 0) && b[1].parentId == Above(b, 1);
    }
    hide ActiveBranch;
    ActiveBranchIsTheBranch(rows, Some(11), b);
  }

  lemma BothCompleted()
    ensures CompletedTurns(ANSWERED_TWICE.turns) == [1, 2]
  {
    var turns := ANSWERED_TWICE.turns;
    assert turns[..1] == [turns[0]] && turns[..1][..0] == [];
    assert CompletedTurns([]) == [];
    assert CompletedTurns(turns[..1]) == [1];
  }

  lemma Anchors()
    ensures ViewOf(ANSWERED_TWICE) == Ok(Mapped([FIRST, SECOND], [1, 2]))
    ensures FindTarget(Mapped([FIRST, SECOND], [1, 2]), 1, 10).Some?
    ensures FindTarget(Mapped([FIRST, SECOND], [1, 2]), 2, 11).Some?
  {
    hide Mapped, ActiveBranch, FindTarget, CompletedTurns, FinalIndices;
    Branched();
    BothCompleted();
    Finals();
    assert PairAt([0, 1], [1, 2], 0, 1, 0) && PairAt([0, 1], [1, 2], 1, 2, 1);
    TargetsAreAnchors([FIRST, SECOND], [1, 2], 1, 10);
    TargetsAreAnchors([FIRST, SECOND], [1, 2], 2, 11);
  }

  lemma Places()
    ensures FindEntry([FIRST, SECOND], 11) == Some(1)
    ensures Lookup(ANSWERED_TWICE.turns, 1) == Some(0)
  {
    var found := FindEntry([FIRST, SECOND], 11);
    var at := Lookup(ANSWERED_TWICE.turns, 1);
    hide FindEntry, Lookup;
  }

  lemma Forked()
    ensures Apply(map[0 := ANSWERED_TWICE], ForkStep(0, 2, 11, 1, false)) == map[0 := ANSWERED_TWICE, 1 := CHILD]
  {
    hide Mapped, ActiveBranch, FindTarget, FindEntry, ViewOf, Extend;
    Branched();
    Anchors();
    Places();
    Extensions();
    assert [FIRST, SECOND][..2] == [FIRST, SECOND];
  }

  lemma NoneLive(f: Forest, seeds: set<SessionId>)
    requires seeds == {}
    ensures LiveClosure(f, seeds) == {}
  {
    forall x
      ensures !LiveBelow(f, seeds, x)
    {
      NotBelow(f, seeds, x);
    }
    hide LiveBelow;
  }

  lemma {:induction false} NotBelow(f: Forest, seeds: set<SessionId>, x: SessionId)
    requires seeds == {}
    ensures !LiveBelow(f, seeds, x)
    decreases if x in f then f[x].serial else 0
  {
    if x in f && f[x].fork.Some? && f[x].fork.value.parent in f && f[f[x].fork.value.parent].serial < f[x].serial {
      NotBelow(f, seeds, f[x].fork.value.parent);
    }
  }

  lemma ChildArchived()
    ensures Apply(map[0 := ANSWERED_TWICE, 1 := CHILD], ArchiveStep(1, false)) ==
            map[0 := ANSWERED_TWICE, 1 := CHILD.(archived := true)]
  {
    var f := map[0 := ANSWERED_TWICE, 1 := CHILD];
    assert LiveChildren(f, 1) == {};
    NoneLive(f, LiveChildren(f, 1));
    hide LiveClosure, LiveChildren;
  }

  lemma Cut()
    ensures Prune(ANSWERED_TWICE, 10, 1) == CUT_BACK
    ensures !Unsettled(ANSWERED_TWICE.turns, true)
  {
    assert PruneTurns(ANSWERED_TWICE.turns, 1) == CUT_BACK.turns;
  }

  lemma NothingBelow(f: Forest)
    requires f == map[0 := ANSWERED_TWICE, 1 := CHILD.(archived := true)]
    ensures LiveClosure(f, ForkedFrom(f, 0, 1)) == {} && !Busy(f, {}) && ArchiveAll(f, {}) == f
  {
    assert ForkedFrom(f, 0, 1) == {} by {
      hide Lookup;
    }
    NoneLive(f, ForkedFrom(f, 0, 1));
    hide LiveClosure, ForkedFrom;
  }

  lemma ParentCut()
    ensures Apply(map[0 := ANSWERED_TWICE, 1 := CHILD.(archived := true)], PruneStep(0, 1, 10, false)) ==
            map[0 := CUT_BACK, 1 := CHILD.(archived := true)]
  {
    hide LiveClosure, ForkedFrom, ViewOf, Mapped, FindTarget, Lookup, Unsettled, Prune, Busy, ArchiveAll;
    Anchors();
    Places();
    Cut();
    NothingBelow(map[0 := ANSWERED_TWICE, 1 := CHILD.(archived := true)]);
  }

  lemma ChildRestored()
    ensures Apply(map[0 := CUT_BACK, 1 := CHILD.(archived := true)], UnarchiveStep(1, false)) == map[0 := CUT_BACK, 1 := CHILD]
  {
  }

  /** Archive the fork, prune its parent behind the fork turn, restore the fork. */
  lemma RestoredWithoutAnchor() returns (steps: seq<Step>)
    ensures var f := Run(steps);
            && Good(f) && 0 in f && 1 in f && !f[0].archived && !f[1].archived && f[1].fork == Some(FORK)
            && !ForkTurnKept(f, 1)
            && FocusedTree(f, 1) == Err(AnchorMissing)
  {
    hide Apply, Run, Good, FocusedTree;
    AfterTalk();
    Forked();
    ChildArchived();
    ParentCut();
    ChildRestored();
    LastStep(Talk(), ForkStep(0, 2, 11, 1, false));
    steps := Talk() + [ForkStep(0, 2, 11, 1, false)];
    LastStep(steps, ArchiveStep(1, false));
    steps := steps + [ArchiveStep(1, false)];
    LastStep(steps, PruneStep(0, 1, 10, false));
    steps := steps + [PruneStep(0, 1, 10, false)];
    LastStep(steps, UnarchiveStep(1, false));
    steps := steps + [UnarchiveStep(1, false)];
    RunGood(steps);
    AnchorGone(Run(steps));
  }

  lemma AnchorGone(f: Forest)
    requires Good(f) && f == map[0 := CUT_BACK, 1 := CHILD]
    ensures !ForkTurnKept(f, 1) && FocusedTree(f, 1) == Err(AnchorMissing)
  {
    hide Segment, Closed, SessionOk, LinkOk, LineageWalk, Focus;
    assert Lookup(CUT_BACK.turns, 2) == Some(1) by {
      var at := Lookup(CUT_BACK.turns, 2);
    }
    assert PrunedTurn(CUT_BACK, 2);
    AnchorMissingIffPruned(f, [0, 1], 0);
    assert Lineage(f, 0) == [0];
    assert Lineage(f, 1) == [0, 1];
    LineageFound(f, 1);
    FirstSegmentMissing(f);
    FocusFails(f, [0, 1], 1, 2);
    assert LineageWalk(f, Some(1), {}, 0) == Ok([0, 1]);
  }

  lemma FirstSegmentMissing(f: Forest)
    requires 0 in f && 1 in f && Segment(f[0], 0, Next(f, [0, 1], 0)) == Err(AnchorMissing)
    ensures Focus(f, [0, 1], 1) == Err(AnchorMissing)
  {
    hide Segment;
    assert Focus(f, [0, 1], 0) == Ok([]);
  }
}
