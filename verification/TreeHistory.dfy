/**
 The focused tree and the history agree: over every run both show the same completed turns in the
 same order, although one reads the entry trees and the other the mailboxes.
 */
module TreeHistory {
  import opened Common
  import opened Branches
  import opened MappedEntries
  import opened Sessions
  import opened Forest
  import opened FocusView
  import opened HistoryWindow
  import R = HistoryRows
  import SM = StateMachines

  // ------------------------------------------------------------------ finals and completed turns keep pace

  /** A session has as many final messages of its own as completed turns that were not pruned. */
  ghost predicate Balanced(s: Session) {
    |FinalIndices(Own(s))| == |CompletedTurns(s.turns)|
  }

  ghost predicate AllBalanced(f: Forest) {
    forall x :: x in f ==> Balanced(f[x])
  }

  lemma SettleBalanced(s: Session, i: nat, outcome: SM.TurnState, ext: seq<Entry>)
    requires SessionOk(s) && Balanced(s) && CanSettle(s, i, outcome, ext)
    ensures Balanced(Settle(s, i, outcome, ext))
  {
    hide FinalIndices, CompletedTurns, OwnOf, Appendable, Extend, Branch, ActiveBranch;
    SettleBranch(s, i, outcome, ext);
    CompletedAfterSettle(s.turns, i, outcome);
    FinalIndicesAppend(Own(s), ext);
  }

  lemma PruneBalanced(s: Session, t: TurnId, e: EntryId)
    requires SessionOk(s) && Balanced(s) && AnchorOf(s, t, e) && Lookup(s.turns, t).Some? && !Unsettled(s.turns, true)
    ensures Balanced(Prune(s, e, s.turns[Lookup(s.turns, t).value].position))
  {
    hide FinalIndices, CompletedTurns, Lookup, OwnOf, IsAnchor, Unsettled, Branch, OwnStart, PruneTurns, Mapped;
    var m, c, j, f := AnchorPlace(s, t, e);
    PruneBranch(s, e, m, c, f);
    MappedCut(Own(s), CompletedTurns(s.turns), j, t, f);
  }

  lemma SameOwn(s: Session, s': Session)
    requires s'.entries == s.entries && s'.leaf == s.leaf && s'.fork == s.fork
    ensures Own(s') == Own(s)
  {
  }

  lemma SameBalanced(s: Session, s': Session)
    requires Balanced(s) && s'.entries == s.entries && s'.leaf == s.leaf && s'.fork == s.fork
    requires |CompletedTurns(s'.turns)| == |CompletedTurns(s.turns)|
    ensures Balanced(s')
  {
    SameOwn(s, s');
    hide Own, FinalIndices, CompletedTurns;
  }

  lemma AdmitBalanced(s: Session, t: TurnId, position: nat)
    requires Balanced(s)
    ensures Balanced(s.(turns := s.turns + [Turn(t, position, SM.TurnState.Queued, false)]))
  {
    hide Own, FinalIndices, CompletedTurns;
    CompletedConcat(s.turns, [Turn(t, position, SM.TurnState.Queued, false)]);
    CompletedOne(Turn(t, position, SM.TurnState.Queued, false));
    SameBalanced(s, s.(turns := s.turns + [Turn(t, position, SM.TurnState.Queued, false)]));
  }

  lemma AdvanceBalanced(s: Session, i: nat, state: SM.TurnState, session: SM.SessionState)
    requires Balanced(s) && CanAdvance(s, i, state)
    ensures Balanced(s.(state := session, turns := s.turns[i := s.turns[i].(state := state)]))
  {
    hide Own, FinalIndices, CompletedTurns;
    CompletedUpdate(s.turns, i, s.turns[i].(state := state));
    SameBalanced(s, s.(state := session, turns := s.turns[i := s.turns[i].(state := state)]));
  }

  lemma FlagsBalanced(f: Forest, f': Forest)
    requires AllBalanced(f) && f'.Keys == f.Keys
    requires forall x :: x in f ==> f'[x] == f[x].(archived := f'[x].archived)
    ensures AllBalanced(f')
  {
    hide Balanced;
    forall x | x in f'
      ensures Balanced(f'[x])
    {
      SameBalanced(f[x], f'[x]);
    }
  }

  lemma ForkBalanced(f: Forest, source: SessionId, t: TurnId, e: EntryId, child: SessionId, quota: bool)
    requires Good(f) && AllBalanced(f) && child !in f && ForkTree(f, source, t, e, child, quota).Ok?
    ensures AllBalanced(ForkTree(f, source, t, e, child, quota).value)
  {
    hide Closed, ActiveBranch, Mapped, FindTarget, FindEntry, CompletedTurns, Unsettled, Extend, FinalIndices, LinkOk,
      WellKeyed, TurnsOk;
    var s := f[source];
    assert SessionOk(s);
    ForkCopiesPath(s, |f|, ForkPoint(source, t, e));
    NothingFinal();
  }

  lemma NothingFinal()
    ensures FinalIndices([]) == [] && CompletedTurns([]) == []
  {
  }

  lemma PruneTreeBalanced(f: Forest, x: SessionId, t: TurnId, e: EntryId, active: bool)
    requires Good(f) && AllBalanced(f) && PruneTree(f, x, t, e, active).Ok?
    ensures AllBalanced(PruneTree(f, x, t, e, active).value)
  {
    hide Closed, ActiveBranch, OwnOf, ViewOf, FindTarget, Unsettled, LinkOk, WellKeyed, TurnsOk, LiveClosure,
      ForkedFrom,
      Busy, Lookup, PruneTurns, Balanced, AnchorOf;
    PruneInv(f, x, t, e, active);
    assert SessionOk(f[x]);
    hide Inv;
    PruneBalanced(f[x], t, e);
    var s' := Prune(f[x], e, f[x].turns[Lookup(f[x].turns, t).value].position);
    FlagsBalanced(f[x := s'], PruneTree(f, x, t, e, active).value);
  }

  lemma ApplyBalanced(f: Forest, step: Step)
    requires Good(f) && AllBalanced(f)
    ensures AllBalanced(Apply(f, step))
  {
    hide Balanced, ForkTree, PruneTree, CanAdmit, CanAdvance, CanSettle, Settle, Closed, LinkOk, Unsettled, Busy,
      LiveClosure, LiveChildren, SessionOk;
    match step
    case ForkStep(source, t, e, child, quota) =>
      if child !in f && ForkTree(f, source, t, e, child, quota).Ok? {
        ForkBalanced(f, source, t, e, child, quota);
      }
    case PruneStep(x, t, e, active) =>
      if PruneTree(f, x, t, e, active).Ok? {
        PruneTreeBalanced(f, x, t, e, active);
      }
    case ArchiveStep(x, active) => FlagsBalanced(f, Apply(f, step));
    case UnarchiveStep(x, taken) => FlagsBalanced(f, Apply(f, step));
    case CreateStep(x) => CreatedBalanced(|f|);
    case AdmitStep(x, t, position) =>
      if x in f && CanAdmit(f[x], t, position) {
        AdmitBalanced(f[x], t, position);
      }
    case AdvanceStep(x, state, i, turnState) =>
      if x in f && CanAdvance(f[x], i, turnState) {
        AdvanceBalanced(f[x], i, turnState, state);
      }
    case SettleStep(x, i, outcome, ext) =>
      if x in f && CanSettle(f[x], i, outcome, ext) {
        assert SessionOk(f[x]);
        SettleBalanced(f[x], i, outcome, ext);
      }
  }

  lemma CreatedBalanced(serial: nat)
    ensures Balanced(Session(serial, None, false, SM.SessionState.Cold, map[], None, []))
  {
  }

  lemma {:induction false} RunBalanced(steps: seq<Step>)
    ensures AllBalanced(Run(steps))
  {
    if steps != [] {
      var n := |steps| - 1;
      hide Good, AllBalanced, Apply, AnchoredRestores, Anchored;
      RunBalanced(steps[..n]);
      RunGood(steps[..n]);
      ApplyBalanced(Run(steps[..n]), steps[n]);
    }
  }

  // ------------------------------------------------------------------ the turns a view shows

  /** The turns whose final messages are shown, in order. */
  function FinalTurns(view: seq<MappedEntry>): seq<TurnId> {
    if view == [] then []
    else
      var n := |view| - 1;
      FinalTurns(view[..n]) + if view[n].finalAssistant then [view[n].turnId] else []
  }

  lemma {:induction false} FinalTurnsConcat(v: seq<MappedEntry>, w: seq<MappedEntry>)
    ensures FinalTurns(v + w) == FinalTurns(v) + FinalTurns(w)
  {
    if w == [] {
      assert v + w == v;
    } else {
      var n := |w| - 1;
      assert (v + w)[..|v| + n] == v + w[..n];
      FinalTurnsConcat(v, w[..n]);
    }
  }

  lemma OneShown(m: MappedEntry)
    ensures FinalTurns([m]) == if m.finalAssistant then [m.turnId] else []
  {
    assert [m][..0] == [];
  }

  lemma TurnViewTurns(b: seq<Entry>, lo: nat, f: nat, t: TurnId)
    requires lo <= f < |b|
    ensures FinalTurns(TurnView(b, lo, f, t)) == [t]
  {
    hide FirstUser, FinalTurns;
    var final := View(b, f, t, Assistant);
    OneShown(final);
    match FirstUser(b, lo, f)
    case Some(u) =>
      OneShown(View(b, u, t, User));
      FinalTurnsConcat([View(b, u, t, User)], [final]);
    case None => assert [] + [final] == [final];
  }

  lemma {:induction false} PairedTurns(b: seq<Entry>, fs: seq<nat>, d: nat, ts: seq<TurnId>, e: nat, n: nat)
    requires Indices(fs, |b|) && d + n <= |fs| && e + n <= |ts|
    ensures FinalTurns(PairedView(b, fs, d, ts, e, n)) == ts[e..e + n]
  {
    hide TurnView, FinalTurns, Indices;
    if n > 0 {
      PairedTurns(b, fs, d, ts, e, n - 1);
      PairedStep(b, fs, d, ts, e, n - 1);
      assert ts[e..e + n] == ts[e..e + n - 1] + [ts[e + n - 1]];
    } else {
      NothingShown();
    }
  }

  lemma NothingShown()
    ensures FinalTurns([]) == []
  {
  }

  lemma PairedStep(b: seq<Entry>, fs: seq<nat>, d: nat, ts: seq<TurnId>, e: nat, n: nat)
    requires Indices(fs, |b|) && d + n < |fs| && e + n < |ts|
    ensures FinalTurns(PairedView(b, fs, d, ts, e, n + 1)) == FinalTurns(PairedView(b, fs, d, ts, e, n)) + [ts[e + n]]
  {
    hide TurnView, FinalTurns;
    var lo, f := SegmentStart(fs, d, n), fs[d + n];
    FinalTurnsConcat(PairedView(b, fs, d, ts, e, n), TurnView(b, lo, f, ts[e + n]));
    TurnViewTurns(b, lo, f, ts[e + n]);
  }

  /** A view shows the last of the turns it is given, as many as there are final messages for. */
  lemma MappedTurns(b: seq<Entry>, turns: seq<TurnId>)
    ensures FinalTurns(Mapped(b, turns)) == Last(Min(|FinalIndices(b)|, |turns|), turns)
  {
    hide PairedView, FinalIndices, FinalTurns;
    var k := Min(|FinalIndices(b)|, |turns|);
    PairedTurns(b, FinalIndices(b), |FinalIndices(b)| - k, turns, |turns| - k, k);
    assert turns[|turns| - k..] == turns[|turns| - k..|turns| - k + k];
    if k == |turns| {
      assert turns[0..] == turns;
    }
  }

  // ------------------------------------------------------------------ the turns a history lists

  datatype TurnOf = TurnOf(session: SessionId, turn: TurnId)

  function Tagged(x: SessionId, turns: seq<TurnId>): seq<TurnOf> {
    seq(|turns|, i requires 0 <= i < |turns| => TurnOf(x, turns[i]))
  }

  /** The rows of a history whose turns completed. */
  ghost function CompletedRows(f: Forest, rows: seq<HistoryRow>): seq<TurnOf> {
    if rows == [] then []
    else
      var n := |rows| - 1;
      CompletedRows(f, rows[..n]) +
      if rows[n].session in f && CompletedTurn(f[rows[n].session], rows[n].turn) then [TurnOf(rows[n].session, rows[n].turn)] else []
  }

  lemma {:induction false} CompletedRowsConcat(f: Forest, v: seq<HistoryRow>, w: seq<HistoryRow>)
    ensures CompletedRows(f, v + w) == CompletedRows(f, v) + CompletedRows(f, w)
  {
    hide CompletedTurn;
    if w == [] {
      assert v + w == v;
    } else {
      var n := |w| - 1;
      assert (v + w)[..|v| + n] == v + w[..n];
      CompletedRowsConcat(f, v, w[..n]);
    }
  }

  lemma CompletedRow(f: Forest, row: HistoryRow)
    ensures CompletedRows(f, [row]) ==
            if row.session in f && CompletedTurn(f[row.session], row.turn) then [TurnOf(row.session, row.turn)] else []
  {
    assert [row][..0] == [];
    hide CompletedTurn;
  }

  lemma TurnStored(turns: seq<Turn>, i: nat)
    requires TurnsOk(turns) && i < |turns|
    ensures Lookup(turns, turns[i].id) == Some(i)
  {
    var k := Lookup(turns, turns[i].id).value;
    hide Lookup;
  }

  /**
   Of the first `n` turns of a session the history lists exactly the view's completed ones among
   those that completed.
   */
  lemma {:induction false} RowsCompleted(f: Forest, x: SessionId, n: nat)
    requires x in f && TurnsOk(f[x].turns) && n <= |f[x].turns|
    ensures CompletedRows(f, RowsOf(f[x].turns[..n], x, None)) == Tagged(x, CompletedTurns(f[x].turns[..n]))
  {
    hide CompletedRows, Lookup, TurnsOk;
    if n > 0 {
      var turns := f[x].turns;
      var row := HistoryRow(x, turns[n - 1].id, turns[n - 1].position);
      RowsCompleted(f, x, n - 1);
      assert turns[..n][..n - 1] == turns[..n - 1];
      TurnStored(turns, n - 1);
      CompletedRow(f, row);
      CompletedRowsConcat(f, RowsOf(turns[..n - 1], x, None), [row]);
      assert RowsOf(turns[..n - 1], x, None) + [] == RowsOf(turns[..n - 1], x, None);
      assert Tagged(x, CompletedTurns(turns[..n - 1]) + [turns[n - 1].id]) == Tagged(x, CompletedTurns(turns[..n - 1])) + [TurnOf(x, turns[n - 1].id)];
      assert Tagged(x, CompletedTurns(turns[..n - 1]) + []) == Tagged(x, CompletedTurns(turns[..n - 1]));
    } else {
      NothingListed(f, f[x].turns[..0], x);
    }
  }

  lemma NothingListed(f: Forest, turns: seq<Turn>, x: SessionId)
    requires turns == []
    ensures CompletedRows(f, RowsOf(turns, x, None)) == [] && CompletedTurns(turns) == []
  {
  }

  /** Bounding the rows by the position of the `m`-th turn is cutting the mailbox after it. */
  lemma {:induction false} RowsBounded(turns: seq<Turn>, x: SessionId, m: nat, n: nat)
    requires TurnsOk(turns) && m < n <= |turns|
    ensures RowsOf(turns[..n], x, Some(turns[m].position)) == RowsOf(turns[..m + 1], x, None)
  {
    hide TurnsOk;
    if n == m + 1 {
      RowsBelow(turns[..n], x, turns[m].position) by {
        Positions(turns, m);
      }
    } else {
      RowsBounded(turns, x, m, n - 1);
      assert turns[..n][..n - 1] == turns[..n - 1];
      Positions(turns, m);
    }
  }

  lemma Positions(turns: seq<Turn>, m: nat)
    requires TurnsOk(turns) && m < |turns|
    ensures forall i :: 0 <= i < |turns| ==> (turns[i].position <= turns[m].position <==> i <= m)
  {
  }

  lemma {:induction false} RowsBelow(turns: seq<Turn>, x: SessionId, position: nat)
    requires forall i :: 0 <= i < |turns| ==> turns[i].position <= position
    ensures RowsOf(turns, x, Some(position)) == RowsOf(turns, x, None)
  {
    if turns != [] {
      RowsBelow(turns[..|turns| - 1], x, position);
    }
  }

  // ------------------------------------------------------------------ one session in both views

  /** The completed turns that the `n`-th session of the lineage contributes to the history. */
  ghost function HistoryPart(f: Forest, ids: seq<SessionId>, n: nat): seq<TurnOf>
    requires IsLineage(f, ids) && n < |ids| && ForkPosition(f, ids, n).Ok?
  {
    CompletedRows(f, RowsOf(f[ids[n]].turns, ids[n], ForkPosition(f, ids, n).value))
  }

  /** The view up to the anchor's entry ends with the anchor's turn. */
  lemma CutTurns(s: Session, t: TurnId, e: EntryId) returns (m: nat)
    requires SessionOk(s) && Balanced(s) && AnchorOf(s, t, e)
    ensures Lookup(s.turns, t) == Some(m)
    ensures var view := Mapped(Own(s), CompletedTurns(s.turns));
            && FindMapped(view, e).Some?
            && FinalTurns(view[..FindMapped(view, e).value + 1]) == CompletedTurns(s.turns[..m + 1])
  {
    hide FinalIndices, CompletedTurns, Lookup, OwnOf, Mapped, FindMapped, FinalTurns, Branch, ActiveBranch, WellKeyed;
    var b, turns := Own(s), CompletedTurns(s.turns);
    var c, j, f;
    m, c, j, f := AnchorPlace(s, t, e);
    MappedCut(b, turns, j, t, f);
    MappedTurns(b[..f + 1], turns[..c + 1]);
    FoundAtEnd(s, Mapped(b, turns), Mapped(b[..f + 1], turns[..c + 1]), e);
  }

  /** An entry is shown once, so the search for it ends where a prefix of the view ends with it. */
  lemma FoundAtEnd(s: Session, view: seq<MappedEntry>, cut: seq<MappedEntry>, e: EntryId)
    requires SessionOk(s) && view == Mapped(Own(s), CompletedTurns(s.turns))
    requires cut != [] && cut <= view && cut[|cut| - 1].entryId == e
    ensures FindMapped(view, e) == Some(|cut| - 1) && view[..|cut|] == cut
  {
    hide FinalIndices, CompletedTurns, OwnOf, Mapped, FindMapped, Branch, ActiveBranch, WellKeyed, TurnsOk, OwnStart;
    MappedOrdered(Own(s), CompletedTurns(s.turns));
    var i := FindMapped(view, e).value;
    OwnPlace(s, view[i].index, e);
    OwnPlace(s, view[|cut| - 1].index, e);
  }

  lemma WholeTurns(s: Session)
    requires Balanced(s)
    ensures FinalTurns(Mapped(Own(s), CompletedTurns(s.turns))) == CompletedTurns(s.turns)
  {
    hide FinalIndices, CompletedTurns, Own, Mapped, FinalTurns;
    MappedTurns(Own(s), CompletedTurns(s.turns));
  }

  /** The last session of a lineage shows all its completed turns, in the tree and in the history. */
  lemma LastAgrees(f: Forest, ids: seq<SessionId>, n: nat)
    requires Inv(f) && AllBalanced(f) && IsLineage(f, ids) && n + 1 == |ids|
    requires Segment(f[ids[n]], ids[n], Next(f, ids, n)).Ok?
    ensures ForkPosition(f, ids, n).Ok?
    ensures HistoryPart(f, ids, n) == Tagged(ids[n], FinalTurns(Segment(f[ids[n]], ids[n], Next(f, ids, n)).value))
  {
    hide Own, Mapped, CompletedTurns, FinalTurns, RowsOf, CompletedRows, Balanced, ViewOf, LinkOk, WellKeyed,
      ActiveBranch, OwnOf;
    var s := f[ids[n]];
    assert SessionOk(s);
    ViewIsMapped(s);
    WholeTurns(s);
    R.SessionTurnsOk(f, ids[n]);
    RowsCompleted(f, ids[n], |s.turns|);
    assert s.turns[..|s.turns|] == s.turns;
  }

  /** An ancestor shows its completed turns up to the fork turn, in the tree and in the history. */
  lemma AncestorAgrees(f: Forest, ids: seq<SessionId>, n: nat)
    requires Inv(f) && AllBalanced(f) && IsLineage(f, ids) && n + 1 < |ids| && ForkTurnKept(f, ids[n + 1])
    requires Segment(f[ids[n]], ids[n], Next(f, ids, n)).Ok?
    ensures ForkPosition(f, ids, n).Ok?
    ensures HistoryPart(f, ids, n) == Tagged(ids[n], FinalTurns(Segment(f[ids[n]], ids[n], Next(f, ids, n)).value))
  {
    hide Own, Mapped, CompletedTurns, FinalTurns, RowsOf, CompletedRows, Balanced, ViewOf, WellKeyed, ActiveBranch,
      OwnOf,
      FindMapped, AnchorOf, OffBranch, PrefixTo, CompletedTurn, Lookup, TurnsOk, Branch;
    var s, k := f[ids[n]], f[ids[n + 1]].fork.value;
    assert SessionOk(s) && LinkOk(f, ids[n + 1]);
    ViewIsMapped(s);
    R.SessionTurnsOk(f, ids[n]);
    hide Inv;
    var m := CutTurns(s, k.turn, k.entry);
    RowsBounded(s.turns, ids[n], m, |s.turns|);
    assert s.turns[..|s.turns|] == s.turns;
    RowsCompleted(f, ids[n], m + 1);
  }

  /**
   What a session shows of itself is its whole view if it is the last of the lineage, and else the
   view up to and including the final message at which the next session was forked.
   */
  lemma SegmentExactly(f: Forest, ids: seq<SessionId>, n: nat)
    requires Inv(f) && IsLineage(f, ids) && n < |ids| && (n + 1 < |ids| ==> ForkTurnKept(f, ids[n + 1]))
    ensures var r := Segment(f[ids[n]], ids[n], Next(f, ids, n));
            var view := Mapped(Own(f[ids[n]]), CompletedTurns(f[ids[n]].turns));
            && r.Ok? && r.value <= view
            && (n + 1 == |ids| ==> r.value == view)
            && (n + 1 < |ids| ==> r.value != [] && r.value[|r.value| - 1].entryId == f[ids[n + 1]].fork.value.entry)
  {
    hide Own, Mapped, CompletedTurns, ViewOf, WellKeyed, ActiveBranch, OwnOf, AnchorOf, OffBranch, PrefixTo,
      CompletedTurn,
      Lookup, TurnsOk, Branch;
    SegmentShown(f, ids, n);
    assert SessionOk(f[ids[n]]);
    ViewIsMapped(f[ids[n]]);
  }

  // ------------------------------------------------------------------ the whole lineage

  /** The turns whose final messages the focused tree shows, session by session. */
  function ShownTurns(ids: seq<SessionId>, segments: seq<seq<MappedEntry>>): seq<TurnOf>
    requires |segments| <= |ids|
  {
    if segments == [] then []
    else
      var n := |segments| - 1;
      ShownTurns(ids, segments[..n]) + Tagged(ids[n], FinalTurns(segments[n]))
  }

  lemma {:induction false} SegmentsAgree(f: Forest, ids: seq<SessionId>, n: nat)
    requires Inv(f) && AllBalanced(f) && IsLineage(f, ids) && LineageKept(f, ids) && n <= |ids|
    requires History(f, ids, n, None).Ok?
    ensures ShownTurns(ids, AllSegments(f, ids, n)) == CompletedRows(f, History(f, ids, n, None).value)
  {
    hide Inv, AllBalanced, Segment, RowsOf, FinalTurns, Tagged, CompletedRows, ForkPosition, ForkTurnKept;
    if n > 0 {
      SegmentsAgree(f, ids, n - 1);
      var segments := AllSegments(f, ids, n);
      assert segments[..n - 1] == AllSegments(f, ids, n - 1);
      SegmentShown(f, ids, n - 1);
      if n == |ids| {
        LastAgrees(f, ids, n - 1);
      } else {
        AncestorAgrees(f, ids, n - 1);
      }
      CompletedRowsConcat(f, History(f, ids, n - 1, None).value,
                          RowsOf(f[ids[n - 1]].turns, ids[n - 1], ForkPosition(f, ids, n - 1).value));
    } else {
      NothingCompleted(f);
    }
  }

  lemma NothingCompleted(f: Forest)
    ensures CompletedRows(f, []) == []
  {
  }

  /**
   Over every run: whenever the focused tree of a live conversation is shown, the turns whose final
   messages it shows are exactly the completed turns of the conversation's whole history, in the
   same order and of the same sessions.
   */
  lemma TreeShowsHistory(steps: seq<Step>, x: SessionId)
    requires x in Run(steps) && !Run(steps)[x].archived && FocusedTree(Run(steps), x).Ok?
    ensures var f := Run(steps);
            var ids := Lineage(f, x);
            && IsLineage(f, ids) && |FocusedTree(f, x).value| == |ids| && History(f, ids, |ids|, None).Ok?
            && ShownTurns(ids, FocusedTree(f, x).value) == CompletedRows(f, History(f, ids, |ids|, None).value)
  {
    hide Run, Last, History, Closed, Anchored, AnchoredRestores, AllBalanced, CompletedRows, ShownTurns, FocusedTree,
      AllSegments, Count, ForkTurnKept;
    var f := Run(steps);
    RunGood(steps);
    RunBalanced(steps);
    ReachableHistory(steps, x);
    TreeShownIff(f, x);
    SegmentsAgree(f, Lineage(f, x), |Lineage(f, x)|);
  }

  lemma LiveFound(f: Forest, x: SessionId)
    requires Good(f) && x in f && !f[x].archived
    ensures FocusedTree(f, x) != Err(ConversationNotFound)
    ensures LastTurns(f, x) != Err(LineageFailed(ConversationNotFound))
  {
    hide LineageWalk, History, Good, Lineage, IsLineage, AllSegments, Count, LineageKept, FirstPruned, FocusedTree;
    TreeShownIff(f, x);
    LineageFound(f, x);
    HistoryError(f, Lineage(f, x));
    hide Showable;
  }

  lemma HistoryError(f: Forest, ids: seq<SessionId>)
    ensures (forall j :: 0 <= j < |ids| ==> ids[j] in f) ==>
              History(f, ids, |ids|, None).Err? ==> History(f, ids, |ids|, None) == Err(ForkTurnMissing)
  {
    if forall j :: 0 <= j < |ids| ==> ids[j] in f {
      HistoryErrorUpTo(f, ids, |ids|);
    }
  }

  lemma {:induction false} HistoryErrorUpTo(f: Forest, ids: seq<SessionId>, n: nat)
    requires (forall j :: 0 <= j < |ids| ==> ids[j] in f) && n <= |ids|
    ensures History(f, ids, n, None).Err? ==> History(f, ids, n, None) == Err(ForkTurnMissing)
  {
    hide RowsOf;
    if n > 0 {
      HistoryErrorUpTo(f, ids, n - 1);
    }
  }

  /** A conversation is not found, by the tree and by the history, exactly if it does not exist or is archived. */
  lemma NotFoundIff(f: Forest, x: SessionId)
    requires Good(f)
    ensures FocusedTree(f, x) == Err(ConversationNotFound) <==> !(x in f && !f[x].archived)
    ensures LastTurns(f, x) == Err(LineageFailed(ConversationNotFound)) <==> !(x in f && !f[x].archived)
  {
    hide LineageWalk, History, Focus, Good;
    if x in f && !f[x].archived {
      LiveFound(f, x);
    } else {
      WalkStep(f, x, {}, 0);
    }
  }
}
