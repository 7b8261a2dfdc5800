/** Which turns a conversation's history lists: those that were not pruned, up to each fork turn, in order. */
module HistoryRows {
  import opened Common
  import opened Branches
  import opened MappedEntries
  import opened Sessions
  import opened Forest
  import opened FocusView
  import opened HistoryWindow

  // ------------------------------------------------------------------ one session

  /** `row` is the `m`-th turn of session `x`. */
  ghost predicate RowAt(turns: seq<Turn>, x: SessionId, m: nat, row: HistoryRow) {
    m < |turns| && row.session == x && row.turn == turns[m].id && row.position == turns[m].position
  }

  ghost predicate Listed(turns: seq<Turn>, m: nat, upTo: Option<nat>) {
    m < |turns| && !turns[m].pruned && (upTo.Some? ==> turns[m].position <= upTo.value)
  }

  lemma {:induction false} RowsShow(turns: seq<Turn>, x: SessionId, upTo: Option<nat>, row: HistoryRow)
    ensures row in RowsOf(turns, x, upTo) <==> exists m: nat :: Listed(turns, m, upTo) && RowAt(turns, x, m, row)
  {
    if turns != [] {
      var n := |turns| - 1;
      RowsShow(turns[..n], x, upTo, row);
      if row in RowsOf(turns[..n], x, upTo) {
        var m: nat :| Listed(turns[..n], m, upTo) && RowAt(turns[..n], x, m, row);
        assert Listed(turns, m, upTo) && RowAt(turns, x, m, row);
      } else if row in RowsOf(turns, x, upTo) {
        assert Listed(turns, n, upTo) && RowAt(turns, x, n, row);
      }
      if exists m: nat :: Listed(turns, m, upTo) && RowAt(turns, x, m, row) {
        var m: nat :| Listed(turns, m, upTo) && RowAt(turns, x, m, row);
        if m < n {
          assert Listed(turns[..n], m, upTo) && RowAt(turns[..n], x, m, row);
        }
      }
    }
  }

  lemma {:induction false} RowsAscend(turns: seq<Turn>, x: SessionId, upTo: Option<nat>)
    requires TurnsOk(turns)
    ensures var rows := RowsOf(turns, x, upTo);
            && (forall a, b :: 0 <= a < b < |rows| ==> rows[a].position < rows[b].position)
            && (forall a :: 0 <= a < |rows| ==> rows[a].session == x)
            && (rows != [] ==> turns != [] && rows[|rows| - 1].position <= turns[|turns| - 1].position)
  {
    if turns != [] {
      var n := |turns| - 1;
      RowsAscend(turns[..n], x, upTo);
    }
  }

  // ------------------------------------------------------------------ the whole lineage

  /**
   The `m`-th turn of the `i`-th session of the lineage is not pruned there, nor later than the next
   session's fork turn.
   */
  ghost predicate InHistory(f: Forest, ids: seq<SessionId>, i: nat, m: nat)
    requires IsLineage(f, ids)
  {
    && i < |ids| && m < |f[ids[i]].turns| && !f[ids[i]].turns[m].pruned
    && (i + 1 < |ids| ==>
          exists k :: 0 <= k < |f[ids[i]].turns| && f[ids[i]].turns[k].id == f[ids[i + 1]].fork.value.turn && m <= k)
  }

  ghost predicate HistoryAt(f: Forest, ids: seq<SessionId>, i: nat, m: nat, row: HistoryRow)
    requires IsLineage(f, ids)
  {
    InHistory(f, ids, i, m) && RowAt(f[ids[i]].turns, ids[i], m, row)
  }

  /** The position bound of a session is exactly its turns up to the next session's fork turn. */
  lemma ListedIsInHistory(f: Forest, ids: seq<SessionId>, i: nat, m: nat)
    requires Inv(f) && IsLineage(f, ids) && i < |ids| && ForkPosition(f, ids, i).Ok?
    ensures Listed(f[ids[i]].turns, m, ForkPosition(f, ids, i).value) <==> InHistory(f, ids, i, m)
  {
    hide OwnOf, ActiveBranch, LinkOk, Lookup;
    var turns := f[ids[i]].turns;
    assert SessionOk(f[ids[i]]);
    assert TurnsOk(turns);
    if i + 1 < |ids| {
      var k := Lookup(turns, f[ids[i + 1]].fork.value.turn).value;
      assert turns[k].id == f[ids[i + 1]].fork.value.turn;
      assert forall l :: 0 <= l < |turns| && turns[l].id == turns[k].id ==> l == k;
      assert m < |turns| ==> (turns[m].position <= turns[k].position <==> m <= k);
    }
  }

  lemma {:induction false} HistoryShowsUpTo(f: Forest, ids: seq<SessionId>, n: nat, row: HistoryRow)
    requires Inv(f) && IsLineage(f, ids) && n <= |ids| && History(f, ids, n, None).Ok?
    ensures row in History(f, ids, n, None).value <==> exists i: nat, m: nat :: i < n && HistoryAt(f, ids, i, m, row)
  {
    hide Inv, InHistory, RowAt, RowsOf, ForkPosition, Listed;
    if n > 0 {
      HistoryShowsUpTo(f, ids, n - 1, row);
      var last := n - 1;
      var upTo := ForkPosition(f, ids, last).value;
      var turns := f[ids[last]].turns;
      RowsShow(turns, ids[last], upTo, row);
      forall m: nat
        ensures Listed(turns, m, upTo) <==> InHistory(f, ids, last, m)
      {
        ListedIsInHistory(f, ids, last, m);
      }
      if row in RowsOf(turns, ids[last], upTo) {
        var m: nat :| Listed(turns, m, upTo) && RowAt(turns, ids[last], m, row);
        assert HistoryAt(f, ids, last, m, row);
      }
      if exists i: nat, m: nat :: i < n && HistoryAt(f, ids, i, m, row) {
        var i: nat, m: nat :| i < n && HistoryAt(f, ids, i, m, row);
        if i == last {
          assert Listed(turns, m, upTo) && RowAt(turns, ids[last], m, row);
        }
      }
    }
  }

  /** Of two rows the first is of an earlier session of the lineage, or earlier in the same mailbox. */
  ghost predicate Precedes(f: Forest, a: HistoryRow, b: HistoryRow) {
    && a.session in f && b.session in f
    && (f[a.session].serial < f[b.session].serial || (a.session == b.session && a.position < b.position))
  }

  lemma {:induction false} HistoryOrdered(f: Forest, ids: seq<SessionId>, n: nat)
    requires Inv(f) && IsLineage(f, ids) && n <= |ids| && History(f, ids, n, None).Ok?
    ensures var rows := History(f, ids, n, None).value;
            && (forall a, b :: 0 <= a < b < |rows| ==> Precedes(f, rows[a], rows[b]))
            && (forall a :: 0 <= a < |rows| && n < |ids| ==> rows[a].session in f && f[rows[a].session].serial < f[ids[n]].serial)
  {
    hide RowsOf, ForkPosition, Inv;
    if n > 0 {
      HistoryOrdered(f, ids, n - 1);
      SessionTurnsOk(f, ids[n - 1]);
      RowsAscend(f[ids[n - 1]].turns, ids[n - 1], ForkPosition(f, ids, n - 1).value);
      if n < |ids| {
        Older(f, ids, n);
      }
    }
  }

  lemma SessionTurnsOk(f: Forest, x: SessionId)
    requires Inv(f) && x in f
    ensures TurnsOk(f[x].turns)
  {
    hide LinkOk, TurnsOk;
    assert SessionOk(f[x]);
  }

  lemma Older(f: Forest, ids: seq<SessionId>, n: nat)
    requires Inv(f) && IsLineage(f, ids) && 0 < n < |ids|
    ensures f[ids[n - 1]].serial < f[ids[n]].serial
  {
    hide SessionOk;
    assert LinkOk(f, ids[n]);
  }

  /**
   In every reachable forest the whole history of a live conversation lists exactly the turns of its
   lineage that are not pruned in their session and no later there than the next session's fork
   turn; each has one row, sessions follow the lineage and rows the mailbox.
   */
  lemma HistoryExactly(steps: seq<Step>, x: SessionId, row: HistoryRow)
    requires x in Run(steps) && !Run(steps)[x].archived
    ensures var f := Run(steps);
            var ids := Lineage(f, x);
            && IsLineage(f, ids) && History(f, ids, |ids|, None).Ok?
            && (row in History(f, ids, |ids|, None).value <==> exists i: nat, m: nat :: HistoryAt(f, ids, i, m, row))
            && forall a, b :: 0 <= a < b < |History(f, ids, |ids|, None).value| ==>
                 Precedes(f, History(f, ids, |ids|, None).value[a], History(f, ids, |ids|, None).value[b])
  {
    hide Run, Last, History, Closed, Anchored, AnchoredRestores, LineageWalk, Precedes, InHistory, RowAt;
    var f := Run(steps);
    var ids := Lineage(f, x);
    RunGood(steps);
    ReachableHistory(steps, x);
    HistoryShowsUpTo(f, ids, |ids|, row);
    HistoryOrdered(f, ids, |ids|);
    hide Inv, Lineage;
    if exists i: nat, m: nat :: HistoryAt(f, ids, i, m, row) {
      var i: nat, m: nat :| HistoryAt(f, ids, i, m, row);
      InLineage(f, ids, i, m);
    }
  }

  lemma InLineage(f: Forest, ids: seq<SessionId>, i: nat, m: nat)
    requires IsLineage(f, ids) && InHistory(f, ids, i, m)
    ensures i < |ids|
  {
  }

  // ------------------------------------------------------------------ after a prune

  lemma {:induction false} PrunedRowsGone(turns: seq<Turn>, x: SessionId, n: nat)
    requires n <= |turns| && forall i :: n <= i < |turns| ==> turns[i].pruned
    ensures RowsOf(turns, x, None) == RowsOf(turns[..n], x, None)
  {
    if n < |turns| {
      PrunedRowsGone(turns[..|turns| - 1], x, n);
      assert turns[..|turns| - 1][..n] == turns[..n];
    } else {
      assert turns[..n] == turns;
    }
  }

  /** A prune cuts the session's own part of the history right after the turn it was pruned to. */
  lemma PrunedHistoryEnds(f: Forest, x: SessionId, t: TurnId, e: EntryId, delegatedActive: bool)
    requires Inv(f) && PruneTree(f, x, t, e, delegatedActive).Ok?
    ensures var rows := RowsOf(PruneTree(f, x, t, e, delegatedActive).value[x].turns, x, None);
            && rows != [] && rows[|rows| - 1].turn == t
            && rows <= RowsOf(f[x].turns, x, None)
  {
    hide OwnOf, ActiveBranch, LinkOk, IsAnchor, FindTarget, ViewOf, LiveClosure, ForkedFrom, Unsettled, Busy, Lookup,
      CompletedTurns, FinalIndices;
    PruneInv(f, x, t, e, delegatedActive);
    var s := f[x];
    assert SessionOk(s);
    hide Inv;
    var m, c, j, i := AnchorPlace(s, t, e);
    var turns := PruneTurns(s.turns, s.turns[m].position);
    assert PruneTree(f, x, t, e, delegatedActive).value[x].turns == turns;
    hide PruneTree;
    CutHistory(s.turns, x, m);
  }

  lemma CutHistory(turns: seq<Turn>, x: SessionId, m: nat)
    requires TurnsOk(turns) && m < |turns| && !turns[m].pruned
    ensures var rows := RowsOf(PruneTurns(turns, turns[m].position), x, None);
            && rows != [] && rows[|rows| - 1].turn == turns[m].id && rows <= RowsOf(turns, x, None)
  {
    var pruned := PruneTurns(turns, turns[m].position);
    PrunedRowsGone(pruned, x, m + 1);
    assert pruned[..m + 1] == turns[..m + 1];
    RowsSnoc(turns, m, x, None);
    RowsPrefix(turns, x, m + 1);
  }

  lemma {:induction false} RowsPrefix(turns: seq<Turn>, x: SessionId, n: nat)
    requires n <= |turns|
    ensures RowsOf(turns[..n], x, None) <= RowsOf(turns, x, None)
  {
    if n == |turns| {
      assert turns[..n] == turns;
    } else {
      RowsPrefix(turns[..|turns| - 1], x, n);
      assert turns[..|turns| - 1][..n] == turns[..n];
    }
  }
}
