/**
 The conversation history: the climb to the root, a bounded number of newest turns per lineage
 session, joined and cut once more.
 */
module HistoryWindow {
  import opened Common
  import opened Branches
  import opened Sessions
  import opened Forest
  import opened FocusView

  const MAX_CONVERSATION_TURNS := 200

  datatype HistoryRow = HistoryRow(session: SessionId, turn: TurnId, position: nat)

  datatype HistoryError = LineageFailed(error: ViewError) | ForkTurnMissing

  // ------------------------------------------------------------------ the rows of one session

  predicate Included(turn: Turn, upTo: Option<nat>) {
    !turn.pruned && (upTo.Some? ==> turn.position <= upTo.value)
  }

  /** A session's turns that were not pruned, up to a mailbox position, in mailbox order. */
  function RowsOf(turns: seq<Turn>, x: SessionId, upTo: Option<nat>): seq<HistoryRow> {
    if turns == [] then []
    else
      var n := |turns| - 1;
      RowsOf(turns[..n], x, upTo) + if Included(turns[n], upTo) then [HistoryRow(x, turns[n].id, turns[n].position)] else []
  }

  /** Where the next session of the lineage forked off, in the mailbox of this one. */
  function ForkPosition(f: Forest, ids: seq<SessionId>, i: nat): Result<Option<nat>, HistoryError>
    requires i < |ids| && forall j :: 0 <= j < |ids| ==> ids[j] in f
  {
    if i + 1 == |ids| || f[ids[i + 1]].fork.None? then Ok(None)
    else
      match Lookup(f[ids[i]].turns, f[ids[i + 1]].fork.value.turn)
      case Some(k) => Ok(Some(f[ids[i]].turns[k].position))
      case None => Err(ForkTurnMissing)
  }

  // ------------------------------------------------------------------ the whole history and the bounded one

  /**
   The unbounded history of the first `n` sessions of a lineage, each contributing its newest
   `limit` rows when bounded.
   */
  function History(f: Forest, ids: seq<SessionId>, n: nat, limit: Option<nat>): Result<seq<HistoryRow>, HistoryError>
    requires n <= |ids| && forall j :: 0 <= j < |ids| ==> ids[j] in f
  {
    if n == 0 then Ok([])
    else
      match History(f, ids, n - 1, limit)
      case Err(e) => Err(e)
      case Ok(above) =>
        match ForkPosition(f, ids, n - 1)
        case Err(e) => Err(e)
        case Ok(upTo) =>
          var rows := RowsOf(f[ids[n - 1]].turns, ids[n - 1], upTo);
          Ok(above + match limit case Some(m) => Last(m, rows) case None => rows)
  }

  lemma LastAppend(n: nat, x: seq<HistoryRow>, p: seq<HistoryRow>)
    ensures Last(n, x + p) == Last(n, Last(n, x) + p)
    ensures |p| >= n ==> Last(n, x + p) == Last(n, p)
  {
    var all, cut := x + p, Last(n, x) + p;
    assert forall i :: 0 <= i < |p| ==> all[|x| + i] == p[i];
    if |x| > n {
      assert forall i :: 0 <= i < |cut| ==> cut[i] == all[|x| - n + i];
    }
  }

  /** A window one longer than what is kept loses nothing that is kept, and shows whether anything was lost. */
  lemma WindowAppend(m: nat, full: seq<HistoryRow>, window: seq<HistoryRow>, rows: seq<HistoryRow>)
    requires Last(m, window) == Last(m, full) && (|window| > m <==> |full| > m) && (|window| <= m ==> window == full)
    ensures var w := window + Last(m + 1, rows);
            var f := full + rows;
            Last(m, w) == Last(m, f) && (|w| > m <==> |f| > m) && (|w| <= m ==> w == f)
  {
    LastAppend(m, full, rows);
    LastAppend(m, window, Last(m + 1, rows));
    if |rows| > m {
      assert Last(m, rows) == Last(m, Last(m + 1, rows));
    }
  }

  lemma {:induction false} WindowKeeps(f: Forest, ids: seq<SessionId>, n: nat, m: nat)
    requires n <= |ids| && forall j :: 0 <= j < |ids| ==> ids[j] in f
    ensures History(f, ids, n, None).Ok? <==> History(f, ids, n, Some(m + 1)).Ok?
    ensures History(f, ids, n, None).Ok? ==>
              var full := History(f, ids, n, None).value;
              var window := History(f, ids, n, Some(m + 1)).value;
              Last(m, window) == Last(m, full) && (|window| > m <==> |full| > m) && (|window| <= m ==> window == full)
    ensures History(f, ids, n, None).Err? ==> History(f, ids, n, Some(m + 1)) == History(f, ids, n, None)
  {
    hide Last, ForkPosition, RowsOf;
    if n > 0 {
      WindowKeeps(f, ids, n - 1, m);
      if History(f, ids, n - 1, None).Ok? && ForkPosition(f, ids, n - 1).Ok? {
        WindowAppend(m, History(f, ids, n - 1, None).value, History(f, ids, n - 1, Some(m + 1)).value,
                     RowsOf(f[ids[n - 1]].turns, ids[n - 1], ForkPosition(f, ids, n - 1).value));
      }
    }
  }

  /**
   Fetching at most 201 newest turns per session gives exactly the last 200 turns of the whole
   lineage, and reports truncation exactly when the lineage has more than 200.
   */
  lemma BoundedHistoryExact(f: Forest, ids: seq<SessionId>)
    requires forall j :: 0 <= j < |ids| ==> ids[j] in f
    ensures var full := History(f, ids, |ids|, None);
            var window := History(f, ids, |ids|, Some(MAX_CONVERSATION_TURNS + 1));
            && (full.Ok? <==> window.Ok?)
            && (full.Ok? ==> Last(MAX_CONVERSATION_TURNS, window.value) == Last(MAX_CONVERSATION_TURNS, full.value))
            && (full.Ok? ==> (|window.value| > MAX_CONVERSATION_TURNS <==> |full.value| > MAX_CONVERSATION_TURNS))
  {
    WindowKeeps(f, ids, |ids|, MAX_CONVERSATION_TURNS);
    hide Last, History;
  }

  // ------------------------------------------------------------------ the loops

  lemma RowsSnoc(turns: seq<Turn>, i: nat, x: SessionId, upTo: Option<nat>)
    requires i < |turns|
    ensures RowsOf(turns[..i + 1], x, upTo) ==
            RowsOf(turns[..i], x, upTo) + if Included(turns[i], upTo) then [HistoryRow(x, turns[i].id, turns[i].position)] else []
  {
    assert turns[..i + 1][..i] == turns[..i];
  }

  /** The newest rows first, at most `limit` of them, then put back in mailbox order. */
  method NewestRows(turns: seq<Turn>, x: SessionId, upTo: Option<nat>, limit: nat) returns (rows: seq<HistoryRow>)
    requires limit > 0
    ensures rows == Last(limit, RowsOf(turns, x, upTo))
  {
    hide RowsOf, Included;
    var i := |turns|;
    rows := [];
    assert turns[..i] == turns;
    assert RowsOf(turns, x, upTo) == RowsOf(turns, x, upTo) + [];
    while i > 0 && |rows| < limit
      invariant 0 <= i <= |turns| && |rows| <= limit
      invariant RowsOf(turns, x, upTo) == RowsOf(turns[..i], x, upTo) + rows
      decreases i
    {
      RowsSnoc(turns, i - 1, x, upTo);
      i := i - 1;
      if Included(turns[i], upTo) {
        var row := HistoryRow(x, turns[i].id, turns[i].position);
        assert RowsOf(turns[..i], x, upTo) + [row] + rows == RowsOf(turns[..i], x, upTo) + ([row] + rows);
        rows := [row] + rows;
      } else {
        assert RowsOf(turns[..i], x, upTo) + [] == RowsOf(turns[..i], x, upTo);
      }
    }
    if i == 0 {
      NoRows(turns[..0], x, upTo);
      assert [] + rows == rows;
    }
  }

  lemma NoRows(turns: seq<Turn>, x: SessionId, upTo: Option<nat>)
    requires turns == []
    ensures RowsOf(turns, x, upTo) == []
  {
  }

  /** The climb, pushing what it meets, and the whole reversed at the end. */
  method ConversationLineage(f: Forest, x: SessionId) returns (r: Result<seq<SessionId>, ViewError>)
    ensures r == LineageWalk(f, Some(x), {}, 0)
  {
    hide LineageWalk;
    var lineage: seq<SessionId> := [];
    var seen: set<SessionId> := {};
    var cursor := Some(x);
    JoinStart(LineageWalk(f, Some(x), {}, 0));
    while cursor.Some?
      invariant |lineage| <= MAX_TREE_BRANCHES
      invariant LineageWalk(f, Some(x), {}, 0) == Join(LineageWalk(f, cursor, seen, |lineage|), Reverse(lineage))
      decreases MAX_TREE_BRANCHES - |lineage|, if cursor.Some? then 1 else 0
    {
      WalkStep(f, cursor.value, seen, |lineage|);
      if cursor.value in seen || |lineage| >= MAX_TREE_BRANCHES {
        return Err(LineageInvalid);
      }
      seen := seen + {cursor.value};
      if cursor.value !in f || f[cursor.value].archived {
        return Err(ConversationNotFound);
      }
      var row := f[cursor.value];
      JoinStep(LineageWalk(f, ParentOf(row), seen, |lineage| + 1), cursor.value, Reverse(lineage));
      ReverseSnoc(lineage, cursor.value);
      lineage := lineage + [cursor.value];
      cursor := ParentOf(row);
    }
    WalkEnd(f, seen, |lineage|);
    JoinEnd(Reverse(lineage));
    return Ok(Reverse(lineage));
  }

  lemma WalkStep(f: Forest, x: SessionId, seen: set<SessionId>, n: nat)
    ensures LineageWalk(f, Some(x), seen, n) ==
            if x in seen || n >= MAX_TREE_BRANCHES then Err(LineageInvalid)
            else if x !in f || f[x].archived then Err(ConversationNotFound)
            else match LineageWalk(f, ParentOf(f[x]), seen + {x}, n + 1)
                 case Ok(above) => Ok(above + [x])
                 case Err(e) => Err(e)
  {
  }

  lemma WalkEnd(f: Forest, seen: set<SessionId>, n: nat)
    ensures LineageWalk(f, None, seen, n) == Ok([])
  {
  }

  /** The last 200 turns of a conversation's whole lineage, or why they cannot be had. */
  ghost function LastTurns(f: Forest, x: SessionId): Result<seq<HistoryRow>, HistoryError> {
    match LineageWalk(f, Some(x), {}, 0)
    case Err(e) => Err(LineageFailed(e))
    case Ok(ids) =>
      match History(f, ids, |ids|, None)
      case Err(e) => Err(e)
      case Ok(full) => Ok(Last(MAX_CONVERSATION_TURNS, full))
  }

  /** The whole history of the lineage is longer than what is kept of it. */
  ghost predicate Overlong(f: Forest, x: SessionId) {
    match LineageWalk(f, Some(x), {}, 0)
    case Err(_) => false
    case Ok(ids) =>
      match History(f, ids, |ids|, None)
      case Err(_) => false
      case Ok(full) => |full| > MAX_CONVERSATION_TURNS
  }

  /** The history query: the climb, one bounded fetch per lineage session, then the last 200. */
  method GetHistory(f: Forest, x: SessionId) returns (r: Result<seq<HistoryRow>, HistoryError>, truncated: bool)
    ensures r == LastTurns(f, x) && truncated == Overlong(f, x)
  {
    hide Last, RowsOf, ForkPosition, LineageWalk;
    if x !in f || f[x].archived {
      WalkStep(f, x, {}, 0);
      return Err(LineageFailed(ConversationNotFound)), false;
    }
    var lineage := ConversationLineage(f, x);
    if lineage.Err? {
      return Err(LineageFailed(lineage.error)), false;
    }
    var ids := lineage.value;
    WindowKeeps(f, ids, |ids|, MAX_CONVERSATION_TURNS);
    var rows: seq<HistoryRow> := [];
    for i := 0 to |ids|
      invariant History(f, ids, i, Some(MAX_CONVERSATION_TURNS + 1)) == Ok(rows)
    {
      var upTo := ForkPosition(f, ids, i);
      if upTo.Err? {
        HistoryStops(f, ids, i + 1, |ids|, Some(MAX_CONVERSATION_TURNS + 1));
        return Err(upTo.error), false;
      }
      var newest := NewestRows(f[ids[i]].turns, ids[i], upTo.value, MAX_CONVERSATION_TURNS + 1);
      rows := rows + newest;
    }
    truncated := |rows| > MAX_CONVERSATION_TURNS;
    r := Ok(Last(MAX_CONVERSATION_TURNS, rows));
  }

  lemma {:induction false} HistoryStops(f: Forest, ids: seq<SessionId>, i: nat, n: nat, limit: Option<nat>)
    requires i <= n <= |ids| && forall j :: 0 <= j < |ids| ==> ids[j] in f
    requires History(f, ids, i, limit).Err?
    ensures History(f, ids, n, limit) == History(f, ids, i, limit)
  {
    if i < n {
      HistoryStops(f, ids, i, n - 1, limit);
    }
    hide ForkPosition, RowsOf, Last;
  }

  // ------------------------------------------------------------------ reachable forests

  /** In a good forest the fork turn of every session of a lineage is still in its parent's mailbox. */
  lemma {:induction false} HistoryAlwaysLoads(f: Forest, ids: seq<SessionId>, n: nat)
    requires Inv(f) && IsLineage(f, ids) && n <= |ids|
    ensures History(f, ids, n, None).Ok?
  {
    if n > 0 {
      HistoryAlwaysLoads(f, ids, n - 1);
      if n < |ids| {
        assert LinkOk(f, ids[n]);
      }
    }
    hide RowsOf, Inv, SessionOk;
  }

  /**
   In every reachable forest the history of a live conversation loads if and only if its lineage has
   at most 100 sessions, restored or not, and is then the last 200 turns of that lineage; a longer
   lineage is refused.
   */
  lemma ReachableHistory(steps: seq<Step>, x: SessionId)
    requires x in Run(steps) && !Run(steps)[x].archived
    ensures var f := Run(steps);
            var ids := Lineage(f, x);
            && IsLineage(f, ids) && History(f, ids, |ids|, None).Ok?
            && LastTurns(f, x) == if |ids| <= 100
                                  then Ok(Last(200, History(f, ids, |ids|, None).value))
                                  else Err(LineageFailed(LineageInvalid))
  {
    RunGood(steps);
    var f := Run(steps);
    hide Run, Last, History, Closed, Anchored, AnchoredRestores, LineageWalk;
    LineageLinks(f, x);
    LineageFound(f, x);
    HistoryAlwaysLoads(f, Lineage(f, x), |Lineage(f, x)|);
  }
}
