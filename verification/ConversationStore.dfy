/**
 The transactions on conversations, step by step over the sessions table: fork, prune, archive
 and the focused tree. Each is proved to be the forest step of the same name.
 */
module ConversationStore {
  import opened Common
  import opened Branches
  import opened MappedEntries
  import opened Sessions
  import opened Forest
  import opened FocusView
  import K = ForkCopy
  import SM = StateMachines

  datatype PruneReceipt = PruneReceipt(anchorTurn: TurnId, anchorEntry: EntryId, prunedTurns: nat, archivedSessions: nat)

  /** How many turns a prune after `position` newly marks. */
  function NewlyPruned(turns: seq<Turn>, position: nat): nat {
    if turns == [] then 0
    else
      var n := |turns| - 1;
      NewlyPruned(turns[..n], position) + if turns[n].position > position && !turns[n].pruned then 1 else 0
  }

  /** The labels a session has in store. */
  function LabelNames(stored: map<SessionId, K.StoredSession>, x: SessionId): map<EntryId, K.Label> {
    if x in stored then map t | t in stored[x].labels :: stored[x].labels[t].name else map[]
  }

  /** The stored rows of a fork: exactly its copied path and that path's labels, numbered without gap. */
  ghost predicate StoredCopy(row: K.StoredSession, path: seq<Entry>, labels: map<EntryId, K.Label>) {
    && K.Filled(row) && K.LabelsLogged(row) && row.refs == K.RefsOf(path) && K.LabelsCopied(row, path, labels, |path|)
    && row.next == |path| + 3 + |row.labels|
  }

  class ConversationStore {
    var sessions: Forest
    /** The session store's rows, of the sessions it has any of. */
    var stored: map<SessionId, K.StoredSession>

    ghost predicate Valid()
      reads this
    {
      Good(sessions)
    }

    constructor ()
      ensures Valid() && sessions == map[] && stored == map[]
    {
      sessions, stored := map[], map[];
      new;
      EmptyGood();
    }

    method Fork(source: SessionId, turn: TurnId, entry: EntryId, child: SessionId, quotaReached: bool)
      returns (r: Result<SessionId, StoreError>)
      requires Valid() && child !in sessions
      modifies this
      ensures Valid()
      ensures sessions == Commit(old(sessions), ForkTree(old(sessions), source, turn, entry, child, quotaReached))
      ensures ForkTree(old(sessions), source, turn, entry, child, quotaReached).Ok? ==> r == Ok(child)
      ensures ForkTree(old(sessions), source, turn, entry, child, quotaReached).Err? ==>
                r == Err(ForkTree(old(sessions), source, turn, entry, child, quotaReached).error)
      ensures r.Err? ==> stored == old(stored)
      ensures r.Ok? ==>
                && child in sessions && child in stored && stored == old(stored)[child := stored[child]]
                && stored[child].leaf == entry
                && StoredCopy(stored[child], Branch(sessions[child]), LabelNames(old(stored), source))
    {
      hide Good, ActiveBranch, OwnBranch, Mapped, FindTarget, FindEntry, Extend, CompletedTurns, StoredCopy,
        K.DistinctIds, Branch, LabelNames;
      ApplyGood(sessions, ForkStep(source, turn, entry, child, quotaReached));
      if source !in sessions || sessions[source].archived {
        return Err(NotFound);
      }
      var s := sessions[source];
      if !Quiet(s) || Unsettled(s.turns, false) {
        return Err(Conflict);
      }
      if quotaReached {
        return Err(QuotaExceeded);
      }
      if s.leaf.None? {
        return Err(Conflict);
      }
      var branch := ComputeActiveBranch(s.entries, s.leaf);
      if branch.Err? {
        return Err(Misconfigured);
      }
      var own := OwnBranch(branch.value, ForkEntry(s));
      if own.Err? {
        return Err(Misconfigured);
      }
      var mapped := ComputeMappedEntries(own.value, CompletedTurns(s.turns));
      var target := FindTarget(mapped, turn, entry);
      var targetIndex := FindEntry(branch.value, entry);
      if target.None? || targetIndex.None? {
        return Err(InvalidRequest);
      }
      var copiedBranch := branch.value[..targetIndex.value + 1];
      ForkedPath(sessions, source, turn, entry, branch.value);
      WriteCopy(source, child, copiedBranch);
      var refs := CopyEntries(copiedBranch);
      sessions := sessions[child := Session(|sessions|, Some(ForkPoint(source, turn, entry)), false,
                                            SM.SessionState.Cold, refs, Some(entry), [])];
      return Ok(child);
    }

    /** The rows of the child: its path's entries, the lane, the name and the labels. */
    method WriteCopy(source: SessionId, child: SessionId, path: seq<Entry>)
      requires path != [] && K.DistinctIds(path)
      modifies this`stored
      ensures child in stored && stored == old(stored)[child := stored[child]]
      ensures stored[child].leaf == path[|path| - 1].id
      ensures StoredCopy(stored[child], path, LabelNames(old(stored), source))
    {
      hide K.Filled, K.LabelsLogged, K.LabelsCopied, K.RefsOf, K.DistinctIds, LabelNames;
      var copied := K.CopySession(path, LabelNames(stored, source));
      stored := stored[child := copied];
    }

    method CopyEntries(branch: seq<Entry>) returns (refs: EntryTable)
      ensures refs == Extend(map[], branch)
    {
      refs := map[];
      for i := 0 to |branch|
        invariant refs == Extend(map[], branch[..i])
      {
        ExtendStep(map[], branch, i);
        refs := refs[branch[i].id := branch[i]];
      }
      assert branch[..|branch|] == branch;
    }

    /** The worklist of the recursive query: add the live children of the rows found last, until there are none. */
    method CollectLiveDescendants(seeds: set<SessionId>) returns (found: set<SessionId>)
      requires Valid() && forall x :: x in seeds ==> x in sessions && !sessions[x].archived
      ensures found == LiveClosure(sessions, seeds)
    {
      hide SessionOk, Closed;
      found := seeds;
      var frontier := seeds;
      while frontier != {}
        invariant frontier <= found <= LiveClosure(sessions, seeds) && seeds <= found
        invariant forall x, p :: p in found - frontier && x in LiveChildren(sessions, p) ==> x in found
        decreases LiveClosure(sessions, seeds) - found, |frontier|
      {
        var next := set x | x in sessions && sessions[x].fork.Some? && !sessions[x].archived &&
                            sessions[x].fork.value.parent in frontier && x !in found;
        forall x | x in next
          ensures x in LiveClosure(sessions, seeds)
        {
          LiveClosureTakesChildren(sessions, seeds, x);
        }
        found := found + next;
        frontier := next;
      }
      forall x | x in LiveClosure(sessions, seeds)
        ensures x in found
      {
        ClosureReached(sessions, seeds, found, x);
      }
    }

    method ArchiveRows(ids: set<SessionId>)
      modifies this`sessions
      ensures sessions == ArchiveAll(old(sessions), ids)
    {
      var remaining := ids;
      while remaining != {}
        invariant remaining <= ids
        invariant sessions == ArchiveAll(old(sessions), ids - remaining)
      {
        var id :| id in remaining;
        if id in sessions {
          sessions := sessions[id := sessions[id].(archived := true)];
        }
        remaining := remaining - {id};
      }
      assert ids - remaining == ids;
    }

    method AnyBusy(ids: set<SessionId>) returns (busy: bool)
      ensures busy == Busy(sessions, ids)
    {
      var remaining := ids;
      busy := false;
      while remaining != {} && !busy
        invariant remaining <= ids
        invariant busy ==> Busy(sessions, ids)
        invariant !busy ==> !Busy(sessions, ids - remaining)
        decreases |remaining|
      {
        var id :| id in remaining;
        remaining := remaining - {id};
        busy := id in sessions && (!Quiet(sessions[id]) || Unsettled(sessions[id].turns, true));
      }
      if !busy {
        assert ids - remaining == ids;
      }
    }

    method Prune(x: SessionId, turn: TurnId, entry: EntryId, delegatedActive: bool)
      returns (r: Result<PruneReceipt, StoreError>)
      requires Valid()
      modifies this
      ensures Valid()
      ensures sessions == Commit(old(sessions), PruneTree(old(sessions), x, turn, entry, delegatedActive))
      ensures PruneTree(old(sessions), x, turn, entry, delegatedActive).Err? ==>
                r == Err(PruneTree(old(sessions), x, turn, entry, delegatedActive).error)
      ensures PruneTree(old(sessions), x, turn, entry, delegatedActive).Ok? ==>
                var before := old(sessions)[x];
                Lookup(before.turns, turn).Some? &&
                var position := before.turns[Lookup(before.turns, turn).value].position;
                r == Ok(PruneReceipt(turn, entry, NewlyPruned(before.turns, position),
                                     |LiveClosure(old(sessions), ForkedFrom(old(sessions), x, position))|))
      ensures r.Err? || x !in old(stored) ==> stored == old(stored)
      ensures r.Ok? && x in old(stored) ==>
                && x in stored && stored == old(stored)[x := stored[x]] && stored[x].leaf == entry
                && (K.Filled(old(stored)[x]) ==> K.Filled(stored[x]))
    {
      hide Good, ActiveBranch, OwnBranch, Mapped, FindTarget, Lookup, CompletedTurns, LiveClosure, Busy, ForkedFrom,
        Unsettled, NewlyPruned, PruneTurns, K.Filled;
      ApplyGood(sessions, PruneStep(x, turn, entry, delegatedActive));
      if x !in sessions || sessions[x].archived {
        return Err(NotFound);
      }
      var s := sessions[x];
      if !Quiet(s) || Unsettled(s.turns, true) {
        return Err(Conflict);
      }
      var branch := ComputeActiveBranch(s.entries, s.leaf);
      if branch.Err? {
        return Err(Misconfigured);
      }
      var own := OwnBranch(branch.value, ForkEntry(s));
      if own.Err? {
        return Err(Misconfigured);
      }
      var mapped := ComputeMappedEntries(own.value, CompletedTurns(s.turns));
      if FindTarget(mapped, turn, entry).None? {
        return Err(InvalidRequest);
      }
      var anchor := Lookup(s.turns, turn);
      if anchor.None? {
        return Err(Misconfigured);
      }
      var position := s.turns[anchor.value].position;
      var seeds := ForkedFrom(sessions, x, position);
      SeedsLive(sessions, x, position);
      var below := CollectLiveDescendants(seeds);
      var busy := AnyBusy(below);
      if busy || delegatedActive {
        return Err(Conflict);
      }
      var turns, count := MarkPruned(s.turns, position);
      ArchiveRows(below);
      sessions := sessions[x := sessions[x].(turns := turns, leaf := Some(entry), state := SM.SessionState.Idle)];
      if x in stored {
        var moved := K.MoveLane(stored[x], entry);
        stored := stored[x := moved];
      }
      return Ok(PruneReceipt(turn, entry, count, |below|));
    }

    method MarkPruned(turns: seq<Turn>, position: nat) returns (marked: seq<Turn>, count: nat)
      ensures marked == PruneTurns(turns, position)
      ensures count == NewlyPruned(turns, position)
    {
      marked, count := [], 0;
      for i := 0 to |turns|
        invariant marked == PruneTurns(turns[..i], position)
        invariant count == NewlyPruned(turns[..i], position)
      {
        assert turns[..i + 1][..i] == turns[..i];
        if turns[i].position > position {
          if !turns[i].pruned {
            count := count + 1;
          }
          marked := marked + [turns[i].(pruned := true)];
        } else {
          marked := marked + [turns[i]];
        }
      }
      assert turns[..|turns|] == turns;
    }

    method SetArchived(x: SessionId, archived: bool, delegatedActive: bool, workspaceTaken: bool)
      returns (r: Result<set<SessionId>, StoreError>)
      requires Valid()
      modifies this`sessions
      ensures Valid()
      ensures archived ==> sessions == Commit(old(sessions), Archive(old(sessions), x, delegatedActive))
      ensures !archived ==> sessions == Commit(old(sessions), Unarchive(old(sessions), x, workspaceTaken))
      ensures archived ==> (r.Ok? <==> Archive(old(sessions), x, delegatedActive).Ok?)
      ensures archived && r.Err? ==> r.error == Archive(old(sessions), x, delegatedActive).error
      ensures !archived ==> (r.Ok? <==> Unarchive(old(sessions), x, workspaceTaken).Ok?)
      ensures !archived && r.Err? ==> r.error == Unarchive(old(sessions), x, workspaceTaken).error
      ensures r.Ok? ==> forall y :: y in old(sessions) && y !in r.value ==> sessions[y] == old(sessions)[y]
    {
      hide Good, LiveClosure, Busy, LiveChildren, Unsettled;
      ApplyGood(sessions, ArchiveStep(x, delegatedActive));
      ApplyGood(sessions, UnarchiveStep(x, workspaceTaken));
      if x !in sessions {
        return Err(NotFound);
      }
      var s := sessions[x];
      if !Quiet(s) || s.archived == archived || Unsettled(s.turns, false) {
        return Err(Conflict);
      }
      if archived {
        ChildrenLive(sessions, x);
        var below := CollectLiveDescendants(LiveChildren(sessions, x));
        var busy := AnyBusy(below);
        if busy || delegatedActive {
          return Err(Conflict);
        }
        ArchiveRows({x} + below);
        return Ok({x} + below);
      }
      if s.fork.Some? {
        if s.fork.value.parent !in sessions {
          return Err(NotFound);
        }
        if sessions[s.fork.value.parent].archived {
          return Err(Conflict);
        }
      }
      if workspaceTaken {
        return Err(Conflict);
      }
      sessions := sessions[x := s.(archived := false)];
      return Ok({x});
    }

    /** The climb of the tree request: collect from the session upwards, then reverse. */
    method FindLineage(x: SessionId) returns (r: Result<seq<SessionId>, ViewError>)
      ensures r == LineageWalk(sessions, Some(x), {}, 0)
    {
      var result: seq<SessionId> := [];
      var seen: set<SessionId> := {};
      var cursor := Some(x);
      JoinStart(LineageWalk(sessions, Some(x), {}, 0));
      while cursor.Some?
        invariant |result| <= MAX_TREE_BRANCHES
        invariant LineageWalk(sessions, Some(x), {}, 0) == Join(LineageWalk(sessions, cursor, seen, |result|), result)
        decreases MAX_TREE_BRANCHES - |result|, if cursor.Some? then 1 else 0
      {
        if cursor.value in seen || |result| >= MAX_TREE_BRANCHES {
          return Err(LineageInvalid);
        }
        if cursor.value !in sessions || sessions[cursor.value].archived {
          return Err(ConversationNotFound);
        }
        var row := sessions[cursor.value];
        JoinStep(LineageWalk(sessions, ParentOf(row), seen + {cursor.value}, |result| + 1), cursor.value, result);
        seen := seen + {cursor.value};
        result := [cursor.value] + result;
        cursor := ParentOf(row);
      }
      JoinEnd(result);
      return Ok(result);
    }

    /** The focused tree: one segment for each session of the lineage. */
    method FocusedTree(x: SessionId) returns (r: Result<seq<seq<MappedEntry>>, ViewError>)
      requires Valid()
      ensures r == FocusView.FocusedTree(sessions, x)
    {
      hide LineageWalk, Segment, Good;
      var lineage := FindLineage(x);
      if lineage.Err? {
        return Err(lineage.error);
      }
      var ids := lineage.value;
      var segments: seq<seq<MappedEntry>> := [];
      var entryCount := 0;
      for i := 0 to |ids|
        invariant Focus(sessions, ids, i) == Ok(segments) && entryCount == Count(segments)
      {
        var segment := ShowSegment(sessions[ids[i]], ids[i], Next(sessions, ids, i));
        if segment.Err? {
          FocusFails(sessions, ids, i + 1, |ids|);
          return Err(segment.error);
        }
        entryCount := entryCount + |segment.value|;
        if entryCount > MAX_TREE_ENTRIES {
          FocusFails(sessions, ids, i + 1, |ids|);
          return Err(TooLarge);
        }
        assert (segments + [segment.value])[..|segments|] == segments;
        segments := segments + [segment.value];
      }
      return Ok(segments);
    }

    method ShowSegment(s: Session, x: SessionId, next: Option<Session>) returns (r: Result<seq<MappedEntry>, ViewError>)
      ensures r == Segment(s, x, next)
    {
      hide ActiveBranch, OwnBranch, Mapped, FindMapped;
      var branch := ComputeActiveBranch(s.entries, s.leaf);
      if branch.Err? {
        return Err(SessionCorrupt);
      }
      var own := OwnBranch(branch.value, ForkEntry(s));
      if own.Err? {
        return Err(SessionCorrupt);
      }
      var mapped := ComputeMappedEntries(own.value, CompletedTurns(s.turns));
      if next.Some? && next.value.fork.Some? && next.value.fork.value.parent == x {
        var boundary := FindMapped(mapped, next.value.fork.value.entry);
        if boundary.None? {
          return Err(AnchorMissing);
        }
        return Ok(mapped[..boundary.value + 1]);
      }
      return Ok(mapped);
    }
  }

  lemma ExtendStep(rows: EntryTable, b: seq<Entry>, i: nat)
    requires i < |b|
    ensures Extend(rows, b[..i + 1]) == Extend(rows, b[..i])[b[i].id := b[i]]
  {
    assert b[..i + 1][..i] == b[..i];
  }

  lemma {:induction false} ClosureReached(f: Forest, seeds: set<SessionId>, found: set<SessionId>, x: SessionId)
    requires x in LiveClosure(f, seeds) && seeds <= found
    requires forall y, p :: p in found && y in LiveChildren(f, p) ==> y in found
    ensures x in found
    decreases f[x].serial
  {
    if x !in seeds {
      var p := f[x].fork.value.parent;
      ClosureReached(f, seeds, found, p);
      assert x in LiveChildren(f, p);
    }
  }

  lemma SeedsLive(f: Forest, x: SessionId, position: nat)
    requires x in f
    ensures forall y :: y in ForkedFrom(f, x, position) ==> y in f && !f[y].archived
  {
    hide Lookup;
  }

  lemma ChildrenLive(f: Forest, x: SessionId)
    ensures forall y :: y in LiveChildren(f, x) ==> y in f && !f[y].archived
  {
  }

  /** The path that a fork copies repeats no entry, ends in the fork entry and is the child's whole branch. */
  lemma ForkedPath(f: Forest, source: SessionId, t: TurnId, e: EntryId, b: seq<Entry>)
    requires Good(f) && source in f && ActiveBranch(f[source].entries, f[source].leaf) == Ok(b) && FindEntry(b, e).Some?
    ensures var path := b[..FindEntry(b, e).value + 1];
            && K.DistinctIds(path) && path != [] && path[|path| - 1].id == e
            && Branch(ForkedSession(|f|, ForkPoint(source, t, e), path)) == path
  {
    var s := f[source];
    assert SessionOk(s);
    hide Good, ActiveBranch, OwnOf, FindEntry, Extend;
    ForkCopiesPath(s, |f|, ForkPoint(source, t, e));
    PathDistinct(s, FindEntry(b, e).value);
  }

  lemma PathDistinct(s: Session, i: nat)
    requires SessionOk(s) && i < |Branch(s)|
    ensures K.DistinctIds(Branch(s)[..i + 1])
  {
    var b := Branch(s);
    var path := b[..i + 1];
    hide ActiveBranch, OwnOf;
    ActiveBranchIsTheBranch(s.entries, s.leaf, b);
    forall m, n | 0 <= m < n < |path|
      ensures path[m].id != path[n].id
    {
      BranchIdsDistinct(s.entries, s.leaf, b, m, n);
    }
  }

  // ------------------------------------------------------------------ what the receipt counts

  /** The turns that a prune after `position` marks and that were not marked before. */
  ghost function MarkedNow(turns: seq<Turn>, position: nat): set<nat> {
    set i: nat | i < |turns| && !turns[i].pruned && PruneTurns(turns, position)[i].pruned
  }

  /** The receipt counts exactly the turns that the prune marks and that were not marked before. */
  lemma {:induction false} ReceiptCounts(turns: seq<Turn>, position: nat)
    ensures NewlyPruned(turns, position) == |MarkedNow(turns, position)|
  {
    if turns != [] {
      var n := |turns| - 1;
      ReceiptCounts(turns[..n], position);
      var now := turns[n].position > position && !turns[n].pruned;
      assert MarkedNow(turns, position) == MarkedNow(turns[..n], position) + if now then {n} else {};
    }
  }

  /** A fork looks at exactly the labels its source has in store. */
  lemma SourceLabels(stored: map<SessionId, K.StoredSession>, x: SessionId, t: EntryId)
    ensures t in LabelNames(stored, x) <==> x in stored && t in stored[x].labels
    ensures t in LabelNames(stored, x) ==> LabelNames(stored, x)[t] == stored[x].labels[t].name
  {
  }
}
