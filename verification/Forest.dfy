/**
 The forest of conversations: sessions linked by forks, and every step that forks, prunes,
 archives, restores or extends them.
 */
module Forest {
  import opened Common
  import opened Branches
  import opened MappedEntries
  import opened Sessions
  import SM = StateMachines

  type Forest = map<SessionId, Session>

  datatype StoreError = NotFound | Conflict | QuotaExceeded | InvalidRequest | Misconfigured

  // ------------------------------------------------------------------ descendants

  /** `x` is live and is in `seeds` or hangs below one through live sessions only. */
  predicate LiveBelow(f: Forest, seeds: set<SessionId>, x: SessionId)
    decreases if x in f then f[x].serial else 0
  {
    && x in f && !f[x].archived
    && (x in seeds ||
        (f[x].fork.Some? &&
         var p := f[x].fork.value.parent;
         p in f && f[p].serial < f[x].serial && LiveBelow(f, seeds, p)))
  }

  function LiveClosure(f: Forest, seeds: set<SessionId>): set<SessionId> {
    set x | x in f && LiveBelow(f, seeds, x)
  }

  predicate ChildOf(f: Forest, x: SessionId, p: SessionId) {
    x in f && f[x].fork.Some? && f[x].fork.value.parent == p
  }

  /** Live sessions forked from `p` at the turn at `position` or at a later one. */
  function ForkedFrom(f: Forest, p: SessionId, position: nat): set<SessionId>
    requires p in f
  {
    set x | x in f && ChildOf(f, x, p) && !f[x].archived &&
            Lookup(f[p].turns, f[x].fork.value.turn).Some? &&
            f[p].turns[Lookup(f[p].turns, f[x].fork.value.turn).value].position >= position
  }

  function LiveChildren(f: Forest, p: SessionId): set<SessionId> {
    set x | x in f && ChildOf(f, x, p) && !f[x].archived
  }

  function ArchiveAll(f: Forest, xs: set<SessionId>): Forest {
    map x | x in f :: if x in xs then f[x].(archived := true) else f[x]
  }

  predicate Busy(f: Forest, xs: set<SessionId>) {
    exists x :: x in xs && x in f && (!Quiet(f[x]) || Unsettled(f[x].turns, true))
  }

  // ------------------------------------------------------------------ steps

  /** A forked session: the copied path, its last entry as leaf, no turns of its own. */
  function ForkedSession(serial: nat, fork: ForkPoint, path: seq<Entry>): Session {
    Session(serial, Some(fork), false, SM.SessionState.Cold, Extend(map[], path), Some(fork.entry), [])
  }

  function ForkTree(f: Forest, source: SessionId, t: TurnId, e: EntryId, child: SessionId, quotaReached: bool)
    : Result<Forest, StoreError>
  {
    if source !in f || f[source].archived then Err(NotFound)
    else if !Quiet(f[source]) || Unsettled(f[source].turns, false) then Err(Conflict)
    else if quotaReached then Err(QuotaExceeded)
    else if f[source].leaf.None? then Err(Conflict)
    else
      var s := f[source];
      var branch, view := ActiveBranch(s.entries, s.leaf), ViewOf(s);
      if branch.Err? || view.Err? then Err(Misconfigured)
      else if FindTarget(view.value, t, e).None? || FindEntry(branch.value, e).None? then Err(InvalidRequest)
      else
        var path := branch.value[..FindEntry(branch.value, e).value + 1];
        Ok(f[child := ForkedSession(|f|, ForkPoint(source, t, e), path)])
  }

  function PruneTree(f: Forest, x: SessionId, t: TurnId, e: EntryId, delegatedActive: bool)
    : Result<Forest, StoreError>
  {
    if x !in f || f[x].archived then Err(NotFound)
    else if !Quiet(f[x]) || Unsettled(f[x].turns, true) then Err(Conflict)
    else
      var s := f[x];
      var view := ViewOf(s);
      if view.Err? then Err(Misconfigured)
      else if FindTarget(view.value, t, e).None? then Err(InvalidRequest)
      else if Lookup(s.turns, t).None? then Err(Misconfigured)
      else
        var position := s.turns[Lookup(s.turns, t).value].position;
        var below := LiveClosure(f, ForkedFrom(f, x, position));
        if Busy(f, below) || delegatedActive then Err(Conflict)
        else Ok(ArchiveAll(f, below)[x := Prune(ArchiveAll(f, below)[x], e, position)])
  }

  function Archive(f: Forest, x: SessionId, delegatedActive: bool): Result<Forest, StoreError> {
    if x !in f then Err(NotFound)
    else if !Quiet(f[x]) || f[x].archived || Unsettled(f[x].turns, false) then Err(Conflict)
    else
      var below := LiveClosure(f, LiveChildren(f, x));
      if Busy(f, below) || delegatedActive then Err(Conflict)
      else Ok(ArchiveAll(f, {x} + below))
  }

  function Unarchive(f: Forest, x: SessionId, workspaceTaken: bool): Result<Forest, StoreError> {
    if x !in f then Err(NotFound)
    else if !Quiet(f[x]) || !f[x].archived || Unsettled(f[x].turns, false) then Err(Conflict)
    else if f[x].fork.Some? && f[x].fork.value.parent !in f then Err(NotFound)
    else if f[x].fork.Some? && f[f[x].fork.value.parent].archived then Err(Conflict)
    else if workspaceTaken then Err(Conflict)
    else Ok(f[x := f[x].(archived := false)])
  }

  /** One transaction on the forest; the last four are the environment's. */
  datatype Step =
    | ForkStep(source: SessionId, turn: TurnId, entry: EntryId, child: SessionId, quotaReached: bool)
    | PruneStep(session: SessionId, turn: TurnId, entry: EntryId, delegatedActive: bool)
    | ArchiveStep(session: SessionId, delegatedActive: bool)
    | UnarchiveStep(session: SessionId, workspaceTaken: bool)
    | CreateStep(session: SessionId)
    | AdmitStep(session: SessionId, turn: TurnId, position: nat)
    | AdvanceStep(session: SessionId, state: SM.SessionState, index: nat, turnState: SM.TurnState)
    | SettleStep(session: SessionId, index: nat, outcome: SM.TurnState, ext: seq<Entry>)

  /** A new turn goes to the end of the mailbox under a fresh identifier. */
  predicate CanAdmit(s: Session, t: TurnId, position: nat) {
    Lookup(s.turns, t).None? && forall i :: 0 <= i < |s.turns| ==> s.turns[i].position < position
  }

  predicate CanAdvance(s: Session, i: nat, state: SM.TurnState) {
    i < |s.turns| && !SM.TerminalTurn(s.turns[i].state) && !SM.TerminalTurn(state)
  }

  function Commit(f: Forest, r: Result<Forest, StoreError>): Forest {
    match r
    case Ok(f') => f'
    case Err(_) => f
  }

  function Apply(f: Forest, step: Step): Forest {
    match step
    case ForkStep(source, t, e, child, quota) => if child in f then f else Commit(f, ForkTree(f, source, t, e, child, quota))
    case PruneStep(x, t, e, active) => Commit(f, PruneTree(f, x, t, e, active))
    case ArchiveStep(x, active) => Commit(f, Archive(f, x, active))
    case UnarchiveStep(x, taken) => Commit(f, Unarchive(f, x, taken))
    case CreateStep(x) =>
      if x in f then f else f[x := Session(|f|, None, false, SM.SessionState.Cold, map[], None, [])]
    case AdmitStep(x, t, position) =>
      if x in f && CanAdmit(f[x], t, position)
      then f[x := f[x].(turns := f[x].turns + [Turn(t, position, SM.TurnState.Queued, false)])] else f
    case AdvanceStep(x, state, i, turnState) =>
      if x in f && CanAdvance(f[x], i, turnState)
      then f[x := f[x].(state := state, turns := f[x].turns[i := f[x].turns[i].(state := turnState)])] else f
    case SettleStep(x, i, outcome, ext) =>
      if x in f && CanSettle(f[x], i, outcome, ext) then f[x := Settle(f[x], i, outcome, ext)] else f
  }

  function Run(steps: seq<Step>): Forest {
    if steps == [] then map[] else Apply(Run(steps[..|steps| - 1]), steps[|steps| - 1])
  }

  // ------------------------------------------------------------------ invariants

  /** The parent of a fork is older, still has the turn, and the anchor unless that turn was pruned. */
  ghost predicate LinkOk(f: Forest, x: SessionId)
    requires x in f
  {
    f[x].fork.Some? ==>
      var k := f[x].fork.value;
      && k.parent in f && f[k.parent].serial < f[x].serial
      && CompletedTurn(f[k.parent], k.turn) && k.entry in f[k.parent].entries
      && (PrunedTurn(f[k.parent], k.turn) ==> OffBranch(f[k.parent], k.entry))
      && (!PrunedTurn(f[k.parent], k.turn) ==>
            AnchorOf(f[k.parent], k.turn, k.entry) &&
            PrefixTo(Branch(f[x]), k.entry) == PrefixTo(Branch(f[k.parent]), k.entry))
  }

  ghost predicate Inv(f: Forest) {
    forall x :: x in f ==> SessionOk(f[x]) && f[x].serial < |f| && LinkOk(f, x)
  }

  /** Every live conversation has a live parent. */
  ghost predicate Closed(f: Forest) {
    forall x :: x in f && !f[x].archived && f[x].fork.Some? ==>
      f[x].fork.value.parent in f && !f[f[x].fork.value.parent].archived
  }

  /** The turn that `x` was forked at is not pruned in its parent. */
  ghost predicate ForkTurnKept(f: Forest, x: SessionId)
    requires x in f
  {
    f[x].fork.Some? ==>
      f[x].fork.value.parent in f && !PrunedTurn(f[f[x].fork.value.parent], f[x].fork.value.turn)
  }

  /** No live conversation hangs from a pruned turn. */
  ghost predicate Anchored(f: Forest) {
    forall x :: x in f && !f[x].archived ==> ForkTurnKept(f, x)
  }

  /** A fork's anchor is a final message of its parent's view exactly as long as its turn is not pruned. */
  lemma AnchorIffUnpruned(f: Forest, x: SessionId)
    requires Inv(f) && x in f && f[x].fork.Some?
    ensures f[x].fork.value.parent in f
    ensures AnchorOf(f[f[x].fork.value.parent], f[x].fork.value.turn, f[x].fork.value.entry) <==>
            !PrunedTurn(f[f[x].fork.value.parent], f[x].fork.value.turn)
  {
    hide FinalIndices, CompletedTurns, Lookup, FindEntry, ActiveBranch, IsAnchor, OwnOf;
    assert LinkOk(f, x);
    var k := f[x].fork.value;
    if AnchorOf(f[k.parent], k.turn, k.entry) {
      AnchorUnpruned(f[k.parent], k.turn, k.entry);
    }
  }

  /** A step on one session that keeps its anchors keeps the invariant of the forest. */
  lemma UpdateInv(f: Forest, x: SessionId, s: Session)
    requires Inv(f) && x in f && SessionOk(s) && KeepsAnchors(f[x], s)
    ensures Inv(f[x := s])
  {
    hide SessionOk, AnchorOf, CompletedTurn, PrunedTurn, PrefixTo, Branch, OffBranch;
    var f' := f[x := s];
    assert f'.Keys == f.Keys;
    assert |f'| == |f'.Keys| == |f|;
    forall y | y in f'
      ensures SessionOk(f'[y]) && f'[y].serial < |f'| && LinkOk(f', y)
    {
      assert LinkOk(f, y);
    }
  }

  /** Nothing in the invariant depends on which sessions are archived. */
  lemma ArchiveFlagsInv(f: Forest, f': Forest)
    requires Inv(f) && f'.Keys == f.Keys
    requires forall x :: x in f ==> f'[x] == f[x].(archived := f'[x].archived)
    ensures Inv(f')
  {
    hide KeepsAnchors, ActiveBranch, TurnsOk, WellKeyed, OwnOf;
    assert |f'| == |f'.Keys| == |f.Keys| == |f|;
    forall x | x in f'
      ensures SessionOk(f'[x]) && f'[x].serial < |f'| && LinkOk(f', x)
    {
      SameButArchived(f[x], f'[x].archived);
      assert LinkOk(f, x);
      if f[x].fork.Some? {
        var k := f[x].fork.value;
        SameButArchived(f[k.parent], f'[k.parent].archived);
      }
    }
  }

  lemma SameButArchived(s: Session, archived: bool)
    ensures var s' := s.(archived := archived);
            && (SessionOk(s') <==> SessionOk(s)) && Branch(s') == Branch(s) && Own(s') == Own(s)
            && (forall t :: CompletedTurn(s', t) <==> CompletedTurn(s, t))
            && (forall t :: PrunedTurn(s', t) <==> PrunedTurn(s, t))
            && (forall t, e :: AnchorOf(s', t, e) <==> AnchorOf(s, t, e))
            && (forall e :: OffBranch(s', e) <==> OffBranch(s, e))
  {
    hide ActiveBranch, TurnsOk, WellKeyed, OwnBranch, CompletedTurns, IsAnchor, Lookup;
  }

  lemma SerialsBelowInsert(f: Forest, x: SessionId, s: Session)
    requires x !in f
    ensures |f[x := s]| == |f| + 1
  {
    assert f[x := s].Keys == f.Keys + {x};
  }

  /** Adding a session keeps the invariant if the new session keeps its own part of it. */
  lemma InsertInv(f: Forest, x: SessionId, s: Session)
    requires Inv(f) && x !in f && SessionOk(s) && s.serial == |f|
    requires LinkOk(f[x := s], x)
    ensures Inv(f[x := s])
  {
    hide SessionOk, AnchorOf, CompletedTurn, PrunedTurn, PrefixTo, Branch, OffBranch;
    var f' := f[x := s];
    SerialsBelowInsert(f, x, s);
    forall y | y in f'
      ensures SessionOk(f'[y]) && f'[y].serial < |f'| && LinkOk(f', y)
    {
      if y != x {
        assert LinkOk(f, y);
      }
    }
  }

  // ------------------------------------------------------------------ fork

  lemma {:induction false} PathAppends(rows: EntryTable, leaf: Option<EntryId>, b: seq<Entry>)
    requires IsBranch(rows, leaf, b)
    ensures Appendable(map[], None, b)
    ensures forall id :: id in Extend(map[], b) ==> exists i :: 0 <= i < |b| && b[i].id == id
    ensures leaf == LeafAfter(None, b)
    decreases |b|
  {
    if b != [] {
      var n := |b| - 1;
      BranchAbove(rows, leaf, b);
      PathAppends(rows, b[n].parentId, b[..n]);
      assert b[n].parentId == Above(b, n);
      forall i | 0 <= i < n
        ensures b[..n][i].id != b[n].id
      {
        BranchIdsDistinct(rows, leaf, b, i, n);
      }
      forall id | id in Extend(map[], b)
        ensures exists i :: 0 <= i < |b| && b[i].id == id
      {
        if id in Extend(map[], b[..n]) {
          var i :| 0 <= i < n && b[..n][i].id == id;
          assert b[i].id == id;
        } else {
          assert b[n].id == id;
        }
      }
    }
  }

  /** The table of a copied path holds exactly that path. */
  lemma PathTable(rows: EntryTable, leaf: Option<EntryId>, b: seq<Entry>)
    requires IsBranch(rows, leaf, b)
    ensures WellKeyed(Extend(map[], b)) && ActiveBranch(Extend(map[], b), leaf) == Ok(b)
  {
    hide Extend, Appendable;
    PathAppends(rows, leaf, b);
    assert IsBranch(map[], None, []);
    ExtendBranch(map[], None, [], b);
    assert [] + b == b;
    ActiveBranchIsTheBranch(Extend(map[], b), leaf, b);
  }

  /**
   Fork copies the path: the child's branch is the source's branch up to the fork entry, and
   nothing of it is the child's own.
   */
  lemma ForkCopiesPath(s: Session, serial: nat, k: ForkPoint)
    requires SessionOk(s) && FindEntry(Branch(s), k.entry).Some?
    ensures var path := Branch(s)[..FindEntry(Branch(s), k.entry).value + 1];
            var child := ForkedSession(serial, k, path);
            && SessionOk(child)
            && ActiveBranch(child.entries, child.leaf) == Ok(path)
            && OwnOf(child) == Ok([])
            && PrefixTo(Branch(child), k.entry) == PrefixTo(Branch(s), k.entry)
  {
    hide FindEntry, ActiveBranch, Extend;
    var b := Branch(s);
    var i := FindEntry(b, k.entry).value;
    var path := b[..i + 1];
    ActiveBranchIsTheBranch(s.entries, s.leaf, b);
    BranchPrefix(s.entries, s.leaf, b, i);
    PathTable(s.entries, Some(k.entry), path);
    FindInPrefix(b, i + 1, k.entry);
    assert path[..i + 1] == path && path[i + 1..] == [];
    assert FindEntry(path, k.entry) == Some(i);
    var child := ForkedSession(serial, k, path);
    assert OwnOf(child) == OwnBranch(path, Some(k.entry));
  }

  lemma ForkInv(f: Forest, source: SessionId, t: TurnId, e: EntryId, child: SessionId, quotaReached: bool)
    requires Inv(f) && child !in f && ForkTree(f, source, t, e, child, quotaReached).Ok?
    ensures var f' := ForkTree(f, source, t, e, child, quotaReached).value;
            && Inv(f')
            && AnchorOf(f[source], t, e) && !PrunedTurn(f[source], t)
            && f' == f[child := f'[child]] && f'[child].fork == Some(ForkPoint(source, t, e))
  {
    hide FinalIndices, CompletedTurns, Lookup, FindEntry, ActiveBranch, IsAnchor, Mapped, FindTarget, Extend, Unsettled;
    var s := f[source];
    TargetsAreAnchors(Own(s), CompletedTurns(s.turns), t, e);
    var m, c, j, i := AnchorPlace(s, t, e);
    ForkCopiesPath(s, |f|, ForkPoint(source, t, e));
    AnchorEntryStored(s, t, e);
    var f' := ForkTree(f, source, t, e, child, quotaReached).value;
    InsertInv(f, child, f'[child]);
  }

  lemma AnchorEntryStored(s: Session, t: TurnId, e: EntryId)
    requires SessionOk(s) && AnchorOf(s, t, e)
    ensures e in s.entries
  {
    hide FinalIndices, CompletedTurns, Lookup, FindEntry, ActiveBranch, IsAnchor;
    var m, c, j, f := AnchorPlace(s, t, e);
    OwnIsSuffix(s);
    ActiveBranchIsTheBranch(s.entries, s.leaf, Branch(s));
    assert Branch(s)[OwnStart(s) + f].id in s.entries;
  }

  // ------------------------------------------------------------------ prune

  lemma PruneInv(f: Forest, x: SessionId, t: TurnId, e: EntryId, delegatedActive: bool)
    requires Inv(f) && PruneTree(f, x, t, e, delegatedActive).Ok?
    ensures Inv(PruneTree(f, x, t, e, delegatedActive).value)
    ensures AnchorOf(f[x], t, e) && Lookup(f[x].turns, t).Some?
  {
    hide FinalIndices, CompletedTurns, Lookup, FindEntry, ActiveBranch, IsAnchor, Mapped, FindTarget, LiveClosure,
      KeepsAnchors, SessionOk, LinkOk, Unsettled, ForkedFrom, Busy;
    var s := f[x];
    assert SessionOk(s);
    ViewIsMapped(s);
    TargetsAreAnchors(Own(s), CompletedTurns(s.turns), t, e);
    var position := s.turns[Lookup(s.turns, t).value].position;
    var s' := Prune(s, e, position);
    PruneOk(s, t, e);
    UpdateInv(f, x, s');
    ArchiveFlagsInv(f[x := s'], PruneTree(f, x, t, e, delegatedActive).value);
  }

  lemma ViewIsMapped(s: Session)
    requires SessionOk(s)
    ensures ViewOf(s) == Ok(Mapped(Own(s), CompletedTurns(s.turns)))
  {
    hide ActiveBranch, Mapped, CompletedTurns;
  }

  // ------------------------------------------------------------------ archive closure

  /** Archiving a set that takes every live child of its members leaves no orphan. */
  lemma ArchiveAllClosed(f: Forest, xs: set<SessionId>)
    requires Closed(f)
    requires forall x :: x in f && !f[x].archived && f[x].fork.Some? && f[x].fork.value.parent in xs ==> x in xs
    ensures Closed(ArchiveAll(f, xs))
  {
  }

  lemma LiveClosureTakesChildren(f: Forest, seeds: set<SessionId>, x: SessionId)
    requires Inv(f) && x in f && !f[x].archived && f[x].fork.Some?
    requires f[x].fork.value.parent in LiveClosure(f, seeds)
    ensures x in LiveClosure(f, seeds)
  {
    hide SessionOk;
    assert LinkOk(f, x);
  }

  lemma PruneClosed(f: Forest, x: SessionId, t: TurnId, e: EntryId, delegatedActive: bool)
    requires Inv(f) && Closed(f) && PruneTree(f, x, t, e, delegatedActive).Ok?
    ensures Closed(PruneTree(f, x, t, e, delegatedActive).value)
    ensures Anchored(f) ==> Anchored(PruneTree(f, x, t, e, delegatedActive).value)
  {
    hide Inv, ViewOf, FindTarget, LiveClosure, Unsettled, Busy, Lookup, ForkedFrom, PruneTurns, PrunedTurn;
    var s := f[x];
    var position := s.turns[Lookup(s.turns, t).value].position;
    var seeds := ForkedFrom(f, x, position);
    var below := LiveClosure(f, seeds);
    var f' := PruneTree(f, x, t, e, delegatedActive).value;
    forall y | y in f && !f[y].archived && f[y].fork.Some? && f[y].fork.value.parent in below
      ensures y in below
    {
      LiveClosureTakesChildren(f, seeds, y);
    }
    ArchiveAllClosed(f, below);
    if Anchored(f) {
      forall y | y in f' && !f'[y].archived
        ensures ForkTurnKept(f', y)
      {
        assert ForkTurnKept(f, y);
        SurvivorAnchored(f, f', x, e, position, below, y);
      }
    }
  }

  /** A child that the prune does not archive was forked before the anchor, at a turn that stays. */
  lemma SurvivorAnchored(f: Forest, f': Forest, x: SessionId, e: EntryId, position: nat, below: set<SessionId>,
                         y: SessionId)
    requires Inv(f) && x in f && !f[x].archived
    requires below == LiveClosure(f, ForkedFrom(f, x, position))
    requires f' == ArchiveAll(f, below)[x := Prune(ArchiveAll(f, below)[x], e, position)]
    requires y in f' && !f'[y].archived && ForkTurnKept(f, y)
    ensures ForkTurnKept(f', y)
  {
    hide Lookup, SessionOk, KeepsAnchors;
    assert LinkOk(f, y);
    if f[y].fork.Some? && f[y].fork.value.parent == x {
      var turn := f[y].fork.value.turn;
      assert SessionOk(f[x]);
      TurnsOkOf(f[x]);
      LookupPruned(f[x].turns, position, turn);
      assert !f[y].archived;
      assert y !in below;
      assert y !in ForkedFrom(f, x, position);
    }
  }

  lemma TurnsOkOf(s: Session)
    requires SessionOk(s)
    ensures TurnsOk(s.turns)
  {
  }

  lemma ArchiveInv(f: Forest, x: SessionId, delegatedActive: bool)
    requires Inv(f) && Closed(f) && Archive(f, x, delegatedActive).Ok?
    ensures var f' := Archive(f, x, delegatedActive).value;
            Inv(f') && Closed(f') && (Anchored(f) ==> Anchored(f'))
  {
    hide Inv, LiveClosure, Unsettled, Busy, LiveChildren, PrunedTurn;
    var seeds := LiveChildren(f, x);
    var below := LiveClosure(f, seeds);
    forall y | y in f && !f[y].archived && f[y].fork.Some? && f[y].fork.value.parent in {x} + below
      ensures y in below
    {
      if f[y].fork.value.parent == x {
        ChildInClosure(f, x, y);
      } else {
        LiveClosureTakesChildren(f, seeds, y);
      }
    }
    ArchiveAllClosed(f, {x} + below);
    ArchiveFlagsInv(f, ArchiveAll(f, {x} + below));
    forall y | y in f
      ensures ForkTurnKept(f, y) ==> ForkTurnKept(ArchiveAll(f, {x} + below), y)
    {
      if ForkTurnKept(f, y) && f[y].fork.Some? {
        SameButArchived(f[f[y].fork.value.parent], true);
      }
    }
  }

  lemma ChildInClosure(f: Forest, x: SessionId, y: SessionId)
    requires y in f && !f[y].archived && f[y].fork.Some? && f[y].fork.value.parent == x
    ensures y in LiveClosure(f, LiveChildren(f, x))
  {
  }

  /** `y` hangs below `x`, through live or archived sessions. */
  predicate Below(f: Forest, x: SessionId, y: SessionId)
    decreases if y in f then f[y].serial else 0
  {
    && y in f && f[y].fork.Some?
    && var p := f[y].fork.value.parent;
       p == x || (p in f && f[p].serial < f[y].serial && Below(f, x, p))
  }

  /**
   Archive is complete: although its search follows live children only, every session below
   the archived one is archived afterwards, and no other session changes.
   */
  lemma ArchiveTakesAllDescendants(f: Forest, x: SessionId, delegatedActive: bool)
    requires Inv(f) && Closed(f) && Archive(f, x, delegatedActive).Ok?
    ensures var f' := Archive(f, x, delegatedActive).value;
            && f'.Keys == f.Keys
            && (forall y :: y in f && (y == x || Below(f, x, y)) ==> f'[y] == f[y].(archived := true))
            && (forall y :: y in f && y != x && !Below(f, x, y) ==> f'[y] == f[y])
  {
    hide Inv, Closed, LiveClosure, Unsettled, Busy, LiveChildren;
    forall y | y in f
      ensures y in LiveClosure(f, LiveChildren(f, x)) <==> !f[y].archived && Below(f, x, y)
    {
      ClosureIsBelow(f, x, y);
    }
  }

  lemma {:induction false} ClosureIsBelow(f: Forest, x: SessionId, y: SessionId)
    requires Inv(f) && Closed(f) && y in f
    ensures y in LiveClosure(f, LiveChildren(f, x)) <==> !f[y].archived && Below(f, x, y)
    decreases f[y].serial
  {
    hide SessionOk;
    assert LinkOk(f, y);
    if f[y].fork.Some? {
      ClosureIsBelow(f, x, f[y].fork.value.parent);
    }
  }

  /** `y` is one of the roots or hangs below one. */
  ghost predicate AtOrBelow(f: Forest, roots: set<SessionId>, y: SessionId) {
    exists c :: c in roots && (y == c || Below(f, c, y))
  }

  lemma {:induction false} ClosureIsAtOrBelow(f: Forest, seeds: set<SessionId>, y: SessionId)
    requires Inv(f) && Closed(f) && y in f
    ensures y in LiveClosure(f, seeds) <==> !f[y].archived && AtOrBelow(f, seeds, y)
    decreases f[y].serial
  {
    hide SessionOk;
    assert LinkOk(f, y);
    if f[y].fork.Some? {
      var p := f[y].fork.value.parent;
      ClosureIsAtOrBelow(f, seeds, p);
      BelowParent(f, seeds, y);
    }
  }

  lemma BelowParent(f: Forest, seeds: set<SessionId>, y: SessionId)
    requires Inv(f) && y in f && f[y].fork.Some?
    ensures AtOrBelow(f, seeds, y) <==> y in seeds || AtOrBelow(f, seeds, f[y].fork.value.parent)
  {
    hide SessionOk;
    assert LinkOk(f, y);
    var p := f[y].fork.value.parent;
    if y in seeds {
      assert AtOrBelow(f, seeds, y);
    }
    if AtOrBelow(f, seeds, p) {
      var c :| c in seeds && (p == c || Below(f, c, p));
      assert Below(f, c, y);
    }
    if AtOrBelow(f, seeds, y) && y !in seeds {
      var c :| c in seeds && (y == c || Below(f, c, y));
      assert p == c || Below(f, c, p);
    }
  }

  /**
   Prune archives exactly the live children forked at the anchor's turn or later and everything
   live below them, moves the pruned session's leaf, and touches no other session.
   */
  lemma PruneArchivesExactly(f: Forest, x: SessionId, t: TurnId, e: EntryId, delegatedActive: bool)
    requires Inv(f) && Closed(f) && PruneTree(f, x, t, e, delegatedActive).Ok?
    ensures Lookup(f[x].turns, t).Some?
    ensures var f' := PruneTree(f, x, t, e, delegatedActive).value;
            var later := ForkedFrom(f, x, f[x].turns[Lookup(f[x].turns, t).value].position);
            && f'.Keys == f.Keys && f'[x].archived == f[x].archived && f'[x].leaf == Some(e)
            && (forall y :: y in f && y != x && AtOrBelow(f, later, y) ==> f'[y] == f[y].(archived := true))
            && (forall y :: y in f && y != x && !AtOrBelow(f, later, y) ==> f'[y] == f[y])
  {
    hide Inv, Closed, LiveClosure, Unsettled, Busy, ForkedFrom, FindTarget, ViewOf, Lookup, PruneTurns, AtOrBelow;
    var later := ForkedFrom(f, x, f[x].turns[Lookup(f[x].turns, t).value].position);
    forall y | y in f
      ensures y in LiveClosure(f, later) <==> !f[y].archived && AtOrBelow(f, later, y)
    {
      ClosureIsAtOrBelow(f, later, y);
    }
    SourceSurvives(f, x, f[x].turns[Lookup(f[x].turns, t).value].position);
  }

  /** The pruned session is not below the forks it archives. */
  lemma SourceSurvives(f: Forest, x: SessionId, position: nat)
    requires Inv(f) && x in f
    ensures x !in LiveClosure(f, ForkedFrom(f, x, position))
  {
    hide SessionOk;
    forall y | y in ForkedFrom(f, x, position)
      ensures y in f && f[y].serial > f[x].serial
    {
      assert LinkOk(f, y);
    }
    if LiveBelow(f, ForkedFrom(f, x, position), x) {
      OlderThanSeeds(f, ForkedFrom(f, x, position), x, f[x].serial);
    }
  }

  lemma {:induction false} OlderThanSeeds(f: Forest, seeds: set<SessionId>, y: SessionId, serial: nat)
    requires forall c :: c in seeds ==> c in f && f[c].serial > serial
    requires LiveBelow(f, seeds, y)
    ensures f[y].serial > serial
    decreases if y in f then f[y].serial else 0
  {
    if y !in seeds {
      OlderThanSeeds(f, seeds, f[y].fork.value.parent, serial);
    }
  }

  /**
   Unarchiving keeps the closure; all is anchored after it exactly if it was before and the fork
   turn is not pruned.
   */
  lemma UnarchiveInv(f: Forest, x: SessionId, workspaceTaken: bool)
    requires Inv(f) && Closed(f) && Unarchive(f, x, workspaceTaken).Ok?
    ensures var f' := Unarchive(f, x, workspaceTaken).value;
            && x in f && Inv(f') && Closed(f')
            && (Anchored(f') <==> Anchored(f) && ForkTurnKept(f, x))
  {
    hide Inv, Unsettled, PrunedTurn;
    var f' := Unarchive(f, x, workspaceTaken).value;
    ArchiveFlagsInv(f, f');
    forall y | y in f
      ensures ForkTurnKept(f', y) <==> ForkTurnKept(f, y)
    {
      if f[y].fork.Some? && f[y].fork.value.parent == x {
        SameButArchived(f[x], false);
      }
    }
    RestoredIsAnchored(f, f', x);
  }

  lemma RestoredIsAnchored(f: Forest, f': Forest, x: SessionId)
    requires x in f && f[x].archived && f' == f[x := f[x].(archived := false)]
    requires forall y :: y in f ==> (ForkTurnKept(f', y) <==> ForkTurnKept(f, y))
    ensures Anchored(f') <==> Anchored(f) && ForkTurnKept(f, x)
  {
    hide ForkTurnKept;
    if Anchored(f') {
      assert ForkTurnKept(f', x);
      forall y | y in f && !f[y].archived
        ensures ForkTurnKept(f, y)
      {
        assert ForkTurnKept(f', y);
      }
    }
  }

  // ------------------------------------------------------------------ the environment's steps

  lemma AdmitKeeps(s: Session, t: TurnId, position: nat)
    requires SessionOk(s) && CanAdmit(s, t, position)
    ensures var s' := s.(turns := s.turns + [Turn(t, position, SM.TurnState.Queued, false)]);
            SessionOk(s') && KeepsAnchors(s, s')
  {
    hide ActiveBranch, FinalIndices, FindEntry, IsAnchor, WellKeyed, Lookup, OwnBranch, CompletedTurns;
    var turn := Turn(t, position, SM.TurnState.Queued, false);
    CompletedConcat(s.turns, [turn]);
    CompletedOne(turn);
    assert CompletedTurns(s.turns + [turn]) == CompletedTurns(s.turns);
    forall u
      ensures Lookup(s.turns, u).Some? ==> Lookup(s.turns + [turn], u) == Lookup(s.turns, u)
    {
      LookupAppend(s.turns, turn, u);
    }
    forall u, e | AnchorOf(s, u, e)
      ensures Lookup(s.turns, u).Some? && !PrunedTurn(s, u)
    {
      AnchorUnpruned(s, u, e);
    }
  }

  lemma AnchorUnpruned(s: Session, t: TurnId, e: EntryId)
    requires SessionOk(s) && AnchorOf(s, t, e)
    ensures CompletedTurn(s, t) && !PrunedTurn(s, t)
  {
    hide FinalIndices, CompletedTurns, Lookup, FindEntry, ActiveBranch, IsAnchor, OwnOf;
    var m, c, j, i := AnchorPlace(s, t, e);
  }

  lemma LookupAppend(turns: seq<Turn>, turn: Turn, u: TurnId)
    ensures Lookup(turns, u).Some? ==> Lookup(turns + [turn], u) == Lookup(turns, u)
  {
    assert (turns + [turn])[..|turns|] == turns;
  }

  lemma AdvanceKeeps(s: Session, i: nat, state: SM.TurnState, session: SM.SessionState)
    requires SessionOk(s) && CanAdvance(s, i, state)
    ensures var s' := s.(state := session, turns := s.turns[i := s.turns[i].(state := state)]);
            SessionOk(s') && KeepsAnchors(s, s')
  {
    hide ActiveBranch, FinalIndices, FindEntry, IsAnchor, WellKeyed, Lookup, OwnBranch, CompletedTurns;
    CompletedUpdate(s.turns, i, s.turns[i].(state := state));
    assert CompletedTurns(s.turns[i := s.turns[i].(state := state)]) == CompletedTurns(s.turns);
    forall u
      ensures Lookup(s.turns[i := s.turns[i].(state := state)], u) == Lookup(s.turns, u)
    {
      LookupUpdate(s.turns, i, s.turns[i].(state := state), u);
    }
    forall u, e | AnchorOf(s, u, e)
      ensures Lookup(s.turns, u).Some? && !PrunedTurn(s, u)
    {
      AnchorUnpruned(s, u, e);
    }
  }

  lemma CreateInv(f: Forest, x: SessionId)
    requires Inv(f) && x !in f
    ensures Inv(f[x := Session(|f|, None, false, SM.SessionState.Cold, map[], None, [])])
  {
    InsertInv(f, x, Session(|f|, None, false, SM.SessionState.Cold, map[], None, []));
  }

  /** A step on one session that leaves archive flags, forks and pruned turns alone keeps both global properties. */
  lemma UpdateGlobal(f: Forest, x: SessionId, s: Session)
    requires Inv(f) && Closed(f) && x in f && KeepsAnchors(f[x], s) && s.archived == f[x].archived
    requires forall t :: CompletedTurn(f[x], t) && PrunedTurn(s, t) ==> PrunedTurn(f[x], t)
    ensures Closed(f[x := s]) && (Anchored(f) ==> Anchored(f[x := s]))
  {
    hide SessionOk, AnchorOf, CompletedTurn, PrunedTurn, PrefixTo;
    forall y | y in f && ForkTurnKept(f, y)
      ensures ForkTurnKept(f[x := s], y)
    {
      assert LinkOk(f, y);
    }
  }

  lemma InsertGlobal(f: Forest, x: SessionId, s: Session)
    requires Closed(f) && x !in f && !s.archived
    requires s.fork.Some? ==> s.fork.value.parent in f && !f[s.fork.value.parent].archived &&
                              !PrunedTurn(f[s.fork.value.parent], s.fork.value.turn)
    ensures Closed(f[x := s]) && (Anchored(f) ==> Anchored(f[x := s]))
  {
    hide PrunedTurn;
    forall y | y in f && ForkTurnKept(f, y)
      ensures ForkTurnKept(f[x := s], y)
    {
    }
  }

  ghost predicate Good(f: Forest) {
    Inv(f) && Closed(f)
  }

  lemma SettleStepGood(f: Forest, x: SessionId, i: nat, outcome: SM.TurnState, ext: seq<Entry>)
    requires Good(f) && x in f && CanSettle(f[x], i, outcome, ext)
    ensures var f' := f[x := Settle(f[x], i, outcome, ext)]; Good(f') && (Anchored(f) ==> Anchored(f'))
  {
    hide Closed, Anchored, LinkOk, KeepsAnchors, SessionOk, Lookup, CanSettle;
    CanSettleIndex(f[x], i, outcome, ext);
    var s' := Settle(f[x], i, outcome, ext);
    SettleOk(f[x], i, outcome, ext);
    UpdateInv(f, x, s');
    TurnsOkOf(f[x]);
    forall t
      ensures PrunedTurn(s', t) ==> PrunedTurn(f[x], t)
    {
      LookupUpdate(f[x].turns, i, s'.turns[i], t);
    }
    UpdateGlobal(f, x, s');
  }

  lemma CanSettleIndex(s: Session, i: nat, outcome: SM.TurnState, ext: seq<Entry>)
    requires CanSettle(s, i, outcome, ext)
    ensures i < |s.turns|
  {
  }

  lemma AdmitStepGood(f: Forest, x: SessionId, t: TurnId, position: nat)
    requires Good(f) && x in f && CanAdmit(f[x], t, position)
    ensures var f' := Apply(f, AdmitStep(x, t, position)); Good(f') && (Anchored(f) ==> Anchored(f'))
  {
    hide Closed, Anchored, LinkOk, KeepsAnchors, SessionOk, Lookup;
    var turn := Turn(t, position, SM.TurnState.Queued, false);
    var s' := f[x].(turns := f[x].turns + [turn]);
    AdmitKeeps(f[x], t, position);
    UpdateInv(f, x, s');
    forall u | CompletedTurn(f[x], u) && PrunedTurn(s', u)
      ensures PrunedTurn(f[x], u)
    {
      LookupAppend(f[x].turns, turn, u);
    }
    UpdateGlobal(f, x, s');
  }

  lemma AdvanceStepGood(f: Forest, x: SessionId, session: SM.SessionState, i: nat, state: SM.TurnState)
    requires Good(f) && x in f && CanAdvance(f[x], i, state)
    ensures var f' := Apply(f, AdvanceStep(x, session, i, state)); Good(f') && (Anchored(f) ==> Anchored(f'))
  {
    hide Closed, Anchored, LinkOk, KeepsAnchors, SessionOk, Lookup;
    var s' := f[x].(state := session, turns := f[x].turns[i := f[x].turns[i].(state := state)]);
    AdvanceKeeps(f[x], i, state, session);
    UpdateInv(f, x, s');
    TurnsOkOf(f[x]);
    forall u
      ensures PrunedTurn(s', u) ==> PrunedTurn(f[x], u)
    {
      LookupUpdate(f[x].turns, i, s'.turns[i], u);
    }
    UpdateGlobal(f, x, s');
  }

  lemma ForkStepGood(f: Forest, source: SessionId, t: TurnId, e: EntryId, child: SessionId, quota: bool)
    requires Good(f) && child !in f && ForkTree(f, source, t, e, child, quota).Ok?
    ensures var f' := ForkTree(f, source, t, e, child, quota).value; Good(f') && (Anchored(f) ==> Anchored(f'))
  {
    hide Closed, Anchored, Inv, PrunedTurn, AnchorOf, ViewOf, Unsettled, FindTarget, FindEntry, ActiveBranch;
    ForkInv(f, source, t, e, child, quota);
    InsertGlobal(f, child, ForkTree(f, source, t, e, child, quota).value[child]);
  }

  /** The step restores a conversation. */
  predicate Restores(f: Forest, step: Step) {
    step.UnarchiveStep? && Unarchive(f, step.session, step.workspaceTaken).Ok?
  }

  /**
   Every step keeps the invariant and the archive closure; and it keeps the anchors unless it
   restores a conversation whose fork turn was pruned meanwhile.
   */
  lemma ApplyGood(f: Forest, step: Step)
    requires Good(f)
    ensures Good(Apply(f, step))
    ensures Anchored(f) && !Restores(f, step) ==> Anchored(Apply(f, step))
    ensures Restores(f, step) ==>
              step.session in f && (Anchored(Apply(f, step)) <==> Anchored(f) && ForkTurnKept(f, step.session))
  {
    hide ForkTurnKept, Inv, Closed, Anchored, ForkTree, PruneTree, Archive, Unarchive, CanAdmit, CanAdvance,
      CanSettle, Settle;
    match step
    case ForkStep(source, t, e, child, quota) =>
      if child !in f && ForkTree(f, source, t, e, child, quota).Ok? {
        ForkStepGood(f, source, t, e, child, quota);
      }
    case PruneStep(x, t, e, active) =>
      if PruneTree(f, x, t, e, active).Ok? {
        PruneInv(f, x, t, e, active);
        PruneClosed(f, x, t, e, active);
      }
    case ArchiveStep(x, active) =>
      if Archive(f, x, active).Ok? {
        ArchiveInv(f, x, active);
      }
    case UnarchiveStep(x, taken) =>
      if Unarchive(f, x, taken).Ok? {
        UnarchiveInv(f, x, taken);
      }
    case CreateStep(x) =>
      if x !in f {
        CreateInv(f, x);
        InsertGlobal(f, x, Session(|f|, None, false, SM.SessionState.Cold, map[], None, []));
      }
    case AdmitStep(x, t, position) =>
      if x in f && CanAdmit(f[x], t, position) {
        AdmitStepGood(f, x, t, position);
      }
    case AdvanceStep(x, state, i, turnState) =>
      if x in f && CanAdvance(f[x], i, turnState) {
        AdvanceStepGood(f, x, state, i, turnState);
      }
    case SettleStep(x, i, outcome, ext) =>
      if x in f && CanSettle(f[x], i, outcome, ext) {
        SettleStepGood(f, x, i, outcome, ext);
      }
  }

  /** Whatever a run restores still has its fork turn when it is restored. */
  ghost predicate AnchoredRestores(steps: seq<Step>) {
    forall i :: 0 <= i < |steps| ==> RestoresAnchored(Run(steps[..i]), steps[i])
  }

  ghost predicate RestoresAnchored(f: Forest, step: Step) {
    Restores(f, step) ==> step.session in f && ForkTurnKept(f, step.session)
  }

  lemma RestoresBefore(steps: seq<Step>)
    requires steps != [] && AnchoredRestores(steps)
    ensures AnchoredRestores(steps[..|steps| - 1]) && RestoresAnchored(Run(steps[..|steps| - 1]), steps[|steps| - 1])
  {
    hide Run, RestoresAnchored;
    var before := steps[..|steps| - 1];
    forall i | 0 <= i < |before|
      ensures RestoresAnchored(Run(before[..i]), before[i])
    {
      assert before[..i] == steps[..i];
    }
  }

  /** Every reachable forest is good, and anchored as long as every restored conversation had its fork turn. */
  lemma {:induction false} RunGood(steps: seq<Step>)
    ensures Good(Run(steps))
    ensures AnchoredRestores(steps) ==> Anchored(Run(steps))
  {
    if steps == [] {
      EmptyGood();
    } else {
      var n := |steps| - 1;
      hide Good, Anchored, Apply, AnchoredRestores, ForkTurnKept, Unarchive;
      RunGood(steps[..n]);
      ApplyGood(Run(steps[..n]), steps[n]);
      if AnchoredRestores(steps) {
        RestoresBefore(steps);
      }
    }
  }

  /**
   A run keeps every live conversation anchored at every moment if and only if it never restores
   one whose fork turn was pruned while it was archived.
   */
  lemma AnchoredThroughoutIff(steps: seq<Step>)
    ensures (forall n :: 0 <= n <= |steps| ==> Anchored(Run(steps[..n]))) <==> AnchoredRestores(steps)
  {
    hide Good, Anchored, Apply, ForkTurnKept, Unarchive, Restores;
    if AnchoredRestores(steps) {
      forall n | 0 <= n <= |steps|
        ensures Anchored(Run(steps[..n]))
      {
        RestoresUpTo(steps, n);
        RunGood(steps[..n]);
      }
    }
    if forall n :: 0 <= n <= |steps| ==> Anchored(Run(steps[..n])) {
      forall i | 0 <= i < |steps|
        ensures RestoresAnchored(Run(steps[..i]), steps[i])
      {
        RunGood(steps[..i]);
        ApplyGood(Run(steps[..i]), steps[i]);
        assert steps[..i + 1][..i] == steps[..i];
        assert Run(steps[..i + 1]) == Apply(Run(steps[..i]), steps[i]);
        assert Anchored(Run(steps[..i + 1]));
      }
    }
  }

  lemma RestoresUpTo(steps: seq<Step>, n: nat)
    requires n <= |steps| && AnchoredRestores(steps)
    ensures AnchoredRestores(steps[..n])
  {
    hide Run, RestoresAnchored;
    forall i | 0 <= i < n
      ensures RestoresAnchored(Run(steps[..n][..i]), steps[..n][i])
    {
      assert steps[..n][..i] == steps[..i];
    }
  }

  lemma EmptyGood()
    ensures Good(map[]) && Anchored(map[])
  {
  }

  /**
   Fork-anchor safety: in every forest reached without restoring a conversation that had lost its
   fork turn, the anchor of each live conversation is a final message of its live parent's view.
   */
  lemma ForkAnchorSafety(steps: seq<Step>, x: SessionId)
    requires AnchoredRestores(steps)
    requires x in Run(steps) && !Run(steps)[x].archived && Run(steps)[x].fork.Some?
    ensures var f := Run(steps);
            var k := f[x].fork.value;
            k.parent in f && !f[k.parent].archived && AnchorOf(f[k.parent], k.turn, k.entry)
  {
    hide AnchorOf, Apply, PrunedTurn, AnchoredRestores;
    RunGood(steps);
    AnchorIffUnpruned(Run(steps), x);
    assert ForkTurnKept(Run(steps), x);
  }
}
