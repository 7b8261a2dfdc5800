/**
 The focused view of a conversation: the lineage from the root to it, and each ancestor's own
 entries cut at the next session's fork entry. Glued together they are its active branch.
 */
module FocusView {
  import opened Common
  import opened Branches
  import opened MappedEntries
  import opened Sessions
  import opened Forest

  const MAX_TREE_BRANCHES := 100
  const MAX_TREE_ENTRIES := 10_000

  datatype ViewError = ConversationNotFound | LineageInvalid | SessionCorrupt | AnchorMissing | TooLarge

  // ------------------------------------------------------------------ lineage

  /** The climb to the root: it refuses repeated, missing or archived sessions and more than 100 of them. */
  function LineageWalk(f: Forest, cursor: Option<SessionId>, seen: set<SessionId>, n: nat)
    : (r: Result<seq<SessionId>, ViewError>)
    ensures r.Ok? ==> forall i :: 0 <= i < |r.value| ==> r.value[i] in f
    decreases MAX_TREE_BRANCHES - n
  {
    if cursor.None? then Ok([])
    else if cursor.value in seen || n >= MAX_TREE_BRANCHES then Err(LineageInvalid)
    else if cursor.value !in f || f[cursor.value].archived then Err(ConversationNotFound)
    else match LineageWalk(f, ParentOf(f[cursor.value]), seen + {cursor.value}, n + 1)
         case Ok(above) => Ok(above + [cursor.value])
         case Err(e) => Err(e)
  }

  function ParentOf(s: Session): Option<SessionId> {
    match s.fork
    case Some(k) => Some(k.parent)
    case None => None
  }

  /** Appending what was already collected below the rest of the climb. */
  function Join(r: Result<seq<SessionId>, ViewError>, below: seq<SessionId>): Result<seq<SessionId>, ViewError> {
    match r
    case Ok(above) => Ok(above + below)
    case Err(e) => Err(e)
  }

  lemma JoinStart(r: Result<seq<SessionId>, ViewError>)
    ensures Join(r, []) == r
  {
    if r.Ok? {
      assert r.value + [] == r.value;
    }
  }

  lemma JoinStep(r: Result<seq<SessionId>, ViewError>, x: SessionId, below: seq<SessionId>)
    ensures Join(match r case Ok(above) => Ok(above + [x]) case Err(e) => Err(e), below) == Join(r, [x] + below)
  {
    if r.Ok? {
      assert r.value + [x] + below == r.value + ([x] + below);
    }
  }

  lemma JoinEnd(below: seq<SessionId>)
    ensures Join(Ok([]), below) == Ok(below)
  {
    assert [] + below == below;
  }

  /** The sessions from the root of `x` down to `x`. */
  ghost function Lineage(f: Forest, x: SessionId): (r: seq<SessionId>)
    ensures r != [] && r[|r| - 1] == x
    decreases if x in f then f[x].serial else 0
  {
    if x in f && f[x].fork.Some? && f[x].fork.value.parent in f && f[f[x].fork.value.parent].serial < f[x].serial
    then Lineage(f, f[x].fork.value.parent) + [x]
    else [x]
  }

  lemma {:induction false} LineageWalkMeasures(f: Forest, x: SessionId, seen: set<SessionId>, n: nat)
    requires Good(f) && x in f && !f[x].archived
    requires forall y :: y in seen ==> y in f && f[y].serial > f[x].serial
    ensures n + |Lineage(f, x)| <= MAX_TREE_BRANCHES ==> LineageWalk(f, Some(x), seen, n) == Ok(Lineage(f, x))
    ensures n + |Lineage(f, x)| > MAX_TREE_BRANCHES ==> LineageWalk(f, Some(x), seen, n) == Err(LineageInvalid)
    decreases MAX_TREE_BRANCHES - n
  {
    hide SessionOk;
    assert LinkOk(f, x);
    if n < MAX_TREE_BRANCHES {
      if f[x].fork.Some? {
        LineageWalkMeasures(f, f[x].fork.value.parent, seen + {x}, n + 1);
      } else {
        assert LineageWalk(f, None, seen + {x}, n + 1) == Ok([]);
        assert [] + [x] == [x];
      }
    }
  }

  /** In a good forest the climb from a live conversation finds its lineage, unless that is longer than 100. */
  lemma LineageFound(f: Forest, x: SessionId)
    requires Good(f) && x in f && !f[x].archived
    ensures LineageWalk(f, Some(x), {}, 0) ==
            if |Lineage(f, x)| <= 100 then Ok(Lineage(f, x)) else Err(LineageInvalid)
  {
    LineageWalkMeasures(f, x, {}, 0);
  }

  /** Consecutive sessions of `ids` are linked by a fork; the first is not a fork. */
  ghost predicate IsLineage(f: Forest, ids: seq<SessionId>) {
    && ids != []
    && (forall i :: 0 <= i < |ids| ==> ids[i] in f)
    && f[ids[0]].fork.None?
    && (forall i :: 0 < i < |ids| ==> f[ids[i]].fork.Some? && f[ids[i]].fork.value.parent == ids[i - 1])
  }

  lemma {:induction false} LineageLinks(f: Forest, x: SessionId)
    requires Inv(f) && x in f
    ensures IsLineage(f, Lineage(f, x))
    decreases f[x].serial
  {
    hide SessionOk;
    assert LinkOk(f, x);
    if f[x].fork.Some? {
      LineageLinks(f, f[x].fork.value.parent);
    }
  }

  // ------------------------------------------------------------------ gluing own branches

  /** A session's own entries up to and including `e`. */
  ghost function CutOwn(s: Session, e: EntryId): seq<Entry> {
    match FindEntry(Own(s), e)
    case Some(i) => Own(s)[..i + 1]
    case None => Own(s)
  }

  /** What the `i`-th session of the lineage contributes. */
  ghost function Part(f: Forest, ids: seq<SessionId>, i: nat): seq<Entry>
    requires IsLineage(f, ids) && i < |ids|
  {
    if i + 1 < |ids| then CutOwn(f[ids[i]], f[ids[i + 1]].fork.value.entry) else Own(f[ids[i]])
  }

  ghost function Glued(f: Forest, ids: seq<SessionId>, n: nat): seq<Entry>
    requires IsLineage(f, ids) && n <= |ids|
  {
    if n == 0 then [] else Glued(f, ids, n - 1) + Part(f, ids, n - 1)
  }

  ghost predicate LineageKept(f: Forest, ids: seq<SessionId>)
    requires IsLineage(f, ids)
  {
    forall i :: 0 <= i < |ids| ==> ForkTurnKept(f, ids[i])
  }

  /** The inherited part of a fork is its parent's branch cut at the fork entry. */
  lemma InheritedPart(f: Forest, x: SessionId)
    requires Inv(f) && x in f && f[x].fork.Some? && ForkTurnKept(f, x)
    ensures var k := f[x].fork.value;
            var p := f[k.parent];
            && FindEntry(Own(p), k.entry).Some?
            && OwnStart(f[x]) <= |Branch(f[x])| && OwnStart(f[x]) <= |Branch(p)|
            && OwnStart(f[x]) == OwnStart(p) + FindEntry(Own(p), k.entry).value + 1
            && Branch(f[x])[..OwnStart(f[x])] == Branch(p)[..OwnStart(f[x])]
            && Branch(f[x])[..OwnStart(f[x])] == Branch(p)[..OwnStart(p)] + CutOwn(p, k.entry)
  {
    hide FindEntry, ActiveBranch, AnchorOf, Lookup, Branch, Own, OwnStart, SessionOk, CompletedTurn, OffBranch;
    assert LinkOk(f, x) && SessionOk(f[x]);
    var k := f[x].fork.value;
    var p := f[k.parent];
    assert SessionOk(p);
    OwnIsSuffix(p);
    OwnIsSuffix(f[x]);
    ForkEntryInherited(f[x]);
    TurnsOkOf(p);
    var m, c, j, g := AnchorPlace(p, k.turn, k.entry);
    EntryAt(Own(p), g, k.entry);
    SamePlace(p, k.entry);
    var i := FindEntry(Own(p), k.entry).value;
    assert Branch(p)[..OwnStart(p) + i + 1] == Branch(p)[..OwnStart(p)] + Own(p)[..i + 1];
  }

  /** An entry of a session's own part has the same place in the part and in the branch. */
  lemma SamePlace(s: Session, e: EntryId)
    requires SessionOk(s) && FindEntry(Own(s), e).Some?
    ensures FindEntry(Branch(s), e) == Some(OwnStart(s) + FindEntry(Own(s), e).value)
  {
    hide FindEntry, ActiveBranch;
    var b := Branch(s);
    OwnIsSuffix(s);
    ActiveBranchIsTheBranch(s.entries, s.leaf, b);
    OwnInBranch(s, e);
    var i, j := FindEntry(b, e).value, OwnStart(s) + FindEntry(Own(s), e).value;
    assert b[j].id == e;
    if i < j {
      BranchIdsDistinct(s.entries, s.leaf, b, i, j);
    }
  }

  lemma {:induction false} GluedIsInherited(f: Forest, ids: seq<SessionId>, n: nat)
    requires Inv(f) && IsLineage(f, ids) && LineageKept(f, ids) && n < |ids|
    ensures OwnStart(f[ids[n]]) <= |Branch(f[ids[n]])|
    ensures Glued(f, ids, n) == Branch(f[ids[n]])[..OwnStart(f[ids[n]])]
  {
    hide Branch, Own, OwnStart, CutOwn, SessionOk, LinkOk, FindEntry;
    if n == 0 {
      RootOwnsAll(f[ids[0]]);
    } else {
      GluedIsInherited(f, ids, n - 1);
      assert ForkTurnKept(f, ids[n]);
      InheritedPart(f, ids[n]);
    }
  }

  lemma RootOwnsAll(s: Session)
    requires s.fork.None?
    ensures OwnStart(s) == 0
  {
  }

  /**
   Gluing: cutting each ancestor's own branch at the next session's fork entry and concatenating
   along the lineage gives exactly the active branch of the last session.
   */
  lemma LineageGlues(f: Forest, ids: seq<SessionId>)
    requires Inv(f) && IsLineage(f, ids) && LineageKept(f, ids)
    ensures Glued(f, ids, |ids|) == Branch(f[ids[|ids| - 1]])
  {
    hide Branch, Own, OwnStart, CutOwn, LinkOk, SessionOk, ForkTurnKept;
    var n := |ids| - 1;
    var s := f[ids[n]];
    GluedIsInherited(f, ids, n);
    assert SessionOk(s);
    OwnIsSuffix(s);
    assert Branch(s) == Branch(s)[..OwnStart(s)] + Branch(s)[OwnStart(s)..];
  }

  // ------------------------------------------------------------------ the focused view

  function FindMapped(view: seq<MappedEntry>, e: EntryId): (r: Option<nat>)
    ensures r.Some? ==> r.value < |view| && view[r.value].entryId == e
    ensures r.None? ==> forall i :: 0 <= i < |view| ==> view[i].entryId != e
  {
    if view == [] then None
    else match FindMapped(view[..|view| - 1], e)
         case Some(i) => Some(i)
         case None => if view[|view| - 1].entryId == e then Some(|view| - 1) else None
  }

  /** What one session shows: its view, cut after the entry at which the next session was forked. */
  function Segment(s: Session, x: SessionId, next: Option<Session>): Result<seq<MappedEntry>, ViewError> {
    match ViewOf(s)
    case Err(_) => Err(SessionCorrupt)
    case Ok(view) =>
      if next.Some? && next.value.fork.Some? && next.value.fork.value.parent == x then
        match FindMapped(view, next.value.fork.value.entry)
        case None => Err(AnchorMissing)
        case Some(boundary) => Ok(view[..boundary + 1])
      else Ok(view)
  }

  function Next(f: Forest, ids: seq<SessionId>, i: nat): Option<Session>
    requires forall j :: 0 <= j < |ids| ==> ids[j] in f
  {
    if i + 1 < |ids| then Some(f[ids[i + 1]]) else None
  }

  function Count(segments: seq<seq<MappedEntry>>): nat {
    if segments == [] then 0 else Count(segments[..|segments| - 1]) + |segments[|segments| - 1]|
  }

  function Focus(f: Forest, ids: seq<SessionId>, n: nat): (r: Result<seq<seq<MappedEntry>>, ViewError>)
    requires (forall j :: 0 <= j < |ids| ==> ids[j] in f) && n <= |ids|
    ensures r.Ok? ==> |r.value| == n
  {
    if n == 0 then Ok([])
    else match Focus(f, ids, n - 1)
         case Err(e) => Err(e)
         case Ok(segments) =>
           match Segment(f[ids[n - 1]], ids[n - 1], Next(f, ids, n - 1))
           case Err(e) => Err(e)
           case Ok(segment) =>
             if Count(segments) + |segment| > MAX_TREE_ENTRIES then Err(TooLarge) else Ok(segments + [segment])
  }

  /** The focused tree of a conversation: its lineage, then one segment for each session of it. */
  function FocusedTree(f: Forest, x: SessionId): Result<seq<seq<MappedEntry>>, ViewError> {
    match LineageWalk(f, Some(x), {}, 0)
    case Err(e) => Err(e)
    case Ok(ids) => Focus(f, ids, |ids|)
  }

  /** The entries of a session's view at their places in the whole branch. */
  function Placed(view: seq<MappedEntry>, start: nat): seq<MappedEntry> {
    seq(|view|, i requires 0 <= i < |view| => view[i].(index := view[i].index + start))
  }

  ghost function PlacedFocus(f: Forest, ids: seq<SessionId>, segments: seq<seq<MappedEntry>>): seq<MappedEntry>
    requires |segments| <= |ids| && forall j :: 0 <= j < |ids| ==> ids[j] in f
  {
    if segments == [] then []
    else
      var n := |segments| - 1;
      PlacedFocus(f, ids, segments[..n]) + Placed(segments[n], OwnStart(f[ids[n]]))
  }

  /** Where the contribution of the `n`-th session ends in the branch. */
  ghost function PartEnd(f: Forest, ids: seq<SessionId>, n: nat): nat
    requires IsLineage(f, ids) && n < |ids|
  {
    if n + 1 < |ids| then OwnStart(f[ids[n + 1]]) else |Branch(f[ids[n]])|
  }

  lemma PlacedOrdered(s: Session, view: seq<MappedEntry>, boundary: nat, end: nat)
    requires SessionOk(s) && InBranchOrder(Own(s), view) && boundary <= |view|
    requires OwnStart(s) <= end <= |Branch(s)|
    requires boundary > 0 ==> OwnStart(s) + view[boundary - 1].index < end
    ensures InBranchOrder(Branch(s), Placed(view[..boundary], OwnStart(s)))
    ensures Within(Placed(view[..boundary], OwnStart(s)), OwnStart(s), end)
  {
    hide ActiveBranch, FindEntry, Branch, Own, OwnStart, SessionOk;
    OwnIsSuffix(s);
  }

  lemma SegmentOrdered(f: Forest, ids: seq<SessionId>, n: nat)
    requires Inv(f) && IsLineage(f, ids) && LineageKept(f, ids) && n < |ids|
    ensures var r := Segment(f[ids[n]], ids[n], Next(f, ids, n));
            && r.Ok?
            && OwnStart(f[ids[n]]) <= PartEnd(f, ids, n)
            && InBranchOrder(Branch(f[ids[n]]), Placed(r.value, OwnStart(f[ids[n]])))
            && Within(Placed(r.value, OwnStart(f[ids[n]])), OwnStart(f[ids[n]]), PartEnd(f, ids, n))
  {
    hide Branch, Own, OwnStart, CutOwn, FindEntry, FindMapped, Placed, Within, Mapped, CompletedTurns, SessionOk,
      AnchorOf, PrefixTo, OffBranch, CompletedTurn, PrunedTurn, ViewOf;
    var s := f[ids[n]];
    assert SessionOk(s);
    ViewIsMapped(s);
    OwnIsSuffix(s);
    var view := Mapped(Own(s), CompletedTurns(s.turns));
    MappedOrdered(Own(s), CompletedTurns(s.turns));
    if n + 1 < |ids| {
      var x := ids[n + 1];
      var e := f[x].fork.value.entry;
      assert LinkOk(f, x) && ForkTurnKept(f, x);
      InheritedPart(f, x);
      AnchorMapped(s, f[x].fork.value.turn, e);
      var boundary := FindMapped(view, e).value + 1;
      OwnPlace(s, view[boundary - 1].index, e);
      PlacedOrdered(s, view, boundary, PartEnd(f, ids, n));
    } else {
      ViewBounded(Own(s), view);
      PlacedOrdered(s, view, |view|, |Branch(s)|);
      assert view[..|view|] == view;
    }
  }

  lemma OwnPlace(s: Session, i: nat, e: EntryId)
    requires SessionOk(s) && i < |Own(s)| && Own(s)[i].id == e
    ensures FindEntry(Own(s), e) == Some(i)
  {
    hide FindEntry, ActiveBranch;
    OwnIsSuffix(s);
    ActiveBranchIsTheBranch(s.entries, s.leaf, Branch(s));
    var j := FindEntry(Own(s), e).value;
    if j < i {
      BranchIdsDistinct(s.entries, s.leaf, Branch(s), OwnStart(s) + j, OwnStart(s) + i);
    }
  }

  lemma ViewBounded(b: seq<Entry>, view: seq<MappedEntry>)
    requires InBranchOrder(b, view)
    ensures view != [] ==> view[|view| - 1].index < |b|
  {
  }

  lemma AnchorMapped(s: Session, t: TurnId, e: EntryId)
    requires SessionOk(s) && AnchorOf(s, t, e)
    ensures FindMapped(Mapped(Own(s), CompletedTurns(s.turns)), e).Some?
  {
    hide Mapped, CompletedTurns, IsAnchor, FindTarget, FindMapped;
    TargetsAreAnchors(Own(s), CompletedTurns(s.turns), t, e);
  }

  /** Order and places carry over to any branch that agrees up to where the entries end. */
  lemma OrderCarries(b: seq<Entry>, b': seq<Entry>, view: seq<MappedEntry>, n: nat)
    requires InBranchOrder(b, view) && Within(view, 0, n)
    requires n <= |b| && n <= |b'| && b[..n] == b'[..n]
    ensures InBranchOrder(b', view)
  {
    forall i | 0 <= i < |view|
      ensures view[i].index < |b'| && view[i].entryId == b'[view[i].index].id
    {
      assert b[..n][view[i].index] == b'[..n][view[i].index];
    }
  }

  lemma {:induction false} FocusOrdered(f: Forest, ids: seq<SessionId>, n: nat)
    requires Inv(f) && IsLineage(f, ids) && LineageKept(f, ids) && n < |ids| && Focus(f, ids, n + 1).Ok?
    ensures PartEnd(f, ids, n) <= |Branch(f[ids[n]])| || n + 1 < |ids|
    ensures InBranchOrder(Branch(f[ids[n]]), PlacedFocus(f, ids, Focus(f, ids, n + 1).value))
    ensures Within(PlacedFocus(f, ids, Focus(f, ids, n + 1).value), 0, PartEnd(f, ids, n))
  {
    hide Branch, Own, OwnStart, CutOwn, FindEntry, Placed, Within, InBranchOrder, SessionOk, LinkOk, Segment, Count;
    var b, start := Branch(f[ids[n]]), OwnStart(f[ids[n]]);
    var segments := Focus(f, ids, n + 1).value;
    var last := Placed(segments[n], start);
    SegmentOrdered(f, ids, n);
    assert segments[..n] == Focus(f, ids, n).value;
    var before := PlacedFocus(f, ids, segments[..n]);
    if n == 0 {
      RootOwnsAll(f[ids[0]]);
      NothingOrdered(b);
      assert before == [];
    } else {
      FocusOrdered(f, ids, n - 1);
      assert ForkTurnKept(f, ids[n]);
      InheritedPart(f, ids[n]);
      OrderCarries(Branch(f[ids[n - 1]]), b, before, start);
    }
    OrderedAppend(b, before, last, start, PartEnd(f, ids, n));
    assert PlacedFocus(f, ids, segments) == before + last;
  }

  /** The segments of the first `n` sessions, whatever their size. */
  ghost function AllSegments(f: Forest, ids: seq<SessionId>, n: nat): (r: seq<seq<MappedEntry>>)
    requires (forall j :: 0 <= j < |ids| ==> ids[j] in f) && n <= |ids|
    ensures |r| == n
  {
    if n == 0 then []
    else
      AllSegments(f, ids, n - 1) + [match Segment(f[ids[n - 1]], ids[n - 1], Next(f, ids, n - 1))
                                    case Ok(segment) => segment
                                    case Err(_) => []]
  }

  /** No fork turn was pruned down to the session after the first `n`. */
  ghost predicate KeptUpTo(f: Forest, ids: seq<SessionId>, n: nat)
    requires IsLineage(f, ids)
  {
    forall i :: 0 <= i <= n && i < |ids| ==> ForkTurnKept(f, ids[i])
  }

  /** Until a fork turn turns out pruned, the view is all of its segments, unless they are too many entries. */
  lemma {:induction false} FocusSucceeds(f: Forest, ids: seq<SessionId>, n: nat)
    requires Inv(f) && IsLineage(f, ids) && n <= |ids| && KeptUpTo(f, ids, n)
    ensures Focus(f, ids, n) ==
            if Count(AllSegments(f, ids, n)) <= MAX_TREE_ENTRIES then Ok(AllSegments(f, ids, n)) else Err(TooLarge)
  {
    hide Segment, Inv, ForkTurnKept;
    if n > 0 {
      FocusSucceeds(f, ids, n - 1);
      SegmentShown(f, ids, n - 1);
      var segments := AllSegments(f, ids, n);
      assert segments[..n - 1] == AllSegments(f, ids, n - 1);
    }
  }

  lemma {:induction false} FocusFails(f: Forest, ids: seq<SessionId>, m: nat, n: nat)
    requires (forall i :: 0 <= i < |ids| ==> ids[i] in f) && m <= n <= |ids|
    requires Focus(f, ids, m).Err?
    ensures Focus(f, ids, n) == Focus(f, ids, m)
  {
    hide Segment, Count;
    if m < n {
      FocusFails(f, ids, m, n - 1);
    }
  }

  lemma SegmentErrors(f: Forest, ids: seq<SessionId>, n: nat)
    requires Inv(f) && IsLineage(f, ids) && n < |ids|
    ensures var r := Segment(f[ids[n]], ids[n], Next(f, ids, n));
            r.Err? ==> r == Err(AnchorMissing) && n + 1 < |ids|
  {
    hide Branch, Own, FindMapped, Mapped, CompletedTurns, SessionOk, LinkOk, ViewOf;
    assert SessionOk(f[ids[n]]);
    ViewIsMapped(f[ids[n]]);
  }

  /** A segment is missing its anchor exactly if the next session's fork turn was pruned; else it can be shown. */
  lemma SegmentShown(f: Forest, ids: seq<SessionId>, n: nat)
    requires Inv(f) && IsLineage(f, ids) && n < |ids|
    ensures var r := Segment(f[ids[n]], ids[n], Next(f, ids, n));
            if n + 1 < |ids| && !ForkTurnKept(f, ids[n + 1]) then r == Err(AnchorMissing) else r.Ok?
  {
    hide Segment, Inv, ForkTurnKept;
    SegmentErrors(f, ids, n);
    if n + 1 < |ids| {
      AnchorMissingIffPruned(f, ids, n);
    }
  }

  /** The first session of the lineage, from the root, whose fork turn was pruned. */
  ghost predicate FirstPruned(f: Forest, ids: seq<SessionId>, i: nat)
    requires IsLineage(f, ids)
  {
    0 < i < |ids| && !ForkTurnKept(f, ids[i]) && KeptUpTo(f, ids, i - 1)
  }

  /** What stops the view where the fork turn of the `i`-th session was the first pruned. */
  ghost function StopAt(f: Forest, ids: seq<SessionId>, i: nat): ViewError
    requires IsLineage(f, ids) && FirstPruned(f, ids, i)
  {
    if Count(AllSegments(f, ids, i - 1)) <= MAX_TREE_ENTRIES then AnchorMissing else TooLarge
  }

  lemma {:induction false} FindFirstPruned(f: Forest, ids: seq<SessionId>, n: nat) returns (i: nat)
    requires IsLineage(f, ids) && n < |ids| && !ForkTurnKept(f, ids[n])
    ensures FirstPruned(f, ids, i)
  {
    RootKept(f, ids);
    hide ForkTurnKept, IsLineage;
    if KeptUpTo(f, ids, n - 1) {
      i := n;
    } else {
      var m :| 0 <= m <= n - 1 && m < |ids| && !ForkTurnKept(f, ids[m]);
      i := FindFirstPruned(f, ids, m);
    }
  }

  lemma RootKept(f: Forest, ids: seq<SessionId>)
    requires IsLineage(f, ids)
    ensures ForkTurnKept(f, ids[0])
  {
  }

  /** Where a fork turn was pruned, the view fails there, unless it grew too large before. */
  lemma FocusStops(f: Forest, ids: seq<SessionId>, i: nat)
    requires Inv(f) && IsLineage(f, ids) && FirstPruned(f, ids, i)
    ensures Focus(f, ids, |ids|) == Err(StopAt(f, ids, i))
  {
    hide Segment, Inv, Count, ForkTurnKept, Focus, AllSegments, KeptUpTo, IsLineage;
    LineageStored(f, ids);
    FocusSucceeds(f, ids, i - 1);
    SegmentShown(f, ids, i - 1);
    if Focus(f, ids, i - 1).Ok? {
      SegmentStops(f, ids, i);
      FocusFails(f, ids, i, |ids|);
    } else {
      FocusFails(f, ids, i - 1, |ids|);
    }
  }

  lemma LineageStored(f: Forest, ids: seq<SessionId>)
    requires IsLineage(f, ids)
    ensures forall i :: 0 <= i < |ids| ==> ids[i] in f
  {
  }

  lemma SegmentStops(f: Forest, ids: seq<SessionId>, n: nat)
    requires (forall i :: 0 <= i < |ids| ==> ids[i] in f) && 0 < n <= |ids|
    requires Focus(f, ids, n - 1).Ok? && Segment(f[ids[n - 1]], ids[n - 1], Next(f, ids, n - 1)) == Err(AnchorMissing)
    ensures Focus(f, ids, n) == Err(AnchorMissing)
  {
    hide Segment, Count;
  }

  /** The focused tree of `x` can be shown. */
  ghost predicate Showable(f: Forest, x: SessionId) {
    var ids := Lineage(f, x);
    && |ids| <= MAX_TREE_BRANCHES && IsLineage(f, ids) && LineageKept(f, ids)
    && Count(AllSegments(f, ids, |ids|)) <= MAX_TREE_ENTRIES
  }

  /**
   In every good forest the focused tree of a live conversation is shown if and only if its lineage
   has at most 100 sessions, no fork turn on it was pruned, and it has at most 10000 entries; it is
   then all of the lineage's segments. Otherwise a lineage above 100 sessions is refused, and else
   whatever comes first from the root on is reported: the missing anchor of the first session whose
   fork turn was pruned, or more than 10000 entries before its parent's segment.
   */
  lemma TreeShownIff(f: Forest, x: SessionId)
    requires Good(f) && x in f && !f[x].archived
    ensures var ids := Lineage(f, x);
            && IsLineage(f, ids)
            && (FocusedTree(f, x).Ok? <==> Showable(f, x))
            && (FocusedTree(f, x).Ok? ==> FocusedTree(f, x) == Ok(AllSegments(f, ids, |ids|)))
            && (|ids| > MAX_TREE_BRANCHES ==> FocusedTree(f, x) == Err(LineageInvalid))
            && (|ids| <= MAX_TREE_BRANCHES && LineageKept(f, ids) && FocusedTree(f, x).Err? ==> FocusedTree(f, x) == Err(TooLarge))
            && (|ids| <= MAX_TREE_BRANCHES && !LineageKept(f, ids) ==>
                  exists i :: FirstPruned(f, ids, i) && FocusedTree(f, x) == Err(StopAt(f, ids, i)))
  {
    hide Focus, AllSegments, Count, Inv, Closed, LineageWalk, ForkTurnKept, FirstPruned;
    var ids := Lineage(f, x);
    LineageFound(f, x);
    LineageLinks(f, x);
    hide IsLineage, Lineage;
    if LineageKept(f, ids) {
      FocusSucceeds(f, ids, |ids|);
    } else {
      var n :| 0 <= n < |ids| && !ForkTurnKept(f, ids[n]);
      var i := FindFirstPruned(f, ids, n);
      FocusStops(f, ids, i);
    }
  }

  /** The anchor error of the focused view appears exactly where a fork turn on the lineage was pruned. */
  lemma AnchorMissingIffPruned(f: Forest, ids: seq<SessionId>, n: nat)
    requires Inv(f) && IsLineage(f, ids) && n + 1 < |ids|
    ensures Segment(f[ids[n]], ids[n], Next(f, ids, n)) == Err(AnchorMissing) <==> !ForkTurnKept(f, ids[n + 1])
  {
    hide Branch, Own, OwnStart, FindEntry, FindMapped, Mapped, CompletedTurns, SessionOk, AnchorOf, PrefixTo,
      CompletedTurn, ViewOf;
    var s, x := f[ids[n]], ids[n + 1];
    assert SessionOk(s) && LinkOk(f, x);
    var k := f[x].fork.value;
    ViewIsMapped(s);
    if ForkTurnKept(f, x) {
      AnchorMapped(s, k.turn, k.entry);
    } else {
      OffBranchUnmapped(s, k.entry);
    }
  }

  lemma OffBranchUnmapped(s: Session, e: EntryId)
    requires SessionOk(s) && OffBranch(s, e)
    ensures FindMapped(Mapped(Own(s), CompletedTurns(s.turns)), e).None?
  {
    hide Mapped, CompletedTurns, FindMapped, FindEntry, ActiveBranch, OwnOf;
    OwnIsSuffix(s);
    MappedOrdered(Own(s), CompletedTurns(s.turns));
  }

  /**
   In every forest reached without restoring a conversation that had lost its fork turn, the own
   branches along the lineage of a live conversation glue to its active branch; its focused tree is
   shown if and only if the lineage has at most 100 sessions and 10000 entries; and what is shown are
   entries of the active branch, in order and without repeats.
   */
  lemma FocusShowsActiveBranch(steps: seq<Step>, x: SessionId)
    requires AnchoredRestores(steps)
    requires x in Run(steps) && !Run(steps)[x].archived
    ensures var f := Run(steps);
            var ids := Lineage(f, x);
            && IsLineage(f, ids)
            && Glued(f, ids, |ids|) == Branch(f[x])
            && (FocusedTree(f, x).Ok? <==>
                  |ids| <= 100 && Count(AllSegments(f, ids, |ids|)) <= 10_000)
            && (FocusedTree(f, x).Err? ==>
                  FocusedTree(f, x) == Err(if |ids| > 100 then LineageInvalid else TooLarge))
            && (FocusedTree(f, x).Ok? ==>
                  |FocusedTree(f, x).value| == |ids| && InBranchOrder(Branch(f[x]), PlacedFocus(f, ids, FocusedTree(f, x).value)))
  {
    hide Run, Branch, Focus, PlacedFocus, InBranchOrder, Glued, Closed, Inv, AnchoredRestores, AllSegments, Count,
      LineageWalk, ForkTurnKept;
    var f := Run(steps);
    var ids := Lineage(f, x);
    RunGood(steps);
    TreeShownIff(f, x);
    LiveLineage(f, x);
    assert LineageKept(f, ids);
    LineageGlues(f, ids);
    LineageFound(f, x);
    if FocusedTree(f, x).Ok? {
      FocusOrdered(f, ids, |ids| - 1);
    }
  }

  lemma {:induction false} LiveLineage(f: Forest, x: SessionId)
    requires Good(f) && x in f && !f[x].archived
    ensures forall i :: 0 <= i < |Lineage(f, x)| ==> Lineage(f, x)[i] in f && !f[Lineage(f, x)[i]].archived
    decreases f[x].serial
  {
    hide SessionOk;
    assert LinkOk(f, x);
    if f[x].fork.Some? {
      LiveLineage(f, f[x].fork.value.parent);
    }
  }

  /**
   Restoring a conversation after its parent was pruned behind the fork turn brings back a
   conversation whose focused tree cannot be shown.
   */
  lemma RestoredForkHasNoAnchor(f: Forest, c: SessionId, workspaceTaken: bool)
    requires Good(f) && c in f && f[c].fork.Some? && !ForkTurnKept(f, c)
    requires Unarchive(f, c, workspaceTaken).Ok?
    ensures var f' := Unarchive(f, c, workspaceTaken).value;
            var ids := Lineage(f', c);
            && IsLineage(f', ids) && |ids| >= 2
            && Segment(f'[ids[|ids| - 2]], ids[|ids| - 2], Next(f', ids, |ids| - 2)) == Err(AnchorMissing)
            && FocusedTree(f', c).Err?
  {
    hide Segment, Closed, SessionOk, PrunedTurn, Unsettled, FocusedTree, Count, AllSegments;
    var f' := Unarchive(f, c, workspaceTaken).value;
    UnarchiveInv(f, c, workspaceTaken);
    LineageLinks(f', c);
    var p := f[c].fork.value.parent;
    assert LinkOk(f, c) && LinkOk(f', c);
    SameButArchived(f[p], f'[p].archived);
    AnchorMissingIffPruned(f', Lineage(f', c), |Lineage(f', c)| - 2);
    TreeShownIff(f', c);
    assert !LineageKept(f', Lineage(f', c));
  }
}
